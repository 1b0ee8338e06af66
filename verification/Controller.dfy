/** The controller: diffing the cluster against what was last applied, running
    the difference, and dropping what failed (`controller/controller.py`). */
module Reconciler {
  import opened Ordering
  import opened Ledger
  import opened NodePlacement
  import opened ClusterPlacement

  /** A key of `self.state`. */
  datatype Slot = At(node: NodeId, key: Key)

  type Applied = map<Slot, Deployment>

  predicate IsHot(c: ClusterState, a: Slot) {
    a.node in c.nodes && a.key in c.nodes[a.node].hot
  }

  predicate IsWarm(c: ClusterState, a: Slot) {
    a.node in c.nodes && a.key in c.nodes[a.node].warm
  }

  /** Every replica of the cluster, HOT or WARM. */
  function Slots(c: ClusterState): set<Slot> {
    (set id, k | id in c.nodes && k in c.nodes[id].hot :: At(id, k))
    + (set id, k | id in c.nodes && k in c.nodes[id].warm :: At(id, k))
  }

  lemma SlotsMeaning(c: ClusterState, a: Slot)
    ensures a in Slots(c) <==> IsHot(c, a) || IsWarm(c, a)
  {
    assert a == At(a.node, a.key);
  }

  function RecordAt(c: ClusterState, a: Slot): Deployment
    requires IsHot(c, a) || IsWarm(c, a)
  {
    if IsHot(c, a) then c.nodes[a.node].hot[a.key] else c.nodes[a.node].warm[a.key]
  }

  function Contents(c: ClusterState): Applied {
    map a | a in Slots(c) && (IsHot(c, a) || IsWarm(c, a)) :: RecordAt(c, a)
  }

  // ------------------------------------------------------------ what build relies on

  /** The unguarded `pop` of every WARM replica finds an entry. */
  predicate WarmKnown(state: Applied, c: ClusterState) {
    forall a :: a in Slots(c) && IsWarm(c, a) ==> a in state
  }

  /** A replica HOT before and after is under the same record. */
  predicate HotStable(state: Applied, c: ClusterState) {
    forall a :: a in Slots(c) && IsHot(c, a) && a in state && state[a].level == Hot ==> state[a] == RecordAt(c, a)
  }

  /** A replica id never names replicas on two nodes, before or after. */
  predicate OneHome(state: Applied, c: ClusterState) {
    && (forall a, b :: a in state && b in state && a.key == b.key ==> a == b)
    && (forall a, b :: a in state && b in Slots(c) && a.key == b.key ==> a == b)
    && (forall a, b :: a in Slots(c) && b in Slots(c) && a.key == b.key ==> a == b)
  }

  /** Entries are filed under their own node and key. */
  predicate Filed(state: Applied) {
    forall a :: a in state ==> state[a].node == a.node && state[a].key == a.key
  }

  // ------------------------------------------------------------------ invariant

  /** The last-applied state covers the cluster, record by record; entries of
      nodes that have left since may be there besides. */
  predicate Covers(state: Applied, c: ClusterState) {
    forall a :: a in Slots(c) ==> (IsHot(c, a) || IsWarm(c, a)) && a in state && state[a] == RecordAt(c, a)
  }

  predicate IdsIssued(state: Applied, issued: nat) {
    forall a :: a in state ==> a.key.replica < issued
  }

  predicate HomesUnique(state: Applied) {
    forall a, b :: a in state && b in state && a.key == b.key ==> a == b
  }

  ghost predicate ControllerInv(c: ClusterState, state: Applied) {
    ClusterInv(c) && Covers(state, c) && IdsIssued(state, c.issued) && HomesUnique(state) && Filed(state)
  }

  lemma ContentsMeaning(c: ClusterState, a: Slot)
    ensures a in Contents(c) <==> IsHot(c, a) || IsWarm(c, a)
    ensures a in Contents(c) ==> Contents(c)[a] == RecordAt(c, a)
  {
    SlotsMeaning(c, a);
  }

  lemma ContentsKeys(c: ClusterState)
    ensures Contents(c).Keys == Slots(c)
  {
    forall a | a in Slots(c) ensures a in Contents(c) {
      ContentsMeaning(c, a);
      SlotsMeaning(c, a);
    }
  }

  /** What one slot of the cluster can be after a call, seen from the state
      applied before it. */
  lemma SlotAfterCall(c: ClusterState, state: Applied, models: set<ModelKey>, now: int, c': ClusterState, a: Slot)
    requires ControllerInv(c, state) && CallMoves(models, now, c, c') && ClusterInv(c') && a in Slots(c')
    ensures IsWarm(c', a) ==> a in state
    ensures IsHot(c', a) && a in state && state[a].level == Hot ==> state[a] == RecordAt(c', a)
    ensures a in state || a.key.replica >= c.issued
    ensures a.key.replica < c'.issued
    ensures RecordAt(c', a).node == a.node && RecordAt(c', a).key == a.key
  {
    SlotsMeaning(c', a);
    SlotsMeaning(c, a);
    var n, n' := c.nodes[a.node], c'.nodes[a.node];
    assert Moves(models, c.issued, now, n, n');
    assert NodeInv(n) && NodeInv(n') && IdsBelow(n', c'.issued) && n'.id == a.node;
    assert a in Slots(c) ==> a in state && state[a] == RecordAt(c, a);
    hide Slots, GpuBalanced, CpuBalanced;
  }

  lemma SlotsHaveOneHome(c: ClusterState, a: Slot, b: Slot)
    requires ClusterInv(c) && a in Slots(c) && b in Slots(c) && a.key == b.key
    ensures a == b
  {
    SlotsMeaning(c, a);
    SlotsMeaning(c, b);
    assert Holds(c.nodes[a.node], a.key) && Holds(c.nodes[b.node], b.key);
  }

  /** After any call the build that follows finds what it relies on. */
  lemma BuildIsSafe(c: ClusterState, state: Applied, models: set<ModelKey>, now: int, c': ClusterState)
    requires ControllerInv(c, state) && CallMoves(models, now, c, c') && ClusterInv(c')
    ensures WarmKnown(state, c') && HotStable(state, c') && OneHome(state, c')
  {
    hide Slots, ClusterInv, CallMoves;
    forall a | a in Slots(c')
      ensures IsWarm(c', a) ==> a in state
      ensures IsHot(c', a) && a in state && state[a].level == Hot ==> state[a] == RecordAt(c', a)
      ensures a in state || a.key.replica >= c.issued
      ensures forall b :: b in Slots(c') && b.key == a.key ==> b == a
    {
      SlotAfterCall(c, state, models, now, c', a);
      forall b | b in Slots(c') && b.key == a.key ensures b == a {
        SlotsHaveOneHome(c', a, b);
      }
    }
  }

  /** What build leaves behind covers the cluster whatever it was before. */
  lemma ContentsCover(c: ClusterState)
    requires ClusterInv(c)
    ensures ControllerInv(c, Contents(c))
  {
    hide Slots, NodeInv;
    forall a | a in Contents(c)
      ensures RecordAt(c, a).node == a.node && RecordAt(c, a).key == a.key && a.key.replica < c.issued
      ensures forall b :: b in Contents(c) && b.key == a.key ==> b == a
    {
      SlotsMeaning(c, a);
      NodeRecords(c.nodes[a.node], a.key);
      assert IdsBelow(c.nodes[a.node], c.issued);
      forall b | b in Contents(c) && b.key == a.key ensures b == a {
        SlotsHaveOneHome(c, a, b);
      }
    }
    forall a | a in Slots(c) ensures a in Contents(c) && Contents(c)[a] == RecordAt(c, a) {
      SlotsMeaning(c, a);
    }
  }

  lemma NodeRecords(n: NodeState, k: Key)
    requires NodeInv(n)
    ensures k in n.hot ==> n.hot[k].node == n.id && n.hot[k].key == k
    ensures k in n.warm ==> n.warm[k].node == n.id && n.warm[k].key == k
  {
  }

  // ------------------------------------------------------------------- the diff

  /** `DeploymentDelta`, each list filed by slot. */
  datatype Delta = Delta(cache: Applied, restore: Applied, create: Applied, delete: Applied)

  /** The difference between what was applied and what the cluster holds now. */
  function DeltaOf(state: Applied, now: Applied): Delta {
    Delta(map a | a in now && a in state && now[a].level == Warm && state[a].level == Hot :: now[a],
          map a | a in now && a in state && now[a].level == Hot && state[a].level == Warm :: now[a],
          map a | a in now && a !in state && now[a].level == Hot :: now[a],
          map a | a in state && a !in now :: state[a])
  }

  function Touched(d: Delta): set<Slot> {
    d.cache.Keys + d.restore.Keys + d.create.Keys + d.delete.Keys
  }

  predicate ListsApart(d: Delta) {
    && d.delete.Keys !! d.cache.Keys && d.restore.Keys !! d.create.Keys
    && d.delete.Keys + d.cache.Keys !! d.restore.Keys + d.create.Keys
  }

  /** No replica is on two lists. */
  lemma ListsDisjoint(was: Applied, now: Applied)
    ensures ListsApart(DeltaOf(was, now))
  {
  }

  // ----------------------------------------------------------------- the actors

  /** What a replica's actor is doing. Actors are named after the replica and its
      model, so a key names at most one. */
  datatype Actor = Serving(node: NodeId, gpus: map<nat, int>) | Sleeping(node: NodeId)

  type World = map<Key, Actor>

  datatype Op = Kill(key: Key) | Park(key: Key) | Wake(key: Key, gpus: map<nat, int>)
              | Launch(key: Key, node: NodeId, gpus: map<nat, int>)

  /** One actor operation; None when Ray or the actor would refuse it. Killing an
      actor that is gone is logged and nothing more. */
  function Exec(w: World, op: Op): Option<World> {
    match op
    case Kill(k) => Some(w - {k})
    case Park(k) => if k in w && w[k].Serving? then Some(w[k := Sleeping(w[k].node)]) else None
    case Wake(k, gpus) => if k in w && w[k].Sleeping? then Some(w[k := Serving(w[k].node, gpus)]) else None
    case Launch(k, node, gpus) => if k !in w then Some(w[k := Serving(node, gpus)]) else None
  }

  function OpAt(d: Delta, a: Slot): Op
    requires a in Touched(d)
  {
    if a in d.delete then Kill(a.key)
    else if a in d.cache then Park(a.key)
    else if a in d.restore then Wake(a.key, d.restore[a].gpus)
    else Launch(a.key, d.create[a].node, d.create[a].gpus)
  }

  /** Running the delta's operations in the order of `work`. */
  function Play(w: World, d: Delta, work: seq<Slot>): Option<World>
    requires forall a :: a in work ==> a in Touched(d)
  {
    if work == [] then Some(w)
    else
      var last := |work| - 1;
      match Play(w, d, work[..last])
      case None => None
      case Some(w1) => Exec(w1, OpAt(d, work[last]))
  }

  function ActorOf(d: Deployment): Actor {
    if d.level == Hot then Serving(d.node, d.gpus) else Sleeping(d.node)
  }

  /** The actors a state describes. */
  function Describe(state: Applied): World
    requires HomesUnique(state)
  {
    map a | a in state :: a.key := ActorOf(state[a])
  }

  lemma DescribeMeaning(state: Applied, a: Slot)
    requires HomesUnique(state) && a in state
    ensures a.key in Describe(state) && Describe(state)[a.key] == ActorOf(state[a])
  {
  }

  /** A key is described exactly when some slot of it is filed. */
  lemma DescribedKey(state: Applied, k: Key)
    requires HomesUnique(state)
    ensures k in Describe(state) <==> exists b :: b in state && b.key == k
    ensures forall b :: b in state && b.key == k ==> Describe(state)[k] == ActorOf(state[b])
  {
  }

  lemma DescribeWithout(state: Applied, a: Slot)
    requires HomesUnique(state) && a in state
    ensures Describe(state - {a}) == Describe(state) - {a.key}
  {
    hide Describe, ActorOf;
    var less := state - {a};
    forall k: Key
      ensures k in Describe(less) <==> k in Describe(state) && k != a.key
      ensures k in Describe(less) ==> Describe(less)[k] == Describe(state)[k]
    {
      DescribedKey(state, k);
      DescribedKey(less, k);
      if b :| b in state && b.key == k && b != a {
        assert b in less;
      }
    }
  }

  lemma DescribePut(state: Applied, a: Slot, d: Deployment)
    requires HomesUnique(state) && (forall b :: b in state && b.key == a.key ==> b == a)
    ensures HomesUnique(state[a := d])
    ensures Describe(state[a := d]) == Describe(state)[a.key := ActorOf(d)]
  {
    var more := state[a := d];
    var w := Describe(more);
    DescribeMeaning(more, a);
    forall k | k in Describe(state) ensures k in w {
      var b :| b in state && b.key == k;
      assert b in more;
    }
  }

  /** The old state with the slots in `done` brought up to date. */
  function Mix(state: Applied, now: Applied, done: set<Slot>): Applied {
    map a | a in state.Keys + now.Keys && (if a in done then a in now else a in state) ::
      if a in done then now[a] else state[a]
  }

  /** Before and after, a replica has one home, and it is the same one. */
  predicate SameHomes(state: Applied, now: Applied) {
    && HomesUnique(state) && HomesUnique(now) && Filed(state) && Filed(now)
    && forall a, b :: a in state && b in now && a.key == b.key ==> a == b
  }

  lemma MixHomes(state: Applied, now: Applied, done: set<Slot>)
    requires SameHomes(state, now)
    ensures HomesUnique(Mix(state, now, done)) && Filed(Mix(state, now, done))
  {
  }

  predicate Warms(state: Applied, now: Applied) {
    forall a :: a in now && now[a].level == Warm ==> a in state
  }

  /** Which list a replica is on, and what it was and is. */
  lemma TouchedMeaning(state: Applied, now: Applied, a: Slot)
    requires Warms(state, now)
    ensures var d := DeltaOf(state, now);
      && (a in d.delete <==> a in state && a !in now)
      && (a in d.create <==> a !in state && a in now)
      && (a in d.cache <==> a in state && a in now && state[a].level == Hot && now[a].level == Warm)
      && (a in d.restore <==> a in state && a in now && state[a].level == Warm && now[a].level == Hot)
      && (a in d.create ==> d.create[a] == now[a] && now[a].level == Hot)
      && (a in d.restore ==> d.restore[a] == now[a])
      && (a in Touched(d) <==>
            a in d.delete || a in d.create || a in d.cache || a in d.restore)
  {
  }

  lemma MixStep(state: Applied, now: Applied, done: set<Slot>, a: Slot)
    requires a !in done && (a in state || a in now)
    ensures a in Mix(state, now, done) <==> a in state
    ensures a in state ==> Mix(state, now, done)[a] == state[a]
    ensures Mix(state, now, done + {a}) ==
            if a in now then Mix(state, now, done)[a := now[a]] else Mix(state, now, done) - {a}
    ensures SameHomes(state, now) ==> forall b :: b in Mix(state, now, done) && b.key == a.key ==> b == a
  {
  }

  /** One operation of the delta brings exactly its own replica up to date. */
  lemma OpUpdatesOne(state: Applied, now: Applied, done: set<Slot>, a: Slot)
    requires SameHomes(state, now) && Warms(state, now)
    requires a in Touched(DeltaOf(state, now)) && a !in done
    ensures HomesUnique(Mix(state, now, done)) && HomesUnique(Mix(state, now, done + {a}))
    ensures Exec(Describe(Mix(state, now, done)), OpAt(DeltaOf(state, now), a))
            == Some(Describe(Mix(state, now, done + {a})))
  {
    hide Describe, Mix, DeltaOf, Touched, Warms, HomesUnique;
    var d := DeltaOf(state, now);
    MixHomes(state, now, done);
    MixHomes(state, now, done + {a});
    TouchedMeaning(state, now, a);
    MixStep(state, now, done, a);
    var m := Mix(state, now, done);
    if a in state {
      DescribeMeaning(m, a);
    } else {
      NotDescribed(m, a);
    }
    if a in d.delete {
      DescribeWithout(m, a);
    } else {
      DescribePut(m, a, now[a]);
    }
  }

  lemma NotDescribed(m: Applied, a: Slot)
    requires HomesUnique(m) && a !in m && forall b :: b in m && b.key == a.key ==> b == a
    ensures a.key !in Describe(m)
  {
  }

  lemma {:induction false} PlayReaches(state: Applied, now: Applied, work: seq<Slot>)
    requires SameHomes(state, now) && Warms(state, now)
    requires Distinct(work) && forall a :: a in work ==> a in Touched(DeltaOf(state, now))
    ensures HomesUnique(Mix(state, now, Elements(work)))
    ensures Play(Describe(state), DeltaOf(state, now), work) == Some(Describe(Mix(state, now, Elements(work))))
  {
    hide DeltaOf, Touched, Describe, Mix, OpAt, Exec, Warms;
    MixHomes(state, now, Elements(work));
    if work == [] {
      MixNothing(state, now);
    } else {
      var last := |work| - 1;
      PlayReaches(state, now, work[..last]);
      ElementsGrow(work, last);
      assert work[..last + 1] == work;
      OpUpdatesOne(state, now, Elements(work[..last]), work[last]);
    }
  }

  lemma MixNothing(state: Applied, now: Applied)
    ensures Mix(state, now, Elements([])) == state
  {
  }

  /** Replicas HOT before and after sit on the same cards. */
  predicate GpusStable(state: Applied, now: Applied) {
    forall a :: a in state && a in now && state[a].level == Hot && now[a].level == Hot ==> state[a].gpus == now[a].gpus
  }

  lemma MixAll(state: Applied, now: Applied, a: Slot)
    requires Warms(state, now)
    ensures var m := Mix(state, now, Touched(DeltaOf(state, now)));
      && (a in m <==> a in now)
      && (a in m ==> m[a] == now[a] || (a in state && m[a] == state[a] && state[a].level == now[a].level))
      && (a in now && a in state && state[a].level == now[a].level ==> m[a] == state[a])
  {
    hide DeltaOf, Touched;
    TouchedMeaning(state, now, a);
  }

  lemma UntouchedIff(state: Applied, now: Applied)
    requires SameHomes(state, now) && Warms(state, now)
    ensures HomesUnique(Mix(state, now, Touched(DeltaOf(state, now))))
    ensures Describe(Mix(state, now, Touched(DeltaOf(state, now)))) == Describe(now) <==> GpusStable(state, now)
  {
    hide DeltaOf, Touched, Describe, Mix, Warms, HomesUnique;
    var m := Mix(state, now, Touched(DeltaOf(state, now)));
    MixHomes(state, now, Touched(DeltaOf(state, now)));
    forall a: Slot
      ensures a in m <==> a in now
      ensures a in now ==> (ActorOf(m[a]) == ActorOf(now[a]) <==>
                (a in state && state[a].level == Hot && now[a].level == Hot ==> state[a].gpus == now[a].gpus))
    {
      MixAll(state, now, a);
    }
    assert m.Keys == now.Keys;
    SameActorsIff(m, now);
  }

  lemma SameActorsIff(m: Applied, now: Applied)
    requires HomesUnique(m) && HomesUnique(now) && m.Keys == now.Keys
    ensures Describe(m) == Describe(now) <==> forall a :: a in now ==> ActorOf(m[a]) == ActorOf(now[a])
  {
    hide ActorOf;
    var w, w' := Describe(m), Describe(now);
    forall a | a in now
      ensures a.key in w && a.key in w' && w[a.key] == ActorOf(m[a]) && w'[a.key] == ActorOf(now[a])
    {
      DescribeMeaning(m, a);
      DescribeMeaning(now, a);
    }
    assert w.Keys == w'.Keys;
  }

  /** The diff preserves meaning: run in any order, the operations all succeed,
      and they turn the actors of the old state into the actors of the new one
      if and only if no replica HOT in both sits on other cards. */
  lemma DiffPreservesMeaningIff(state: Applied, now: Applied, work: seq<Slot>)
    requires SameHomes(state, now) && Warms(state, now)
    requires Distinct(work) && Elements(work) == Touched(DeltaOf(state, now))
    ensures Play(Describe(state), DeltaOf(state, now), work).Some?
    ensures Play(Describe(state), DeltaOf(state, now), work) == Some(Describe(now)) <==> GpusStable(state, now)
  {
    hide DeltaOf, Touched, Describe, Mix, OpAt, Exec, Warms, GpusStable;
    assert forall a :: a in work ==> a in Elements(work);
    PlayReaches(state, now, work);
    UntouchedIff(state, now);
  }

  // ------------------------------------------------------------- room on the cards

  /** Bytes the running actors take on one card. */
  ghost function Load(w: World, node: NodeId, g: nat): int
    decreases |w|
  {
    if w == map[] then 0
    else
      var k :| k in w;
      assert (w - {k}).Keys == w.Keys - {k};
      Share(w[k], node, g) + Load(w - {k}, node, g)
  }

  function Share(a: Actor, node: NodeId, g: nat): int {
    if a.Serving? && a.node == node && g in a.gpus then a.gpus[g] else 0
  }

  /** Every actor serving on the node is charged for there, card by card. */
  predicate Charged(w: World, node: NodeId, rs: Replicas) {
    forall k :: k in w && w[k].Serving? && w[k].node == node ==> k in rs && rs[k].gpus == w[k].gpus
  }

  lemma {:induction false} LoadWithin(w: World, node: NodeId, rs: Replicas, g: nat)
    requires Charged(w, node, rs) && NoCredit(rs, Gpu(g))
    ensures Load(w, node, g) <= Total(rs, Gpu(g))
    decreases |w|
  {
    if w == map[] {
      TotalNotNegative(rs, Gpu(g));
    } else {
      var k :| k in w && Load(w, node, g) == Share(w[k], node, g) + Load(w - {k}, node, g);
      assert (w - {k}).Keys == w.Keys - {k};
      var rest := w - {k};
      if w[k].Serving? && w[k].node == node {
        LoadWithin(rest, node, rs - {k}, g);
        TotalRemove(rs, k, Gpu(g));
        assert Share(w[k], node, g) == Weight(rs[k], Gpu(g));
      } else {
        LoadWithin(rest, node, rs, g);
        assert Share(w[k], node, g) == 0;
      }
    }
  }

  /** A record's level says which dictionary it is in. */
  lemma LevelTells(c: ClusterState, a: Slot)
    requires ClusterInv(c) && a in Contents(c)
    ensures IsHot(c, a) <==> Contents(c)[a].level == Hot
    ensures IsWarm(c, a) <==> Contents(c)[a].level == Warm
    ensures Contents(c)[a].level == Hot ==> c.nodes[a.node].hot[a.key] == Contents(c)[a]
    ensures Contents(c)[a].node == a.node
  {
    ContentsMeaning(c, a);
    assert NodeInv(c.nodes[a.node]) && c.nodes[a.node].id == a.node;
  }

  lemma HotOnceShrunk(state: Applied, now: Applied, done: set<Slot>, a: Slot)
    requires SameHomes(state, now) && GpusStable(state, now) && Warms(state, now)
    requires DeltaOf(state, now).delete.Keys + DeltaOf(state, now).cache.Keys <= done
    requires a in Mix(state, now, done) && Mix(state, now, done)[a].level == Hot
    ensures a in now && now[a].level == Hot && now[a].gpus == Mix(state, now, done)[a].gpus
  {
    TouchedMeaning(state, now, a);
    hide DeltaOf;
  }

  lemma DoneIsCharged(state: Applied, c: ClusterState, done: set<Slot>, node: NodeId)
    requires ClusterInv(c) && node in c.nodes
    requires SameHomes(state, Contents(c)) && GpusStable(state, Contents(c)) && Warms(state, Contents(c))
    requires DeltaOf(state, Contents(c)).delete.Keys + DeltaOf(state, Contents(c)).cache.Keys <= done
    ensures HomesUnique(Mix(state, Contents(c), done))
    ensures Charged(Describe(Mix(state, Contents(c), done)), node, c.nodes[node].hot)
  {
    hide Contents, Slots, DeltaOf, ClusterInv, Mix, GpusStable, Warms;
    var now := Contents(c);
    var m := Mix(state, now, done);
    MixHomes(state, now, done);
    var w := Describe(m);
    forall k | k in w && w[k].Serving? && w[k].node == node
      ensures k in c.nodes[node].hot && c.nodes[node].hot[k].gpus == w[k].gpus
    {
      var a :| a in m && a.key == k;
      DescribeMeaning(m, a);
      HotOnceShrunk(state, now, done, a);
      LevelTells(c, a);
    }
  }

  /** The deletes and the caches come before the restores and the creates. */
  predicate ShrinksFirst(d: Delta, work: seq<Slot>, i: nat)
    requires i <= |work|
  {
    d.delete.Keys + d.cache.Keys <= Elements(work[..i])
  }

  /** Nothing claims a card before its room is there: once the deletes and caches
      are done, at no point do the running actors overfill a card. */
  lemma CardsNeverOverfilled(state: Applied, c: ClusterState, work: seq<Slot>, i: nat, node: NodeId, g: nat)
    requires ClusterInv(c) && node in c.nodes && g < |c.nodes[node].free|
    requires SameHomes(state, Contents(c)) && GpusStable(state, Contents(c)) && Warms(state, Contents(c))
    requires Distinct(work) && Elements(work) == Touched(DeltaOf(state, Contents(c)))
    requires i <= |work| && ShrinksFirst(DeltaOf(state, Contents(c)), work, i)
    ensures var w := Play(Describe(state), DeltaOf(state, Contents(c)), work[..i]);
            w.Some? && Load(w.value, node, g) <= c.nodes[node].memory
  {
    assert forall a :: a in work ==> a in Elements(work);
    PlayReaches(state, Contents(c), work[..i]);
    DoneIsCharged(state, c, Elements(work[..i]), node);
    hide Contents, DeltaOf, Touched, Describe, Mix, OpAt, Exec, Warms, GpusStable, Slots;
    var n := c.nodes[node];
    assert NodeInv(n);
    Weighs(n, g);
    LoadWithin(Describe(Mix(state, Contents(c), Elements(work[..i]))), node, n.hot, g);
    assert n.free[g] >= 0 && n.free[g] + Total(n.hot, Gpu(g)) == n.memory;
  }

  // ----------------------------------------------------------------- whole runs

  /** Any call's outcome, put in terms of the two states the diff compares. */
  lemma CallThenBuild(c: ClusterState, state: Applied, models: set<ModelKey>, now: int, c': ClusterState)
    requires ControllerInv(c, state) && CallMoves(models, now, c, c') && ClusterInv(c')
    ensures WarmKnown(state, c') && Warms(state, Contents(c'))
    ensures SameHomes(state, Contents(c')) && GpusStable(state, Contents(c'))
    ensures forall a :: a in state && a in Contents(c') && state[a].level == Hot && Contents(c')[a].level == Hot ==>
              state[a] == Contents(c')[a]
  {
    BuildIsSafe(c, state, models, now, c');
    ContentsCover(c');
    hide Slots, ClusterInv, CallMoves, Contents;
    forall a | a in Contents(c')
      ensures a in Slots(c')
      ensures Contents(c')[a].level == Warm ==> a in state
      ensures a in state && state[a].level == Hot && Contents(c')[a].level == Hot ==> state[a] == Contents(c')[a]
    {
      LevelTells(c', a);
      ContentsMeaning(c', a);
      SlotsMeaning(c', a);
    }
  }

  /** A deploy or an eviction followed by apply, whatever it moved: no `pop`
      misses, and in whatever order the operations run they all succeed and leave
      exactly the actors of the new state. */
  lemma CallThenApply(c: ClusterState, state: Applied, models: set<ModelKey>, now: int, c': ClusterState, work: seq<Slot>)
    requires ControllerInv(c, state) && CallMoves(models, now, c, c') && ClusterInv(c')
    requires Distinct(work) && Elements(work) == Touched(DeltaOf(state, Contents(c')))
    ensures WarmKnown(state, c') && HomesUnique(Contents(c'))
    ensures Play(Describe(state), DeltaOf(state, Contents(c')), work) == Some(Describe(Contents(c')))
  {
    hide DeltaOf, Touched, Describe, GpusStable, Contents, ClusterInv, CallMoves, WarmKnown;
    assert forall a :: a in work ==> a in Elements(work);
    CallThenBuild(c, state, models, now, c');
    DiffPreservesMeaningIff(state, Contents(c'), work);
  }

  /** The record handed in charges what is registered under its key, if anything
      still is. */
  predicate Handed(c: ClusterState, d: Deployment) {
    d.node in c.nodes ==> Current(c.nodes[d.node], d)
  }

  /** `_remove_deployment_from_state`, on the cluster. */
  function Dropped(c: ClusterState, d: Deployment): ClusterState {
    if d.node in c.nodes then c.(nodes := c.nodes[d.node := WithoutRecord(c.nodes[d.node], d)]) else c
  }

  lemma DroppedKeepsIff(c: ClusterState, d: Deployment)
    requires ClusterInv(c)
    ensures ClusterInv(Dropped(c, d)) <==> Handed(c, d)
  {
    hide NodeInv, Current, WithoutRecord, OneHomeEach, IdsBelow;
    if d.node in c.nodes {
      RemovalBalancesIffCurrent(c.nodes[d.node], d);
      DroppedHomes(c, d);
      assert Dropped(c, d).nodes[d.node] == WithoutRecord(c.nodes[d.node], d);
    }
  }

  lemma DroppedHomes(c: ClusterState, d: Deployment)
    requires ClusterInv(c) && d.node in c.nodes
    ensures OneHomeEach(Dropped(c, d)) && IdsBelow(WithoutRecord(c.nodes[d.node], d), c.issued)
    ensures WithoutRecord(c.nodes[d.node], d).id == d.node
  {
    hide NodeInv;
    var c' := Dropped(c, d);
    assert IdsBelow(c.nodes[d.node], c.issued);
    forall id, k | id in c'.nodes && Holds(c'.nodes[id], k) ensures Holds(c.nodes[id], k) { }
  }

  lemma DroppedContents(c: ClusterState, d: Deployment)
    requires ClusterInv(c)
    ensures Contents(Dropped(c, d)) == Contents(c) - {At(d.node, d.key)}
  {
    hide Contents;
    var c', gone := Dropped(c, d), At(d.node, d.key);
    forall a: Slot
      ensures a in Contents(c') <==> a in Contents(c) && a != gone
      ensures a in Contents(c') ==> Contents(c')[a] == Contents(c)[a]
    {
      ContentsMeaning(c, a);
      ContentsMeaning(c', a);
      assert a.node in c.nodes ==> NodeInv(c.nodes[a.node]);
    }
  }

  /** Dropping a failed replica keeps the ledgers exact and the two sides in step
      if and only if the record it is handed charges what is registered. */
  lemma RemovalKeepsIffHanded(c: ClusterState, state: Applied, d: Deployment)
    requires ControllerInv(c, state)
    ensures ControllerInv(Dropped(c, d), state - {At(d.node, d.key)}) <==> Handed(c, d)
  {
    var c', gone := Dropped(c, d), At(d.node, d.key);
    DroppedKeepsIff(c, d);
    DroppedContents(c, d);
    hide ClusterInv, Contents, Slots, Dropped, Handed;
    forall a | a in Slots(c')
      ensures (IsHot(c', a) || IsWarm(c', a)) && a != gone && a in state && state[a] == RecordAt(c', a)
    {
      SlotsMeaning(c', a);
      ContentsMeaning(c', a);
      ContentsMeaning(c, a);
      SlotsMeaning(c, a);
    }
    IssuedKept(c, d);
  }

  lemma IssuedKept(c: ClusterState, d: Deployment)
    ensures Dropped(c, d).issued == c.issued
  {
  }

  /** The record in a slot is the one registered there. */
  lemma OwnRecord(c: ClusterState, a: Slot)
    requires ClusterInv(c) && a in Contents(c)
    ensures var d := Contents(c)[a];
      && d.node == a.node && d.key == a.key && a.node in c.nodes && Handed(c, d)
      && (d.key in c.nodes[d.node].hot ==> OnCards(d.gpus, |c.nodes[d.node].free|))
  {
    ContentsMeaning(c, a);
    var n := c.nodes[a.node];
    assert NodeInv(n) && n.id == a.node;
  }

  /** So does bringing the node set up to date, without any apply. */
  lemma SyncKeeps(c: ClusterState, state: Applied, alive: map<NodeId, Capacity>, minAge: Option<int>)
    requires ControllerInv(c, state)
    requires forall id :: id in alive ==> alive[id].memory > 0 && alive[id].cards > 0
    ensures ControllerInv(Synced(c, alive, minAge), state)
  {
    var c' := Synced(c, alive, minAge);
    SyncedKeeps(c, alive, minAge);
    hide ClusterInv, Slots;
    forall a | a in Slots(c')
      ensures (IsHot(c', a) || IsWarm(c', a)) && a in state && state[a] == RecordAt(c', a)
    {
      SlotsMeaning(c', a);
      SlotsMeaning(c, a);
    }
  }
}
