/** The controller over whole runs: calls, the operations each apply runs on the
    actors, failures at once and later, nodes that come and go
    (`controller/controller.py`). */
module ControllerRuns {
  import opened Ordering
  import opened Ledger
  import opened NodePlacement
  import opened ClusterPlacement
  import opened Reconciler

  // ------------------------------------------------------------- the whole controller

  const NOTHING := Delta(map[], map[], map[], map[])

  /** The operations not in `done`. */
  function Without(p: Delta, done: set<Slot>): Delta {
    Delta(p.cache - done, p.restore - done, p.create - done, p.delete - done)
  }

  lemma WithoutKeys(d: Delta, done: set<Slot>)
    ensures var p := Without(d, done);
      && p.cache.Keys == d.cache.Keys - done && p.restore.Keys == d.restore.Keys - done
      && p.create.Keys == d.create.Keys - done && p.delete.Keys == d.delete.Keys - done
  {
  }

  lemma WithoutMore(d: Delta, done: set<Slot>, more: set<Slot>)
    ensures Without(Without(d, done), more) == Without(d, done + more)
  {
  }

  /** The next operations: nothing is restored or created while a delete or a cache
      is outstanding. */
  predicate Due(p: Delta, a: Slot) {
    a in p.delete || a in p.cache || (a in Touched(p) && p.delete == map[] && p.cache == map[])
  }

  lemma IsTouched(p: Delta, a: Slot)
    requires Due(p, a)
    ensures a in Touched(p)
  {
  }

  /** No node but the one the record names holds its replica. */
  predicate AtHome(c: ClusterState, d: Deployment) {
    forall id :: id in c.nodes && Holds(c.nodes[id], d.key) ==> id == d.node
  }

  /** The controller: the cluster, the last-applied state, what is left of the
      `apply` in progress, and the live actors. */
  datatype Ctl = Ctl(cluster: ClusterState, state: Applied, pending: Delta, actors: World)

  /** One thing that happens to it. A call that changes nothing applies nothing. */
  datatype Event =
    | Called(models: set<ModelKey>, now: int, after: ClusterState, popped: set<Slot>)   // deploy or evict, then build
    | RaisedPartWay(models: set<ModelKey>, now: int, after: ClusterState)               // a deploy that raised
    | Ran(slot: Slot)                                                                   // one operation of apply
    | GaveUp(slot: Slot)                                                                // one that failed at once
    | NodesSeen(alive: map<NodeId, Capacity>, minAge: Option<int>)
    | FailedLate(record: Deployment)                                                        // one that failed later

  /** The unguarded `pop` of this build finds no entry. */
  predicate Misses(s: Ctl, e: Event) {
    e.Called? && !WarmKnown(s.state, e.after)
  }

  function Performed(w: World, p: Delta, a: Slot): World {
    if a in Touched(p) && Exec(w, OpAt(p, a)).Some? then Exec(w, OpAt(p, a)).value else w
  }

  /** What `purge` kills on the nodes that left. */
  function Purgeable(c: ClusterState, alive: set<NodeId>): set<Key> {
    set a | a in Slots(c) && a.node !in alive :: a.key
  }

  /** A build that misses has cleared its cluster call and some of its pops; a
      replica given up or failed is killed and dropped from both sides. */
  function Next(s: Ctl, e: Event): Ctl {
    match e
    case Called(_, _, after, popped) =>
      if WarmKnown(s.state, after) then Ctl(after, Contents(after), DeltaOf(s.state, Contents(after)), s.actors)
      else s.(cluster := after, state := s.state - popped)
    case RaisedPartWay(_, _, after) => s.(cluster := after)
    case Ran(a) => s.(pending := Without(s.pending, {a}), actors := Performed(s.actors, s.pending, a))
    case GaveUp(a) =>
      if a in Contents(s.cluster)
      then Ctl(Dropped(s.cluster, Contents(s.cluster)[a]), s.state - {a}, Without(s.pending, {a}), s.actors - {a.key})
      else s
    case NodesSeen(alive, minAge) =>
      s.(cluster := Synced(s.cluster, alive, minAge), actors := s.actors - Purgeable(s.cluster, alive.Keys))
    case FailedLate(d) => s.(cluster := Dropped(s.cluster, d), state := s.state - {At(d.node, d.key)}, actors := s.actors - {d.key})
  }

  /** What the operations of the cluster and the order of `apply`, which nothing
      interrupts, guarantee about each event. */
  ghost predicate Happens(s: Ctl, e: Event) {
    match e
    case Called(models, now, after, popped) =>
      s.pending == NOTHING && CallMoves(models, now, s.cluster, after) && ClusterInv(after) && popped <= Slots(after)
    case RaisedPartWay(models, now, after) =>
      s.pending == NOTHING && CallMoves(models, now, s.cluster, after) && ClusterInv(after)
    case Ran(a) => Due(s.pending, a)
    case GaveUp(a) => Due(s.pending, a) && a !in s.pending.delete
    case NodesSeen(alive, _) => s.pending == NOTHING && Usable(alive)
    case FailedLate(d) => s.pending == NOTHING && Handed(s.cluster, d) && AtHome(s.cluster, d)
  }

  predicate Usable(alive: map<NodeId, Capacity>) {
    forall id :: id in alive ==> alive[id].memory > 0 && alive[id].cards > 0
  }

  function Start(): Ctl {
    Ctl(ClusterState(map[], 0), map[], NOTHING, map[])
  }

  function After(events: seq<Event>): Ctl {
    if events == [] then Start() else Next(After(events[..|events| - 1]), events[|events| - 1])
  }

  ghost predicate IsRun(events: seq<Event>) {
    events != [] ==>
      var last := |events| - 1;
      IsRun(events[..last]) && Happens(After(events[..last]), events[last])
  }

  lemma RunExtends(events: seq<Event>, e: Event)
    requires IsRun(events) && Happens(After(events), e)
    ensures IsRun(events + [e]) && After(events + [e]) == Next(After(events), e)
  {
    hide Next, Happens;
    assert (events + [e])[..|events|] == events;
  }

  lemma {:induction false} RunPrefix(events: seq<Event>, i: nat)
    requires IsRun(events) && i <= |events|
    ensures IsRun(events[..i]) && (i < |events| ==> Happens(After(events[..i]), events[i]))
    decreases |events|
  {
    hide Happens, After;
    if i < |events| - 1 {
      RunPrefix(events[..|events| - 1], i);
      assert events[..|events| - 1][..i] == events[..i];
    } else if i == |events| {
      assert events[..i] == events;
    }
  }

  // ------------------------------------------------- when the unguarded pop misses

  /** The replicas of the cluster no apply has seen: placed by a deploy that
      raised, or taken out of the state by a build that missed, and not applied
      since. Told from the clusters the calls left alone. */
  function Unapplied(events: seq<Event>): set<Slot> {
    if events == [] then {}
    else
      var last := |events| - 1;
      StillUnapplied(After(events[..last]).cluster, events[last], Unapplied(events[..last]))
  }

  function StillUnapplied(c: ClusterState, e: Event, u: set<Slot>): set<Slot> {
    match e
    case Called(_, _, after, popped) =>
      if exists a :: a in u && IsWarm(after, a) then (u + popped + (Slots(after) - Slots(c))) * Slots(after) else {}
    case RaisedPartWay(_, _, after) => (u + (Slots(after) - Slots(c))) * Slots(after)
    case Ran(_) => u
    case GaveUp(a) => u - {a}
    case NodesSeen(alive, minAge) => u * Slots(Synced(c, alive, minAge))
    case FailedLate(d) => u - {At(d.node, d.key)}
  }

  /** Of the replicas of the cluster the state is missing exactly those in `u`. */
  predicate Missing(state: Applied, c: ClusterState, u: set<Slot>) {
    u <= Slots(c) && forall a :: a in Slots(c) ==> (a in state <==> a !in u)
  }

  /** The slots the state can lose again are in the cluster. */
  predicate Listed(p: Delta, c: ClusterState) {
    p.cache.Keys + p.restore.Keys + p.create.Keys <= Slots(c)
  }

  ghost predicate Tracked(s: Ctl, u: set<Slot>) {
    && ClusterInv(s.cluster) && IdsIssued(s.state, s.cluster.issued)
    && Missing(s.state, s.cluster, u) && Listed(s.pending, s.cluster)
  }

  /** A replica of the cluster after a call was there before, parked or not, or
      is HOT under an id never issued before. */
  lemma NewSlot(models: set<ModelKey>, now: int, c: ClusterState, c': ClusterState, a: Slot)
    requires CallMoves(models, now, c, c') && a in Slots(c')
    ensures a in Slots(c) || (a.key.replica >= c.issued && !IsWarm(c', a))
  {
    SlotsMeaning(c, a);
    SlotsMeaning(c', a);
    assert Moves(models, c.issued, now, c.nodes[a.node], c'.nodes[a.node]);
    hide Slots;
  }

  lemma MissingAfterCall(state: Applied, models: set<ModelKey>, now: int, c: ClusterState, c': ClusterState, u: set<Slot>,
                         popped: set<Slot>)
    requires CallMoves(models, now, c, c') && IdsIssued(state, c.issued) && Missing(state, c, u) && popped <= Slots(c')
    ensures Missing(state - popped, c', (u + popped + (Slots(c') - Slots(c))) * Slots(c'))
    ensures !WarmKnown(state, c') <==> exists a :: a in u && IsWarm(c', a)
  {
    hide CallMoves, Slots, IsWarm;
    forall a | a in Slots(c')
      ensures a in Slots(c) || (a !in state && !IsWarm(c', a))
    {
      NewSlot(models, now, c, c', a);
    }
    forall a | a in u && IsWarm(c', a) ensures a in Slots(c') && a !in state {
      SlotsMeaning(c', a);
    }
  }

  lemma ContentsTracked(c: ClusterState, state: Applied)
    requires ClusterInv(c)
    ensures IdsIssued(Contents(c), c.issued) && Missing(Contents(c), c, {}) && Listed(DeltaOf(state, Contents(c)), c)
  {
    ContentsCover(c);
    ContentsKeys(c);
    hide ClusterInv, Slots, Contents;
  }

  lemma DroppedSlots(c: ClusterState, d: Deployment)
    requires ClusterInv(c)
    ensures Slots(Dropped(c, d)) == Slots(c) - {At(d.node, d.key)} && Dropped(c, d).issued == c.issued
  {
    hide Slots, Contents, Dropped;
    DroppedContents(c, d);
    ContentsKeys(c);
    ContentsKeys(Dropped(c, d));
    IssuedKept(c, d);
  }

  lemma SyncedSlots(c: ClusterState, alive: map<NodeId, Capacity>, minAge: Option<int>, a: Slot)
    ensures var c' := Synced(c, alive, minAge);
      a in Slots(c') <==> a in Slots(c) && a.node in alive
  {
    var c' := Synced(c, alive, minAge);
    SlotsMeaning(c, a);
    SlotsMeaning(c', a);
    hide Slots;
  }

  /** A call keeps track, and misses exactly when an unapplied replica is WARM. */
  lemma CalledTracks(s: Ctl, e: Event, u: set<Slot>)
    requires Tracked(s, u) && Happens(s, e) && e.Called?
    ensures Tracked(Next(s, e), StillUnapplied(s.cluster, e, u))
    ensures Misses(s, e) <==> exists a :: a in u && IsWarm(e.after, a)
  {
    hide ClusterInv, Missing, WarmKnown, Contents, DeltaOf, Slots, IsWarm, Listed;
    MissingAfterCall(s.state, e.models, e.now, s.cluster, e.after, u, e.popped);
    ContentsTracked(e.after, s.state);
    NothingListed(e.after);
    assert s.cluster.issued <= e.after.issued;
  }

  lemma NothingListed(c: ClusterState)
    ensures Listed(NOTHING, c)
  {
  }

  lemma RaisedTracks(s: Ctl, e: Event, u: set<Slot>)
    requires Tracked(s, u) && Happens(s, e) && e.RaisedPartWay?
    ensures Tracked(Next(s, e), StillUnapplied(s.cluster, e, u))
  {
    hide ClusterInv, Missing, WarmKnown, Slots, Listed;
    MissingAfterCall(s.state, e.models, e.now, s.cluster, e.after, u, {});
    assert s.state - {} == s.state && u + {} == u;
    NothingListed(e.after);
    assert s.cluster.issued <= e.after.issued;
  }

  lemma DropTracks(s: Ctl, d: Deployment, done: set<Slot>, u: set<Slot>)
    requires Tracked(s, u) && Handed(s.cluster, d)
    requires s.pending == NOTHING || At(d.node, d.key) in done
    ensures ClusterInv(Dropped(s.cluster, d)) && IdsIssued(s.state - {At(d.node, d.key)}, Dropped(s.cluster, d).issued)
    ensures Missing(s.state - {At(d.node, d.key)}, Dropped(s.cluster, d), u - {At(d.node, d.key)})
    ensures Listed(Without(s.pending, done), Dropped(s.cluster, d))
  {
    hide ClusterInv, Handed, Slots, Dropped;
    DroppedKeepsIff(s.cluster, d);
    DroppedSlots(s.cluster, d);
  }

  lemma SyncTracks(s: Ctl, e: Event, u: set<Slot>)
    requires Tracked(s, u) && Happens(s, e) && e.NodesSeen?
    ensures Tracked(Next(s, e), StillUnapplied(s.cluster, e, u))
  {
    hide ClusterInv, Slots, Purgeable;
    SyncedKeeps(s.cluster, e.alive, e.minAge);
    var c' := Synced(s.cluster, e.alive, e.minAge);
    forall a | a in Slots(c') ensures a in Slots(s.cluster) {
      SyncedSlots(s.cluster, e.alive, e.minAge, a);
    }
    assert c'.issued == s.cluster.issued;
    hide Synced;
  }

  lemma StepTracks(s: Ctl, e: Event, u: set<Slot>)
    requires Tracked(s, u) && Happens(s, e)
    ensures Tracked(Next(s, e), StillUnapplied(s.cluster, e, u))
  {
    hide ClusterInv, CallMoves, Missing, IdsIssued, Contents, Slots, Synced, Dropped, Handed, AtHome, Purgeable, WarmKnown, Performed;
    match e
    case Called(_, _, _, _) => CalledTracks(s, e, u);
    case RaisedPartWay(_, _, _) => RaisedTracks(s, e, u);
    case Ran(a) =>
    case GaveUp(a) =>
      ContentsKeys(s.cluster);
      OwnRecord(s.cluster, a);
      DropTracks(s, Contents(s.cluster)[a], {a}, u);
    case NodesSeen(_, _) => SyncTracks(s, e, u);
    case FailedLate(d) =>
      DropTracks(s, d, {}, u);
  }

  /** In every run the state is missing exactly the unapplied replicas, and the
      ledgers are exact. */
  lemma {:induction false} RunTracks(events: seq<Event>)
    requires IsRun(events)
    ensures Tracked(After(events), Unapplied(events))
  {
    if events == [] {
      assert Slots(ClusterState(map[], 0)) == {};
    } else {
      hide Tracked, Happens, Next, StillUnapplied;
      var last := |events| - 1;
      RunTracks(events[..last]);
      StepTracks(After(events[..last]), events[last], Unapplied(events[..last]));
    }
  }

  /** In every run, deploys that raise part way and builds that missed before
      included, the `pop` misses in exactly those calls that find, or leave, an
      unapplied replica WARM. */
  lemma PopMissesIff(events: seq<Event>, i: nat)
    requires IsRun(events) && i < |events| && events[i].Called?
    ensures Misses(After(events[..i]), events[i]) <==>
            exists a :: a in Unapplied(events[..i]) && IsWarm(events[i].after, a)
  {
    hide Tracked, Happens, Misses, After, Unapplied, IsWarm;
    RunPrefix(events, i);
    RunTracks(events[..i]);
    CalledTracks(After(events[..i]), events[i], Unapplied(events[..i]));
  }

  // -------------------------------------------------- the actors follow the cluster

  /** What the actor of one replica of the cluster is doing, given what is still to
      be run. */
  predicate SlotAgrees(now: Applied, p: Delta, w: World, a: Slot)
    requires a in now
  {
    if a in p.cache then a.key in w && w[a.key].Serving? && w[a.key].node == a.node && now[a].level == Warm
    else if a in p.restore then a.key in w && w[a.key] == Sleeping(a.node) && p.restore[a] == now[a] && now[a].level == Hot
    else if a in p.create then a.key !in w && p.create[a] == now[a] && now[a].level == Hot
    else a.key in w && w[a.key] == ActorOf(now[a])
  }

  /** Every actor is accounted for, by a replica of the cluster or a delete. */
  ghost predicate Accounted(now: Applied, p: Delta, w: World) {
    forall k :: k in w ==> exists a :: (a in now || a in p.delete) && a.key == k && w[k].node == a.node
  }

  /** The lists are apart, and only deletes are of replicas the cluster has not. */
  predicate WellListed(now: Applied, p: Delta) {
    && HomesUnique(now) && Filed(now) && ListsApart(p)
    && p.cache.Keys + p.restore.Keys + p.create.Keys <= now.Keys
    && forall a, b :: a in p.delete && b in now ==> a.key != b.key
  }

  ghost predicate Agree(now: Applied, p: Delta, w: World) {
    WellListed(now, p) && (forall a :: a in now ==> SlotAgrees(now, p, w, a)) && Accounted(now, p, w)
  }

  lemma StaysListed(now: Applied, p: Delta, a: Slot)
    requires WellListed(now, p)
    ensures WellListed(now, Without(p, {a}))
  {
    hide Without, HomesUnique, Filed;
    WithoutKeys(p, {a});
    ApartStill(p, a);
  }

  lemma ApartStill(p: Delta, a: Slot)
    requires ListsApart(p)
    ensures ListsApart(Without(p, {a}))
  {
    hide Without;
    WithoutKeys(p, {a});
  }

  lemma FewerHomes(now: Applied, a: Slot)
    requires HomesUnique(now) && Filed(now)
    ensures HomesUnique(now - {a}) && Filed(now - {a})
  {
  }

  lemma LessIsListed(now: Applied, p: Delta, a: Slot)
    requires WellListed(now, p) && a !in p.delete
    ensures WellListed(now - {a}, Without(p, {a}))
  {
    hide Without, HomesUnique, Filed, ListsApart;
    WithoutKeys(p, {a});
    ApartStill(p, a);
    FewerHomes(now, a);
    assert (now - {a}).Keys == now.Keys - {a};
  }

  /** A replica whose actor an operation leaves alone. */
  lemma OthersAgree(now: Applied, p: Delta, w: World, a: Slot, now': Applied, w': World, b: Slot)
    requires b in now && b in now' && now'[b] == now[b] && b != a && SlotAgrees(now, p, w, b)
    requires b.key in w <==> b.key in w'
    requires b.key in w ==> w'[b.key] == w[b.key]
    ensures SlotAgrees(now', Without(p, {a}), w', b)
  {
  }

  /** Losing the actor of one replica, or of a delete. */
  lemma LosingAccounts(now: Applied, p: Delta, w: World, a: Slot)
    requires Accounted(now, p, w)
    ensures Accounted(now, Without(p, {a}), w - {a.key}) && Accounted(now - {a}, Without(p, {a}), w - {a.key})
  {
    var w', p', now' := w - {a.key}, Without(p, {a}), now - {a};
    forall k | k in w'
      ensures exists b :: (b in now || b in p'.delete) && b.key == k && w'[k].node == b.node
      ensures exists b :: (b in now' || b in p'.delete) && b.key == k && w'[k].node == b.node
    {
      var b :| (b in now || b in p.delete) && b.key == k && w[k].node == b.node;
      assert b != a && (b in now' || b in p'.delete);
    }
  }

  lemma ChangingAccounts(now: Applied, p: Delta, w: World, a: Slot, actor: Actor)
    requires Accounted(now, p, w) && a in now && actor.node == a.node
    ensures Accounted(now, Without(p, {a}), w[a.key := actor])
  {
    var w', p' := w[a.key := actor], Without(p, {a});
    forall k | k in w' ensures exists b :: (b in now || b in p'.delete) && b.key == k && w'[k].node == b.node {
      if k != a.key {
        var b :| (b in now || b in p.delete) && b.key == k && w[k].node == b.node;
        assert b != a && (b in now || b in p'.delete);
      }
    }
  }

  lemma KillAgrees(now: Applied, p: Delta, w: World, a: Slot)
    requires Agree(now, p, w) && a in p.delete
    ensures Agree(now, Without(p, {a}), w - {a.key})
  {
    hide SlotAgrees, Accounted, Without;
    StaysListed(now, p, a);
    LosingAccounts(now, p, w, a);
    forall b | b in now ensures SlotAgrees(now, Without(p, {a}), w - {a.key}, b) {
      assert b.key != a.key;
      OthersAgree(now, p, w, a, now, w - {a.key}, b);
    }
  }

  lemma DoneAgrees(now: Applied, p: Delta, w: World, a: Slot)
    requires a in now
    ensures SlotAgrees(now, Without(p, {a}), w[a.key := ActorOf(now[a])], a)
  {
  }

  /** One operation changes one actor, and that is then as the cluster has it. */
  lemma ChangeAgrees(now: Applied, p: Delta, w: World, a: Slot)
    requires Agree(now, p, w) && a in now && a in Touched(p)
    ensures Agree(now, Without(p, {a}), w[a.key := ActorOf(now[a])])
  {
    hide SlotAgrees, Accounted, Without, ListsApart;
    var w' := w[a.key := ActorOf(now[a])];
    StaysListed(now, p, a);
    assert ActorOf(now[a]).node == a.node;
    ChangingAccounts(now, p, w, a, ActorOf(now[a]));
    forall b | b in now ensures SlotAgrees(now, Without(p, {a}), w', b) {
      if b == a {
        DoneAgrees(now, p, w, a);
      } else {
        assert b.key != a.key;
        OthersAgree(now, p, w, a, now, w', b);
      }
    }
  }

  /** No operation of a due list is refused. */
  lemma RunAgrees(now: Applied, p: Delta, w: World, a: Slot)
    requires Agree(now, p, w) && a in Touched(p)
    ensures Exec(w, OpAt(p, a)).Some? && Agree(now, Without(p, {a}), Performed(w, p, a))
  {
    hide Agree, Accounted;
    if a in p.delete {
      KillAgrees(now, p, w, a);
    } else {
      AgreesAt(now, p, w, a);
      ChangeAgrees(now, p, w, a);
    }
  }

  lemma AgreesAt(now: Applied, p: Delta, w: World, a: Slot)
    requires Agree(now, p, w) && a in Touched(p) && a !in p.delete
    ensures a in now && SlotAgrees(now, p, w, a) && now[a].node == a.node
    ensures ListsApart(p)
  {
  }

  /** Giving up on a replica, killed and dropped, leaves the others as they were. */
  lemma DropAgrees(now: Applied, p: Delta, w: World, a: Slot, k: Key)
    requires Agree(now, p, w) && a !in p.delete && a.key == k
    requires forall b :: b in now && b.key == k ==> b == a
    ensures Agree(now - {a}, Without(p, {a}), w - {k})
  {
    hide SlotAgrees, Accounted, Without, ListsApart;
    LessIsListed(now, p, a);
    LosingAccounts(now, p, w, a);
    forall b | b in now - {a} ensures SlotAgrees(now - {a}, Without(p, {a}), w - {k}, b) {
      assert b.key != k;
      OthersAgree(now, p, w, a, now - {a}, w - {k}, b);
    }
  }

  lemma NothingToDo(now: Applied)
    requires HomesUnique(now) && Filed(now)
    ensures WellListed(now, NOTHING)
  {
  }

  lemma AtRestAgrees(now: Applied, w: World)
    requires HomesUnique(now) && Filed(now) && w == Describe(now)
    ensures Agree(now, NOTHING, w)
  {
    hide Describe, WellListed;
    NothingToDo(now);
    forall a | a in now ensures SlotAgrees(now, NOTHING, w, a) {
      DescribeMeaning(now, a);
    }
    forall k | k in w ensures exists a :: (a in now || a in NOTHING.delete) && a.key == k && w[k].node == a.node {
      DescribedKey(now, k);
      var a :| a in now && a.key == k;
      assert w[k].node == a.node;
    }
    hide SlotAgrees, HomesUnique, Filed;
  }

  /** With nothing outstanding the actors are the cluster's. */
  lemma AgreeAtRest(now: Applied, w: World)
    requires HomesUnique(now) && Filed(now)
    ensures Agree(now, NOTHING, w) <==> w == Describe(now)
  {
    hide Describe;
    if Agree(now, NOTHING, w) {
      forall k: Key
        ensures k in w <==> k in Describe(now)
        ensures k in w ==> w[k] == Describe(now)[k]
      {
        DescribedKey(now, k);
        if k in w {
          var a :| (a in now || a in NOTHING.delete) && a.key == k && w[k].node == a.node;
          assert SlotAgrees(now, NOTHING, w, a);
        }
      }
      assert w == Describe(now);
    }
    if w == Describe(now) {
      AtRestAgrees(now, w);
    }
  }

  // ------------------------------------------------- the record each actor runs under

  /** What the actors run under once a delta is worked off: the replicas it touches
      as the cluster now has them, the others as before. */
  function Told(live: Applied, state: Applied, now: Applied): Applied {
    map a | a in now :: if a in live && a in state && state[a].level == now[a].level then live[a] else now[a]
  }

  /** The actors whose names are not in `gone`. */
  function Spared(live: Applied, gone: set<Key>): Applied {
    map a | a in live && a.key !in gone :: live[a]
  }

  function LiveNext(s: Ctl, e: Event, live: Applied): Applied {
    match e
    case Called(_, _, after, _) => if WarmKnown(s.state, after) then Told(live, s.state, Contents(after)) else live
    case RaisedPartWay(_, _, _) => live
    case Ran(_) => live
    case GaveUp(a) => live - {a}
    case NodesSeen(alive, _) => Spared(live, Purgeable(s.cluster, alive.Keys))
    case FailedLate(d) => Spared(live, {d.key})
  }

  /** The record each actor was last created, parked or restored under, whatever
      the cluster has decided since. */
  function Live(events: seq<Event>): Applied {
    if events == [] then map[]
    else
      var last := |events| - 1;
      LiveNext(After(events[..last]), events[last], Live(events[..last]))
  }

  /** No build of the run missed. */
  predicate NeverMisses(events: seq<Event>) {
    events != [] ==>
      var last := |events| - 1;
      NeverMisses(events[..last]) && !Misses(After(events[..last]), events[last])
  }

  /** A replica is at the same place in the state and in the cluster. */
  predicate Apart(state: Applied, c: ClusterState) {
    forall a, b :: a in state && b in Slots(c) && a.key == b.key ==> a == b
  }

  /** The state knows of every actor, and which are parked. */
  predicate Shadows(state: Applied, live: Applied) {
    forall a :: a in live ==> a in state && live[a].level == state[a].level
  }

  predicate Present(state: Applied, c: ClusterState, live: Applied) {
    forall a :: a in state && a in Slots(c) ==> a in live
  }

  ghost predicate Lives(s: Ctl, live: Applied) {
    && HomesUnique(s.state) && Apart(s.state, s.cluster) && Shadows(s.state, live) && Present(s.state, s.cluster, live)
    && Agree(live, s.pending, s.actors) && (s.pending == NOTHING || s.state == Contents(s.cluster))
  }

  lemma ApartAfter(models: set<ModelKey>, now: int, c: ClusterState, c': ClusterState, state: Applied)
    requires CallMoves(models, now, c, c') && IdsIssued(state, c.issued) && Apart(state, c)
    ensures Apart(state, c') && forall a :: a in state && a in Slots(c') ==> a in Slots(c)
  {
    hide CallMoves, Slots;
    forall a, b | a in state && b in Slots(c') && a.key == b.key ensures a == b && b in Slots(c) {
      NewSlot(models, now, c, c', b);
    }
  }

  lemma WarmsKnown(state: Applied, c: ClusterState)
    requires ClusterInv(c) && WarmKnown(state, c)
    ensures Warms(state, Contents(c))
  {
    hide ClusterInv, Slots, Contents;
    forall a | a in Contents(c) && Contents(c)[a].level == Warm ensures a in state {
      LevelTells(c, a);
      ContentsMeaning(c, a);
      SlotsMeaning(c, a);
    }
  }

  lemma ToldListed(live: Applied, state: Applied, now: Applied)
    requires HomesUnique(now) && Filed(now) && Filed(live)
    requires forall a, b :: a in state && b in now && a.key == b.key ==> a == b
    ensures WellListed(Told(live, state, now), DeltaOf(state, now))
  {
    hide ListsApart, HomesUnique;
    ListsDisjoint(state, now);
    ToldKeys(live, state, now);
    DeltaKeys(state, now);
    hide DeltaOf, Told;
  }

  lemma ToldKeys(live: Applied, state: Applied, now: Applied)
    requires HomesUnique(now) && Filed(now) && Filed(live)
    ensures Told(live, state, now).Keys == now.Keys && HomesUnique(Told(live, state, now)) && Filed(Told(live, state, now))
  {
  }

  lemma DeltaKeys(state: Applied, now: Applied)
    ensures var d := DeltaOf(state, now);
      d.cache.Keys + d.restore.Keys + d.create.Keys <= now.Keys && d.delete.Keys == state.Keys - now.Keys
  {
  }

  lemma NameIsFree(live: Applied, state: Applied, w: World, a: Slot)
    requires Accounted(live, NOTHING, w) && Shadows(state, live)
    requires a !in live && forall b :: b in state && b.key == a.key ==> b == a
    ensures a.key !in w
  {
    assert forall b :: b in live ==> b.key != a.key;
  }

  lemma ToldAgreesAt(live: Applied, state: Applied, now: Applied, w: World, a: Slot)
    requires Agree(live, NOTHING, w) && Shadows(state, live) && Warms(state, now) && Filed(now)
    requires a in now && (a in state ==> a in live) && forall b :: b in state && b.key == a.key ==> b == a
    ensures SlotAgrees(Told(live, state, now), DeltaOf(state, now), w, a)
  {
    hide DeltaOf, ListsApart;
    TouchedMeaning(state, now, a);
    if a in live {
      assert SlotAgrees(live, NOTHING, w, a);
    } else {
      NameIsFree(live, state, w, a);
    }
  }

  lemma ToldAccounts(live: Applied, state: Applied, now: Applied, w: World)
    requires Accounted(live, NOTHING, w) && Shadows(state, live)
    ensures Accounted(Told(live, state, now), DeltaOf(state, now), w)
  {
    var d := DeltaOf(state, now);
    forall k | k in w ensures exists a :: (a in Told(live, state, now) || a in d.delete) && a.key == k && w[k].node == a.node {
      var a :| (a in live || a in NOTHING.delete) && a.key == k && w[k].node == a.node;
      assert a in Told(live, state, now) || a in d.delete;
    }
  }

  lemma ToldAgrees(live: Applied, state: Applied, now: Applied, w: World)
    requires Agree(live, NOTHING, w) && Shadows(state, live) && Warms(state, now) && HomesUnique(now) && Filed(now)
    requires forall a, b :: a in state && b in now && a.key == b.key ==> a == b
    requires forall a :: a in state && a in now ==> a in live
    ensures Agree(Told(live, state, now), DeltaOf(state, now), w)
  {
    hide SlotAgrees, DeltaOf, ListsApart, Warms, Accounted, Shadows;
    ToldListed(live, state, now);
    ToldAccounts(live, state, now, w);
    forall a | a in Told(live, state, now) ensures SlotAgrees(Told(live, state, now), DeltaOf(state, now), w, a) {
      ToldAgreesAt(live, state, now, w, a);
    }
    hide WellListed;
  }

  /** Killing the actors of some names. */
  lemma SparedAgrees(live: Applied, w: World, gone: set<Key>)
    requires Agree(live, NOTHING, w)
    ensures Agree(Spared(live, gone), NOTHING, w - gone)
  {
    hide ActorOf, ListsApart;
    var less := Spared(live, gone);
    assert HomesUnique(less) && Filed(less);
    NothingToDo(less);
    forall a | a in less ensures SlotAgrees(less, NOTHING, w - gone, a) {
      assert SlotAgrees(live, NOTHING, w, a);
    }
    forall k | k in w - gone ensures exists a :: (a in less || a in NOTHING.delete) && a.key == k && w[k].node == a.node {
      var a :| (a in live || a in NOTHING.delete) && a.key == k && w[k].node == a.node;
      assert a in less;
    }
    hide SlotAgrees, WellListed;
  }

  lemma ToldIsKnown(live: Applied, state: Applied, now: Applied)
    requires Shadows(state, live)
    ensures Shadows(now, Told(live, state, now)) && Told(live, state, now).Keys == now.Keys
  {
  }

  lemma ContentsApart(c: ClusterState)
    requires ClusterInv(c)
    ensures HomesUnique(Contents(c)) && Filed(Contents(c)) && Apart(Contents(c), c)
  {
    ContentsCover(c);
    ContentsKeys(c);
    hide ClusterInv, Contents, Slots;
  }

  lemma CalledLives(s: Ctl, e: Event, live: Applied, u: set<Slot>)
    requires Tracked(s, u) && Lives(s, live) && Happens(s, e) && e.Called? && !Misses(s, e)
    ensures Lives(Next(s, e), LiveNext(s, e, live))
  {
    hide ClusterInv, CallMoves, Contents, Slots, WarmKnown, Agree, DeltaOf, Told, Missing, Shadows, Warms;
    var now := Contents(e.after);
    ApartAfter(e.models, e.now, s.cluster, e.after, s.state);
    WarmsKnown(s.state, e.after);
    ContentsApart(e.after);
    ContentsKeys(e.after);
    ToldAgrees(live, s.state, now, s.actors);
    ToldIsKnown(live, s.state, now);
  }

  lemma RaisedLives(s: Ctl, e: Event, live: Applied, u: set<Slot>)
    requires Tracked(s, u) && Lives(s, live) && Happens(s, e) && e.RaisedPartWay?
    ensures Lives(Next(s, e), LiveNext(s, e, live))
  {
    hide ClusterInv, CallMoves, Contents, Slots, Agree, Missing, Shadows, HomesUnique;
    ApartAfter(e.models, e.now, s.cluster, e.after, s.state);
  }

  lemma GaveUpLives(s: Ctl, e: Event, live: Applied, u: set<Slot>)
    requires Tracked(s, u) && Lives(s, live) && Happens(s, e) && e.GaveUp?
    ensures Lives(Next(s, e), LiveNext(s, e, live))
  {
    hide ClusterInv, Contents, Slots, Dropped, Handed, Missing, Agree, Shadows, Present, Apart, HomesUnique;
    var c, a := s.cluster, e.slot;
    ContentsKeys(c);
    var d := Contents(c)[a];
    OwnRecord(c, a);
    assert At(d.node, d.key) == a;
    DroppedContents(c, d);
    DroppedSlots(c, d);
    DropAgreesAt(live, s.pending, s.actors, a);
    LessLives(s.state, c, live, a, Dropped(c, d));
  }

  lemma DropAgreesAt(live: Applied, p: Delta, w: World, a: Slot)
    requires Agree(live, p, w) && Due(p, a) && a !in p.delete
    ensures Agree(live - {a}, Without(p, {a}), w - {a.key})
  {
    IsTouched(p, a);
    AgreesAt(live, p, w, a);
    assert forall b :: b in live && b.key == a.key ==> b == a;
    hide Agree;
    DropAgrees(live, p, w, a, a.key);
  }

  lemma LessLives(state: Applied, c: ClusterState, live: Applied, a: Slot, c': ClusterState)
    requires HomesUnique(state) && Apart(state, c) && Shadows(state, live) && Present(state, c, live)
    requires Slots(c') == Slots(c) - {a}
    ensures HomesUnique(state - {a}) && Apart(state - {a}, c')
    ensures Shadows(state - {a}, live - {a}) && Present(state - {a}, c', live - {a})
  {
    hide Slots;
  }

  /** The names `purge` kills are those of the replicas on nodes that left. */
  lemma PurgedNodesLeft(c: ClusterState, alive: set<NodeId>, a: Slot)
    requires ClusterInv(c) && a in Slots(c)
    ensures a.key in Purgeable(c, alive) <==> a.node !in alive
  {
    hide ClusterInv, Slots;
    if a.key in Purgeable(c, alive) {
      var b :| b in Slots(c) && b.node !in alive && b.key == a.key;
      SlotsHaveOneHome(c, a, b);
    }
  }

  lemma SyncLives(s: Ctl, e: Event, live: Applied, u: set<Slot>)
    requires Tracked(s, u) && Lives(s, live) && Happens(s, e) && e.NodesSeen?
    ensures Lives(Next(s, e), LiveNext(s, e, live))
  {
    hide ClusterInv, Contents, Slots, Synced, Missing, Agree, Purgeable;
    var c', gone := Next(s, e).cluster, Purgeable(s.cluster, e.alive.Keys);
    SparedAgrees(live, s.actors, gone);
    forall a | a in Slots(c') ensures a in Slots(s.cluster) && a.key !in gone {
      SyncedSlots(s.cluster, e.alive, e.minAge, a);
      PurgedNodesLeft(s.cluster, e.alive.Keys, a);
    }
  }

  /** A replica of that name is the record's own. */
  lemma OnlyThere(c: ClusterState, d: Deployment, a: Slot)
    requires AtHome(c, d) && a in Slots(c) && a.key == d.key
    ensures a == At(d.node, d.key)
  {
    SlotsMeaning(c, a);
    hide Slots;
    assert Holds(c.nodes[a.node], d.key);
  }

  lemma FailedLives(s: Ctl, e: Event, live: Applied, u: set<Slot>)
    requires Tracked(s, u) && Lives(s, live) && Happens(s, e) && e.FailedLate?
    ensures Lives(Next(s, e), LiveNext(s, e, live))
  {
    hide ClusterInv, Contents, Slots, Dropped, Missing, Agree, AtHome, Handed;
    var d := e.record;
    SparedAgrees(live, s.actors, {d.key});
    DroppedSlots(s.cluster, d);
    forall a | a in Slots(Dropped(s.cluster, d)) ensures a in Slots(s.cluster) && a.key != d.key {
      if a.key == d.key {
        OnlyThere(s.cluster, d, a);
      }
    }
  }

  lemma StepLives(s: Ctl, e: Event, live: Applied, u: set<Slot>)
    requires Tracked(s, u) && Lives(s, live) && Happens(s, e) && !Misses(s, e)
    ensures Lives(Next(s, e), LiveNext(s, e, live))
  {
    match e
    case Called(_, _, _, _) => CalledLives(s, e, live, u);
    case RaisedPartWay(_, _, _) => RaisedLives(s, e, live, u);
    case Ran(a) => RunLivesOn(s, e, live);
    case GaveUp(_) => GaveUpLives(s, e, live, u);
    case NodesSeen(_, _) => SyncLives(s, e, live, u);
    case FailedLate(_) => FailedLives(s, e, live, u);
    hide Tracked, Lives, Happens, Next, LiveNext, Misses;
  }

  lemma RunLivesOn(s: Ctl, e: Event, live: Applied)
    requires Lives(s, live) && Happens(s, e) && e.Ran?
    ensures Lives(Next(s, e), LiveNext(s, e, live)) && Exec(s.actors, OpAt(s.pending, e.slot)).Some?
  {
    hide Contents, Agree, Performed, Exec, Slots;
    IsTouched(s.pending, e.slot);
    RunAgrees(live, s.pending, s.actors, e.slot);
  }

  lemma {:induction false} RunLives(events: seq<Event>)
    requires IsRun(events) && NeverMisses(events)
    ensures Lives(After(events), Live(events))
  {
    if events == [] {
      assert Slots(ClusterState(map[], 0)) == {};
    } else {
      hide Lives, Tracked, Happens, Next, LiveNext, Misses;
      var last := |events| - 1;
      RunLives(events[..last]);
      RunTracks(events[..last]);
      StepLives(After(events[..last]), events[last], Live(events[..last]), Unapplied(events[..last]));
    }
  }

  /** The actors over every run, deploys that raise included, up to a missed `pop`:
      no operation is refused; between calls there is one actor for each replica
      the state knows and the cluster holds, under the record it was last told; and
      where the state is the cluster's, they are the cluster's actors if and only
      if every HOT replica is on the cards it was last told. */
  lemma ActorsAreAsTold(events: seq<Event>)
    requires IsRun(events) && NeverMisses(events)
    ensures var s, live := After(events), Live(events);
      && HomesUnique(live)
      && (forall a :: a in Touched(s.pending) ==> Exec(s.actors, OpAt(s.pending, a)).Some?)
      && (s.pending == NOTHING ==> s.actors == Describe(live))
      && (s.pending == NOTHING && s.state == Contents(s.cluster) && HomesUnique(s.state) ==>
            live.Keys == s.state.Keys && (s.actors == Describe(s.state) <==> GpusStable(live, s.state)))
  {
    RunLives(events);
    RunTracks(events);
    hide IsRun, After, Live, NeverMisses, Contents, Exec, OpAt, Describe, Agree, Slots, ClusterInv, Missing, Shadows, Present, Apart,
         GpusStable, HomesUnique, Touched;
    var s, live := After(events), Live(events);
    forall a | a in Touched(s.pending) ensures Exec(s.actors, OpAt(s.pending, a)).Some? {
      RunAgrees(live, s.pending, s.actors, a);
    }
    AgreedHomes(live, s.pending, s.actors);
    AgreeAtRest(live, s.actors);
    if s.pending == NOTHING && s.state == Contents(s.cluster) {
      AllTold(s.cluster, s.state, live);
      ContentsApart(s.cluster);
      SameCardsIff(live, s.state);
    }
  }

  lemma AgreedHomes(live: Applied, p: Delta, w: World)
    requires Agree(live, p, w)
    ensures HomesUnique(live) && Filed(live)
  {
  }

  lemma AllTold(c: ClusterState, state: Applied, live: Applied)
    requires state == Contents(c) && Shadows(state, live) && Present(state, c, live)
    ensures live.Keys == state.Keys
  {
    hide Contents, Slots;
    ContentsKeys(c);
  }

  // ------------------------------------------------- one call, from what is held then

  /** Only operations that went through lie between. */
  predicate RanOn(events: seq<Event>, longer: seq<Event>) {
    events <= longer && forall i :: |events| <= i < |longer| ==> longer[i].Ran?
  }

  lemma {:induction false} RanKeeps(events: seq<Event>, longer: seq<Event>)
    requires RanOn(events, longer)
    ensures After(longer).cluster == After(events).cluster && After(longer).state == After(events).state
    ensures Live(longer) == Live(events) && (NeverMisses(longer) <==> NeverMisses(events))
    decreases |longer|
  {
    hide Next, LiveNext, Misses;
    if longer != events {
      var last := |longer| - 1;
      assert longer[last].Ran? && RanOn(events, longer[..last]);
      RanKeeps(events, longer[..last]);
      RanOne(After(longer[..last]), longer[last], Live(longer[..last]));
    }
  }

  lemma RanOne(s: Ctl, e: Event, live: Applied)
    requires e.Ran?
    ensures Next(s, e).cluster == s.cluster && Next(s, e).state == s.state && LiveNext(s, e, live) == live && !Misses(s, e)
  {
    hide Performed, Without;
  }

  /** Every actor the state knows of is as the state has it. */
  predicate KnownRight(state: Applied, w: World) {
    forall a :: a in state && a.key in w ==> w[a.key] == ActorOf(state[a])
  }

  lemma ToldStableIff(live: Applied, state: Applied, now: Applied, w: World)
    requires Agree(live, NOTHING, w) && Shadows(state, live) && KnownRight(state, w)
    requires forall a :: a in state && a in now ==> a in live
    ensures GpusStable(Told(live, state, now), now) <==> GpusStable(state, now)
  {
    hide WellListed, Accounted;
    forall a | a in now && a in state && state[a].level == Hot && now[a].level == Hot
      ensures Told(live, state, now)[a].gpus == state[a].gpus
    {
      assert SlotAgrees(live, NOTHING, w, a);
      assert ActorOf(live[a]) == ActorOf(state[a]) && live[a].level == Hot;
    }
  }

  /** One call, in every run up to a missed `pop`, raised deploys included: where the
      actors are as the last-applied state has them, the whole apply leaves the
      cluster's own actors if and only if no replica HOT both in that state and in
      the cluster sits on other cards. Both are at hand before the build. */
  lemma CallLeavesItsActorsIff(events: seq<Event>, e: Event, longer: seq<Event>)
    requires IsRun(events) && NeverMisses(events) && KnownRight(After(events).state, After(events).actors)
    requires e.Called? && Happens(After(events), e) && !Misses(After(events), e)
    requires RanOn(events + [e], longer) && IsRun(longer) && After(longer).pending == NOTHING
    ensures After(longer).state == Contents(e.after) && HomesUnique(Contents(e.after))
    ensures After(longer).actors == Describe(Contents(e.after)) <==> GpusStable(After(events).state, Contents(e.after))
  {
    hide IsRun, Happens, Contents, Describe, GpusStable, Agree, Misses, Told, KnownRight, Shadows, Present, Slots, ClusterInv, DeltaOf;
    var s, live, now := After(events), Live(events), Contents(e.after);
    OneCall(events, e);
    RanKeeps(events + [e], longer);
    RunLives(events);
    KeptLive(events, e);
    ContentsApart(e.after);
    ToldStableIff(live, s.state, now, s.actors);
    ActorsAreAsTold(longer);
  }

  lemma OneCall(events: seq<Event>, e: Event)
    requires IsRun(events) && NeverMisses(events) && e.Called? && Happens(After(events), e) && !Misses(After(events), e)
    ensures After(events + [e]).cluster == e.after && After(events + [e]).state == Contents(e.after)
    ensures Live(events + [e]) == Told(Live(events), After(events).state, Contents(e.after))
    ensures NeverMisses(events + [e]) && After(events).pending == NOTHING && ClusterInv(e.after)
  {
    hide Contents, Told, WarmKnown, CallMoves, ClusterInv, Slots, DeltaOf;
    assert (events + [e])[..|events|] == events;
  }

  /** What both the state and the cluster after the call have, an actor has. */
  lemma KeptLive(events: seq<Event>, e: Event)
    requires IsRun(events) && NeverMisses(events) && e.Called? && Happens(After(events), e)
    ensures forall a :: a in After(events).state && a in Contents(e.after) ==> a in Live(events)
  {
    hide IsRun, NeverMisses, After, Live, Contents, Slots, CallMoves, ClusterInv, Agree, Missing, Shadows, HomesUnique;
    RunLives(events);
    RunTracks(events);
    var s := After(events);
    ApartAfter(e.models, e.now, s.cluster, e.after, s.state);
    ContentsKeys(e.after);
  }

  lemma SameCardsIff(live: Applied, now: Applied)
    requires HomesUnique(live) && HomesUnique(now) && Filed(live) && Filed(now) && live.Keys == now.Keys && Shadows(now, live)
    ensures Describe(live) == Describe(now) <==> GpusStable(live, now)
  {
    hide Describe;
    SameActorsIff(live, now);
    forall a | a in now
      ensures ActorOf(live[a]) == ActorOf(now[a]) <==> (now[a].level == Hot ==> live[a].gpus == now[a].gpus)
    {
      assert live[a].level == now[a].level;
    }
  }

  // ------------------------------------------------------ runs without a raised deploy

  /** No deploy of the run raised part way. */
  predicate Calm(events: seq<Event>) {
    forall e :: e in events ==> !e.RaisedPartWay?
  }

  /** Every actor runs under the cluster's own record. */
  predicate Matches(live: Applied, now: Applied) {
    live.Keys == now.Keys
    && forall a :: a in now ==> live[a].level == now[a].level && (now[a].level == Hot ==> live[a] == now[a])
  }

  ghost predicate Steady(s: Ctl, live: Applied) {
    ControllerInv(s.cluster, s.state) && Matches(live, Contents(s.cluster))
  }

  lemma ToldMatches(was: Applied, live: Applied, state: Applied, now: Applied)
    requires Matches(live, was) && forall a :: a in was ==> a in state && state[a] == was[a]
    requires forall a :: a in state && a in now && state[a].level == Hot && now[a].level == Hot ==> state[a] == now[a]
    ensures Matches(Told(live, state, now), now)
  {
    assert Told(live, state, now).Keys == now.Keys;
    forall a | a in now
      ensures Told(live, state, now)[a].level == now[a].level
      ensures now[a].level == Hot ==> Told(live, state, now)[a] == now[a]
    {
      if a in live && a in state && state[a].level == now[a].level {
        assert a in was && live[a].level == was[a].level;
      }
    }
  }

  lemma CalledStaysSteady(s: Ctl, e: Event, live: Applied)
    requires Steady(s, live) && Happens(s, e) && e.Called?
    ensures Steady(Next(s, e), LiveNext(s, e, live)) && !Misses(s, e)
  {
    CallThenBuild(s.cluster, s.state, e.models, e.now, e.after);
    ContentsCover(e.after);
    CoveredContents(s.cluster, s.state);
    hide ControllerInv, ClusterInv, CallMoves, Contents, WarmKnown, DeltaOf, Slots, Told, Matches;
    ToldMatches(Contents(s.cluster), live, s.state, Contents(e.after));
  }

  lemma CoveredContents(c: ClusterState, state: Applied)
    requires Covers(state, c)
    ensures forall a :: a in Contents(c) ==> a in state && state[a] == Contents(c)[a]
  {
    hide Contents, Slots;
    ContentsKeys(c);
    forall a | a in Contents(c) ensures Contents(c)[a] == RecordAt(c, a) && (IsHot(c, a) || IsWarm(c, a)) {
      ContentsMeaning(c, a);
    }
  }

  lemma GaveUpStaysSteady(s: Ctl, e: Event, live: Applied, u: set<Slot>)
    requires Steady(s, live) && Tracked(s, u) && Happens(s, e) && e.GaveUp?
    ensures Steady(Next(s, e), LiveNext(s, e, live))
  {
    hide ControllerInv, ClusterInv, Contents, Dropped, Handed, Slots, Missing;
    var c, a := s.cluster, e.slot;
    ContentsKeys(c);
    var d := Contents(c)[a];
    OwnRecord(c, a);
    assert At(d.node, d.key) == a;
    RemovalKeepsIffHanded(c, s.state, d);
    DroppedContents(c, d);
  }

  lemma SyncedContents(c: ClusterState, alive: map<NodeId, Capacity>, minAge: Option<int>, a: Slot)
    ensures var c' := Synced(c, alive, minAge);
      && (a in Contents(c') <==> a in Contents(c) && a.node in alive)
      && (a in Contents(c') ==> Contents(c')[a] == Contents(c)[a])
  {
    var c' := Synced(c, alive, minAge);
    ContentsMeaning(c, a);
    ContentsMeaning(c', a);
    SyncedSlots(c, alive, minAge, a);
    hide Slots, Contents;
  }

  lemma SparedMatches(live: Applied, now: Applied, now': Applied, gone: set<Key>)
    requires Matches(live, now)
    requires forall a :: (a in now' <==> a in now && a.key !in gone) && (a in now' ==> now'[a] == now[a])
    ensures Matches(Spared(live, gone), now')
  {
  }

  lemma SyncStaysSteady(s: Ctl, e: Event, live: Applied)
    requires Steady(s, live) && Happens(s, e) && e.NodesSeen?
    ensures Steady(Next(s, e), LiveNext(s, e, live))
  {
    SyncKeeps(s.cluster, s.state, e.alive, e.minAge);
    assert ClusterInv(s.cluster);
    hide ControllerInv, ClusterInv, Contents, Synced, Slots, Purgeable, Matches, Spared;
    var c, c' := s.cluster, Next(s, e).cluster;
    ContentsKeys(c);
    forall a: Slot
      ensures a in Contents(c') <==> a in Contents(c) && a.key !in Purgeable(c, e.alive.Keys)
      ensures a in Contents(c') ==> Contents(c')[a] == Contents(c)[a]
    {
      SyncedContents(c, e.alive, e.minAge, a);
      if a in Contents(c) {
        PurgedNodesLeft(c, e.alive.Keys, a);
      }
    }
    SparedMatches(live, Contents(c), Contents(c'), Purgeable(c, e.alive.Keys));
  }

  lemma FailedStaysSteady(s: Ctl, e: Event, live: Applied, u: set<Slot>)
    requires Steady(s, live) && Tracked(s, u) && Happens(s, e) && e.FailedLate?
    ensures Steady(Next(s, e), LiveNext(s, e, live))
  {
    hide ControllerInv, ClusterInv, Contents, Dropped, Handed, AtHome, Slots, Matches, Spared, Missing;
    var c, d := s.cluster, e.record;
    RemovalKeepsIffHanded(c, s.state, d);
    DroppedContents(c, d);
    ContentsKeys(c);
    forall a | a in Contents(c) ensures a.key == d.key <==> a == At(d.node, d.key) {
      if a.key == d.key {
        OnlyThere(c, d, a);
      }
    }
    SparedMatches(live, Contents(c), Contents(Dropped(c, d)), {d.key});
  }

  lemma StaysSteady(s: Ctl, e: Event, live: Applied, u: set<Slot>)
    requires Steady(s, live) && Tracked(s, u) && Happens(s, e) && !e.RaisedPartWay?
    ensures Steady(Next(s, e), LiveNext(s, e, live)) && !Misses(s, e)
  {
    match e
    case Called(_, _, _, _) => CalledStaysSteady(s, e, live);
    case Ran(_) =>
    case GaveUp(_) => GaveUpStaysSteady(s, e, live, u);
    case NodesSeen(_, _) => SyncStaysSteady(s, e, live);
    case FailedLate(_) => FailedStaysSteady(s, e, live, u);
    hide ControllerInv, Contents, Matches, Tracked;
  }

  lemma {:induction false} CalmIsSteady(events: seq<Event>)
    requires IsRun(events) && Calm(events)
    ensures Steady(After(events), Live(events)) && NeverMisses(events)
  {
    if events == [] {
      assert Slots(ClusterState(map[], 0)) == {};
    } else {
      hide Steady, Happens, Next, LiveNext, Misses, Tracked;
      var last := |events| - 1;
      assert events[last] in events;
      CalmIsSteady(events[..last]);
      RunTracks(events[..last]);
      StaysSteady(After(events[..last]), events[last], Live(events[..last]), Unapplied(events[..last]));
    }
  }

  lemma {:induction false} NoneMissed(events: seq<Event>, i: nat)
    requires NeverMisses(events) && i < |events|
    ensures !Misses(After(events[..i]), events[i])
    decreases |events|
  {
    hide Misses, After;
    var last := |events| - 1;
    if i < last {
      NoneMissed(events[..last], i);
      assert events[..last][..i] == events[..i];
    }
  }

  /** In every run of deploys, evictions, node arrivals and departures, operations
      that fail and late failures, in which no deploy raised part way, no `pop` ever
      misses, every ledger is exact and the state covers the cluster. */
  lemma NoPopEverMisses(events: seq<Event>)
    requires IsRun(events) && Calm(events)
    ensures ControllerInv(After(events).cluster, After(events).state)
    ensures forall i :: 0 <= i < |events| ==> !Misses(After(events[..i]), events[i])
  {
    CalmIsSteady(events);
    hide IsRun, After, Misses, ControllerInv, Contents, NeverMisses;
    forall i | 0 <= i < |events| ensures !Misses(After(events[..i]), events[i]) {
      NoneMissed(events, i);
    }
  }

  lemma CalmIsApplied(events: seq<Event>)
    requires IsRun(events) && Calm(events)
    ensures Unapplied(events) == {}
  {
    hide ClusterInv, IsRun, After, Unapplied, Slots, Listed;
    NoPopEverMisses(events);
    RunTracks(events);
  }

  /** What runs on every card fits it. */
  ghost predicate WithinCards(c: ClusterState, w: World) {
    forall id, g :: id in c.nodes && 0 <= g < |c.nodes[id].free| ==> Load(w, id, g) <= c.nodes[id].memory
  }

  lemma AgreedIsCharged(c: ClusterState, live: Applied, p: Delta, w: World, node: NodeId)
    requires ClusterInv(c) && node in c.nodes && Agree(live, p, w) && Matches(live, Contents(c))
    requires p.delete == map[] && p.cache == map[]
    ensures Charged(w, node, c.nodes[node].hot)
  {
    hide ClusterInv, Contents, Slots;
    forall k | k in w && w[k].Serving? && w[k].node == node
      ensures k in c.nodes[node].hot && c.nodes[node].hot[k].gpus == w[k].gpus
    {
      var a :| (a in live || a in p.delete) && a.key == k && w[k].node == a.node;
      assert SlotAgrees(live, p, w, a);
      LevelTells(c, a);
    }
  }

  lemma AgreedFits(c: ClusterState, live: Applied, p: Delta, w: World)
    requires ClusterInv(c) && Agree(live, p, w) && Matches(live, Contents(c)) && p.delete == map[] && p.cache == map[]
    ensures WithinCards(c, w)
  {
    hide Agree, Contents, Slots, Matches;
    forall id, g: nat | id in c.nodes && g < |c.nodes[id].free| ensures Load(w, id, g) <= c.nodes[id].memory {
      var n := c.nodes[id];
      AgreedIsCharged(c, live, p, w, id);
      assert NodeInv(n);
      Weighs(n, g);
      LoadWithin(w, id, n.hot, g);
      assert n.free[g] >= 0 && n.free[g] + Total(n.hot, Gpu(g)) == n.memory;
    }
  }

  lemma MatchingActors(live: Applied, now: Applied)
    requires Matches(live, now) && HomesUnique(live) && HomesUnique(now) && Filed(live) && Filed(now)
    ensures Describe(live) == Describe(now)
  {
    hide Describe;
    SameActorsIff(live, now);
  }

  /** In every such run, operations that fail, the kills that follow them and the
      purge of nodes that leave included: once the deletes and caches of an apply are
      through, no card is ever overfilled; and when it is over the live actors are
      exactly those of the cluster's replicas. */
  lemma ActorsFollowTheCluster(events: seq<Event>)
    requires IsRun(events) && Calm(events)
    ensures var s := After(events);
      && (s.pending.delete == map[] && s.pending.cache == map[] ==> WithinCards(s.cluster, s.actors))
      && HomesUnique(Contents(s.cluster))
      && (s.pending == NOTHING ==> s.actors == Describe(Contents(s.cluster)))
  {
    CalmIsSteady(events);
    RunLives(events);
    var s, live := After(events), Live(events);
    hide Contents, WithinCards, Describe, After, IsRun, SlotAgrees, Accounted, Live, Matches, NeverMisses, Slots;
    if s.pending.delete == map[] && s.pending.cache == map[] {
      AgreedFits(s.cluster, live, s.pending, s.actors);
    }
    ContentsApart(s.cluster);
    AgreeAtRest(live, s.actors);
    MatchingActors(live, Contents(s.cluster));
  }

  /** A missed `pop` does not mend itself: as long as the replica it missed is
      WARM, every further call misses too. */
  lemma MissComesAgain(events: seq<Event>, e: Event, e': Event, a: Slot)
    requires IsRun(events + [e] + [e']) && e.Called? && e'.Called?
    requires a in Unapplied(events) && IsWarm(e.after, a) && IsWarm(e'.after, a)
    ensures Misses(After(events), e) && Misses(After(events + [e]), e')
  {
    hide Misses, IsWarm, Slots, IsRun, After;
    var all := events + [e] + [e'];
    assert all[..|events|] == events && all[..|events| + 1] == events + [e];
    PopMissesIff(all, |events|);
    StillMissing(events, e, a);
    PopMissesIff(all, |events| + 1);
  }

  lemma StillMissing(events: seq<Event>, e: Event, a: Slot)
    requires e.Called? && a in Unapplied(events) && IsWarm(e.after, a)
    ensures a in Unapplied(events + [e])
  {
    SlotsMeaning(e.after, a);
    hide Slots, IsWarm, After;
    assert (events + [e])[..|events|] == events;
  }

  /** The node a replica was first placed on is the only one that ever holds it,
      so a record names its replica's node however old it is. */
  lemma {:induction false} HomeForLife(events: seq<Event>, i: nat, k: Key, home: NodeId)
    requires IsRun(events) && i <= |events|
    requires k.replica < After(events[..i]).cluster.issued
    requires forall id :: id in After(events[..i]).cluster.nodes && Holds(After(events[..i]).cluster.nodes[id], k) ==> id == home
    ensures k.replica < After(events).cluster.issued
    ensures forall id :: id in After(events).cluster.nodes && Holds(After(events).cluster.nodes[id], k) ==> id == home
    decreases |events|
  {
    if i == |events| {
      assert events[..i] == events;
    } else {
      hide Happens, Next, Holds;
      var last := |events| - 1;
      assert events[..last][..i] == events[..i];
      HomeForLife(events[..last], i, k, home);
      RunTracks(events[..last]);
      HomeStays(After(events[..last]), events[last], Unapplied(events[..last]), k, home);
    }
  }

  lemma HomeStays(s: Ctl, e: Event, u: set<Slot>, k: Key, home: NodeId)
    requires Tracked(s, u) && Happens(s, e) && k.replica < s.cluster.issued
    requires forall id :: id in s.cluster.nodes && Holds(s.cluster.nodes[id], k) ==> id == home
    ensures k.replica < Next(s, e).cluster.issued
    ensures forall id :: id in Next(s, e).cluster.nodes && Holds(Next(s, e).cluster.nodes[id], k) ==> id == home
  {
    hide Slots, Contents, Missing, DeltaOf, WarmKnown, ClusterInv, Tracked, Performed, Purgeable;
    var c, c' := s.cluster, Next(s, e).cluster;
    forall id | id in c'.nodes && Holds(c'.nodes[id], k) ensures id in c.nodes && Holds(c.nodes[id], k) {
      if e.Called? || e.RaisedPartWay? {
        assert Moves(e.models, c.issued, e.now, c.nodes[id], c'.nodes[id]);
      }
    }
  }

  // ------------------------------------------------------- an apply runs to its end

  lemma SomeDue(p: Delta) returns (a: Slot)
    requires p != NOTHING
    ensures Due(p, a)
  {
    if p.delete != map[] {
      a := KeyIn(p.delete);
    } else if p.cache != map[] {
      a := KeyIn(p.cache);
    } else if p.restore != map[] {
      a := KeyIn(p.restore);
    } else {
      a := KeyIn(p.create);
    }
  }

  lemma KeyIn(m: Applied) returns (a: Slot)
    requires m != map[]
    ensures a in m
  {
    assert (forall b :: b !in m) ==> m == map[];
    a :| a in m;
  }

  lemma LessOfAll(a: set<Slot>, b: set<Slot>, c: set<Slot>, d: set<Slot>, x: Slot)
    requires x in a + b + c + d
    ensures |(a - {x}) + (b - {x}) + (c - {x}) + (d - {x})| < |a + b + c + d|
  {
    assert (a - {x}) + (b - {x}) + (c - {x}) + (d - {x}) == (a + b + c + d) - {x};
  }

  lemma OneLess(p: Delta, a: Slot)
    requires a in Touched(p)
    ensures |Touched(Without(p, {a}))| < |Touched(p)|
  {
    hide Without;
    WithoutKeys(p, {a});
    LessOfAll(p.cache.Keys, p.restore.Keys, p.create.Keys, p.delete.Keys, a);
  }

  /** Whatever is outstanding can be run, the cluster and the state staying put. */
  lemma {:induction false} ApplyFinishes(events: seq<Event>) returns (longer: seq<Event>)
    requires IsRun(events)
    ensures IsRun(longer) && events <= longer && (Calm(events) ==> Calm(longer)) && After(longer).pending == NOTHING
    ensures After(longer).cluster == After(events).cluster && After(longer).state == After(events).state
    decreases |Touched(After(events).pending)|
  {
    hide IsRun, After, Touched, Performed;
    if After(events).pending == NOTHING {
      longer := events;
    } else {
      var a := SomeDue(After(events).pending);
      RunExtends(events, Ran(a));
      IsTouched(After(events).pending, a);
      OneLess(After(events).pending, a);
      longer := ApplyFinishes(events + [Ran(a)]);
    }
  }

  /** A call and the whole of its apply, nothing failing. */
  lemma CallAndApply(events: seq<Event>, models: set<ModelKey>, now: int, after: ClusterState) returns (longer: seq<Event>)
    requires IsRun(events) && Calm(events) && After(events).pending == NOTHING
    requires CallMoves(models, now, After(events).cluster, after) && ClusterInv(after)
    ensures IsRun(longer) && Calm(longer) && events <= longer && After(longer).pending == NOTHING
    ensures After(longer).cluster == after && After(longer).state == Contents(after)
  {
    hide IsRun, After, CallMoves, ClusterInv, Contents, DeltaOf, Steady, WarmKnown;
    var e := Called(models, now, after, {});
    CalmIsSteady(events);
    CalledStaysSteady(After(events), e, Live(events));
    RunExtends(events, e);
    longer := ApplyFinishes(events + [e]);
  }

  /** A deploy that raises part way leaves the two sides in step if and only if
      it had placed nothing: what it placed is on the cards but never applied. */
  lemma TripKeepsIffNothingPlaced(c: ClusterState, state: Applied, models: set<ModelKey>, pinned: bool, now: int,
                                  c': ClusterState, evicted: set<Key>, placed: set<Key>)
    requires ControllerInv(c, state) && Progress(models, pinned, now, c, c', evicted, placed)
    requires placed == {} ==> c' == c
    ensures ControllerInv(c', state) <==> placed == {}
  {
    if placed != {} {
      var k :| k in placed;
      var id :| id in c'.nodes && k in c'.nodes[id].hot && k !in c.nodes[id].hot;
      assert Moves(models, c.issued, now, c.nodes[id], c'.nodes[id]);
      var a := At(id, k);
      SlotsMeaning(c, a);
      SlotsMeaning(c', a);
      assert NodeInv(c.nodes[id]) && NodeInv(c'.nodes[id]);
      assert IsHot(c', a) && RecordAt(c', a).level == Hot;
      assert a in state ==> state[a].level == Warm by {
        if a in Slots(c) {
          assert IsWarm(c, a);
        } else {
          assert a.key.replica >= c.issued;
        }
      }
    }
    hide Slots, NodeInv, Moves;
  }
}
