/** What a node holds and what it has charged for it: the records of
    `cluster/deployment.py`, the resources of `cluster/node.py`, and the
    invariant that ties one to the other. */
module Ledger {
  import opened Ordering

  type ModelKey = int
  type ReplicaId = nat
  type NodeId = int

  datatype Key = Key(model: ModelKey, replica: ReplicaId)

  datatype Level = Hot | Warm

  /** The class serving a replica, with the answer its `CACHEABLE` gives. */
  datatype ActorClass = ActorClass(name: int, cacheable: bool)

  datatype Deployment = Deployment(
    key: Key, node: NodeId, level: Level, gpus: map<nat, int>, size: int,
    pinned: bool, actor: ActorClass, deployed: int)

  type Replicas = map<Key, Deployment>

  /** The two things a replica is charged for: bytes on one card, or bytes of
      the CPU budget. */
  datatype Meter = Gpu(index: nat) | Cpu

  function Weight(d: Deployment, m: Meter): int {
    match m
    case Gpu(i) => if i in d.gpus then d.gpus[i] else 0
    case Cpu => d.size
  }

  ghost function Total(rs: Replicas, m: Meter): int
    decreases |rs|
  {
    if rs == map[] then 0
    else
      var k :| k in rs;
      assert (rs - {k}).Keys == rs.Keys - {k};
      Weight(rs[k], m) + Total(rs - {k}, m)
  }

  function Only(rs: Replicas, ks: set<Key>): Replicas {
    map k | k in rs && k in ks :: rs[k]
  }

  lemma {:induction false} TotalRemove(rs: Replicas, k: Key, m: Meter)
    requires k in rs
    ensures Total(rs, m) == Weight(rs[k], m) + Total(rs - {k}, m)
    decreases |rs|
  {
    var j :| j in rs && Total(rs, m) == Weight(rs[j], m) + Total(rs - {j}, m);
    if j != k {
      assert (rs - {j}).Keys == rs.Keys - {j} && (rs - {k}).Keys == rs.Keys - {k};
      TotalRemove(rs - {j}, k, m);
      TotalRemove(rs - {k}, j, m);
      assert rs - {j} - {k} == rs - {k} - {j};
    }
  }

  lemma TotalPut(rs: Replicas, k: Key, d: Deployment, m: Meter)
    requires k !in rs
    ensures Total(rs[k := d], m) == Total(rs, m) + Weight(d, m)
  {
    TotalRemove(rs[k := d], k, m);
    assert rs[k := d] - {k} == rs;
  }

  lemma TotalOnlyGrows(rs: Replicas, ks: set<Key>, k: Key, m: Meter)
    requires k in rs && k !in ks
    ensures Total(Only(rs, ks + {k}), m) == Total(Only(rs, ks), m) + Weight(rs[k], m)
  {
    TotalPut(Only(rs, ks), k, rs[k], m);
    assert Only(rs, ks)[k := rs[k]] == Only(rs, ks + {k});
  }

  lemma TotalNothing(rs: Replicas, ks: set<Key>, m: Meter)
    requires rs == map[]
    ensures Total(rs, m) == 0 && Only(rs, ks) == rs && rs - ks == rs
  {
  }

  lemma Fewer(rs: Replicas, k: Key)
    requires k in rs
    ensures |rs - {k}| < |rs|
  {
    assert (rs - {k}).Keys == rs.Keys - {k};
  }

  lemma WithoutChosen(rs: Replicas, ks: set<Key>, k: Key)
    requires k in rs && k in ks
    ensures Only(rs, ks) - {k} == Only(rs - {k}, ks) && rs - ks == (rs - {k}) - ks
  {
  }

  lemma WithoutOther(rs: Replicas, ks: set<Key>, k: Key)
    requires k in rs && k !in ks
    ensures (rs - ks) - {k} == (rs - {k}) - ks && Only(rs, ks) == Only(rs - {k}, ks)
  {
  }

  /** Splitting the replicas splits what they weigh. */
  lemma {:induction false} TotalSplit(rs: Replicas, ks: set<Key>, m: Meter)
    ensures Total(rs, m) == Total(Only(rs, ks), m) + Total(rs - ks, m)
    decreases |rs|
  {
    hide Total, Weight;
    if rs == map[] {
      TotalNothing(rs, ks, m);
    } else {
      var k :| k in rs;
      Fewer(rs, k);
      TotalRemove(rs, k, m);
      TotalSplit(rs - {k}, ks, m);
      if k in ks {
        WithoutChosen(rs, ks, k);
        TotalRemove(Only(rs, ks), k, m);
      } else {
        WithoutOther(rs, ks, k);
        TotalRemove(rs - ks, k, m);
      }
    }
  }

  /** No replica weighs less than nothing. */
  predicate NoCredit(rs: Replicas, m: Meter) {
    forall k :: k in rs ==> Weight(rs[k], m) >= 0
  }

  lemma {:induction false} TotalNotNegative(rs: Replicas, m: Meter)
    requires NoCredit(rs, m)
    ensures Total(rs, m) >= 0
    decreases |rs|
  {
    if rs != map[] {
      var k :| k in rs;
      assert (rs - {k}).Keys == rs.Keys - {k};
      TotalRemove(rs, k, m);
      TotalNotNegative(rs - {k}, m);
    }
  }

  lemma TotalOnlyMonotone(rs: Replicas, ks: set<Key>, js: set<Key>, m: Meter)
    requires ks <= js && NoCredit(rs, m)
    ensures Total(Only(rs, ks), m) <= Total(Only(rs, js), m)
  {
    TotalSplit(Only(rs, js), ks, m);
    assert Only(Only(rs, js), ks) == Only(rs, ks);
    TotalNotNegative(Only(rs, js) - ks, m);
  }

  lemma {:induction false} TotalZero(rs: Replicas, m: Meter)
    requires forall k :: k in rs ==> Weight(rs[k], m) == 0
    ensures Total(rs, m) == 0
    decreases |rs|
  {
    if rs != map[] {
      var k :| k in rs;
      assert (rs - {k}).Keys == rs.Keys - {k};
      TotalRemove(rs, k, m);
      TotalZero(rs - {k}, m);
    }
  }

  /** Replicas that hold nothing of card `g` do not matter to it. */
  lemma TotalOnlyHolders(rs: Replicas, ks: set<Key>, holders: set<Key>, m: Meter)
    requires holders <= ks
    requires forall k :: k in rs && k in ks && k !in holders ==> Weight(rs[k], m) == 0
    ensures Total(Only(rs, ks), m) == Total(Only(rs, holders), m)
  {
    TotalSplit(Only(rs, ks), holders, m);
    assert Only(Only(rs, ks), holders) == Only(rs, holders);
    TotalZero(Only(rs, ks) - holders, m);
  }

  // ---------------------------------------------------------------- resources

  /** A node as a value: every field of `Node`, `GPUResources` and
      `CPUResources` a decision reads. Card `g` has `free[g]` bytes left. */
  datatype NodeState = NodeState(
    id: NodeId, memory: nat, minAge: Option<int>, free: seq<int>,
    budget: int, cpuFree: int, hot: Replicas, warm: Replicas)

  predicate OnCards(gpus: map<nat, int>, cards: nat) {
    forall g :: g in gpus ==> g < cards
  }

  function Allocated(free: seq<int>, gpus: map<nat, int>): (r: seq<int>)
    ensures |r| == |free|
  {
    seq(|free|, g requires 0 <= g < |free| => free[g] - (if g in gpus then gpus[g] else 0))
  }

  function Released(free: seq<int>, gpus: map<nat, int>): (r: seq<int>)
    ensures |r| == |free|
  {
    seq(|free|, g requires 0 <= g < |free| => free[g] + (if g in gpus then gpus[g] else 0))
  }

  /** A booking takes room on its cards, and would in the cache; one with a negative
      share, or of a negative size, would give it. */
  predicate TakesRoom(gpus: map<nat, int>, size: int) {
    size >= 0 && forall g :: g in gpus ==> gpus[g] >= 0
  }

  /** Records sit under their own key, on this node, at the level of the
      dictionary they are in, and take what room they are charged for; a parked
      replica holds no card. */
  predicate Registered(n: NodeState) {
    && (forall k :: k in n.hot ==>
          var d := n.hot[k];
          d.key == k && d.node == n.id && d.level == Hot && OnCards(d.gpus, |n.free|) && TakesRoom(d.gpus, d.size))
    && (forall k :: k in n.warm ==>
          var d := n.warm[k];
          d.key == k && d.node == n.id && d.level == Warm && d.gpus == map[] && !d.pinned && d.size >= 0)
    && n.hot.Keys !! n.warm.Keys
  }

  ghost predicate GpuBalanced(n: NodeState) {
    forall g :: 0 <= g < |n.free| ==>
      n.free[g] >= 0 && n.free[g] + Total(n.hot, Gpu(g)) == n.memory
  }

  ghost predicate CpuBalanced(n: NodeState) {
    n.cpuFree >= 0 && n.cpuFree + Total(n.warm, Cpu) == n.budget
  }

  /** The ledger is exact: what is free plus what is charged is what there is,
      nothing is overdrawn, and no replica is both HOT and WARM. */
  ghost predicate NodeInv(n: NodeState) {
    n.memory > 0 && |n.free| > 0 && Registered(n) && GpuBalanced(n) && CpuBalanced(n)
  }

  /** A node as `update_nodes` registers it. */
  function EmptyNode(id: NodeId, memory: nat, cards: nat, budget: nat, minAge: Option<int>): NodeState {
    NodeState(id, memory, minAge, seq(cards, _ => memory), budget, budget, map[], map[])
  }

  lemma EmptyNodeBalances(id: NodeId, memory: nat, cards: nat, budget: nat, minAge: Option<int>)
    requires memory > 0 && cards > 0
    ensures NodeInv(EmptyNode(id, memory, cards, budget, minAge))
  {
    assert Total(map[], Cpu) == 0;
    forall g: nat ensures Total(map[], Gpu(g)) == 0 { }
  }

  // ---------------------------------------------------------------- eviction

  /** The WARM record a HOT replica leaves behind when it is parked. */
  function Parked(d: Deployment, now: int): Deployment {
    d.(level := Warm, gpus := map[], pinned := false, deployed := now)
  }

  function Outside(rs: Replicas, exclude: set<ModelKey>): Replicas {
    map k | k in rs && k.model !in exclude :: rs[k]
  }

  /** `dropped` frees CPU room for `size` bytes: cheapest WARM replicas first,
      none of an excluded model, and not one more than it takes. */
  ghost predicate DropPlan(n: NodeState, size: int, exclude: set<ModelKey>, dropped: set<Key>) {
    && dropped <= Outside(n.warm, exclude).Keys
    && size <= n.cpuFree + Total(Only(n.warm, dropped), Cpu)
    && (dropped != {} ==>
          exists last :: last in dropped && size > n.cpuFree + Total(Only(n.warm, dropped - {last}), Cpu))
    && (forall a, b :: a in dropped && b in Outside(n.warm, exclude) && b !in dropped ==>
          n.warm[a].size <= n.warm[b].size)
  }

  ghost predicate RoomCanBeMade(n: NodeState, size: int, exclude: set<ModelKey>) {
    size <= n.cpuFree + Total(Outside(n.warm, exclude), Cpu)
  }

  /** What `Node.evict` does to a HOT replica. */
  ghost predicate EvictsHot(n: NodeState, k: Key, exclude: set<ModelKey>, now: int, n': NodeState)
    requires k in n.hot
  {
    var d := n.hot[k];
    && n' == n.(free := Released(n.free, d.gpus), hot := n.hot - {k},
                warm := n'.warm, cpuFree := n'.cpuFree)
    && if d.actor.cacheable && RoomCanBeMade(n, d.size, exclude) then
         exists dropped ::
           && DropPlan(n, d.size, exclude, dropped)
           && n'.warm == (n.warm - dropped)[k := Parked(d, now)]
           && n'.cpuFree == n.cpuFree + Total(Only(n.warm, dropped), Cpu) - d.size
       else
         n'.warm == n.warm && n'.cpuFree == n.cpuFree
  }

  /** What it does to a WARM one. */
  predicate EvictsWarm(n: NodeState, k: Key, n': NodeState)
    requires k in n.warm
  {
    n' == n.(warm := n.warm - {k}, cpuFree := n.cpuFree + n.warm[k].size)
  }

  ghost predicate Evicts(n: NodeState, k: Key, exclude: set<ModelKey>, now: int, n': NodeState)
    requires k in n.hot || k in n.warm
  {
    if k in n.warm then EvictsWarm(n, k, n') else EvictsHot(n, k, exclude, now, n')
  }

  lemma EvictWarmBalances(n: NodeState, k: Key, n': NodeState)
    requires NodeInv(n) && k in n.warm && EvictsWarm(n, k, n')
    ensures NodeInv(n')
  {
    TotalRemove(n.warm, k, Cpu);
  }

  lemma ReleasingBalances(n: NodeState, k: Key, n': NodeState)
    requires NodeInv(n) && k in n.hot
    requires n' == n.(free := Released(n.free, n.hot[k].gpus), hot := n.hot - {k})
    ensures NodeInv(n')
  {
    forall g | 0 <= g < |n'.free|
      ensures n'.free[g] >= 0 && n'.free[g] + Total(n'.hot, Gpu(g)) == n'.memory
    {
      assert n.free[g] >= 0 && n.free[g] + Total(n.hot, Gpu(g)) == n.memory;
      TotalRemove(n.hot, k, Gpu(g));
    }
  }

  lemma ParkingBalances(n: NodeState, d: Deployment, dropped: set<Key>, now: int, n': NodeState)
    requires NodeInv(n) && d.key !in n.hot && d.key !in n.warm && d.node == n.id && d.size >= 0
    requires dropped <= n.warm.Keys && d.size <= n.cpuFree + Total(Only(n.warm, dropped), Cpu)
    requires n' == n.(warm := (n.warm - dropped)[d.key := Parked(d, now)],
                      cpuFree := n.cpuFree + Total(Only(n.warm, dropped), Cpu) - d.size)
    ensures NodeInv(n')
  {
    TotalSplit(n.warm, dropped, Cpu);
    TotalPut(n.warm - dropped, d.key, Parked(d, now), Cpu);
    assert GpuBalanced(n');
  }

  /** Every eviction keeps the ledger exact, parked or dropped outright. */
  lemma EvictBalances(n: NodeState, k: Key, exclude: set<ModelKey>, now: int, n': NodeState)
    requires NodeInv(n) && (k in n.hot || k in n.warm) && Evicts(n, k, exclude, now, n')
    ensures NodeInv(n')
  {
    hide NodeInv, Total;
    if k in n.warm {
      EvictWarmBalances(n, k, n');
    } else {
      var d := n.hot[k];
      var mid := n.(free := Released(n.free, d.gpus), hot := n.hot - {k});
      ReleasingBalances(n, k, mid);
      OwnHotRecord(n, k);
      if d.actor.cacheable && RoomCanBeMade(n, d.size, exclude) {
        var dropped :|
          && DropPlan(n, d.size, exclude, dropped)
          && n'.warm == (n.warm - dropped)[k := Parked(d, now)]
          && n'.cpuFree == n.cpuFree + Total(Only(n.warm, dropped), Cpu) - d.size;
        assert dropped <= n.warm.Keys;
        hide DropPlan, RoomCanBeMade;
        ParkingBalances(mid, d, dropped, now, n');
      } else {
        assert n' == mid;
      }
    }
  }

  lemma OwnHotRecord(n: NodeState, k: Key)
    requires NodeInv(n) && k in n.hot
    ensures n.hot[k].key == k && n.hot[k].node == n.id && n.hot[k].size >= 0 && k !in n.warm
  {
    hide GpuBalanced, CpuBalanced;
  }

  // ------------------------------------------------------ what a call may move

  /** How a call placing `models` may change a node: it never takes those
      models off the cards or out of the cache, brings in only them (from the
      cache or under an id not issued before it), and parks only replicas that
      were HOT before the call. */
  predicate Moves(models: set<ModelKey>, issued: nat, now: int, n: NodeState, n': NodeState) {
    && n'.id == n.id && n'.memory == n.memory && n'.minAge == n.minAge
    && n'.budget == n.budget && |n'.free| == |n.free|
    && (forall k :: k in n'.hot && k in n.hot ==> n'.hot[k] == n.hot[k])
    && (forall k :: k in n'.hot && k !in n.hot ==>
          k.model in models && (k in n.warm || k.replica >= issued))
    && (forall k :: k in n.hot && k.model in models ==> k in n'.hot)
    && (forall k :: k in n.warm && k.model in models ==> k in n'.warm || k in n'.hot)
    && (forall k :: k in n'.warm ==>
          || (k in n.warm && n'.warm[k] == n.warm[k])
          || (k in n.hot && k !in n'.hot && n'.warm[k] == Parked(n.hot[k], now)))
  }

  lemma MovesReflexive(models: set<ModelKey>, issued: nat, now: int, n: NodeState)
    ensures Moves(models, issued, now, n, n)
  {
  }

  /** The moves of two placements in one call compose. */
  lemma MovesTransitive(models: set<ModelKey>, issued: nat, issued': nat, now: int,
                        a: NodeState, b: NodeState, c: NodeState)
    requires Registered(c) && issued <= issued'
    requires Moves(models, issued, now, a, b) && Moves(models, issued', now, b, c)
    ensures Moves(models, issued, now, a, c)
  {
  }

  // --------------------------------------------------- dropping a failed record

  /** What `_remove_deployment_from_state` does to the node named by record `d`. */
  function WithoutRecord(n: NodeState, d: Deployment): NodeState {
    var n1 := if d.key in n.hot
              then n.(free := Released(n.free, d.gpus), hot := n.hot - {d.key}) else n;
    if d.key in n1.warm
    then n1.(cpuFree := n1.cpuFree + d.size, warm := n1.warm - {d.key}) else n1
  }

  /** The record handed in charges what the registered one does. */
  predicate Current(n: NodeState, d: Deployment) {
    && (d.key in n.hot ==> forall g :: 0 <= g < |n.free| ==> Weight(d, Gpu(g)) == Weight(n.hot[d.key], Gpu(g)))
    && (d.key in n.warm ==> d.size == n.warm[d.key].size)
  }

  lemma HotRemovalBalancesIff(n: NodeState, d: Deployment)
    requires NodeInv(n) && d.key in n.hot
    ensures GpuBalanced(WithoutRecord(n, d)) <==> Current(n, d)
  {
    var n' := WithoutRecord(n, d);
    forall g | 0 <= g < |n.free|
      ensures Weight(d, Gpu(g)) == Weight(n.hot[d.key], Gpu(g)) ==> n'.free[g] >= 0
      ensures n'.free[g] + Total(n'.hot, Gpu(g)) == n.memory
              <==> Weight(d, Gpu(g)) == Weight(n.hot[d.key], Gpu(g))
    {
      TotalRemove(n.hot, d.key, Gpu(g));
    }
  }

  /** Dropping a failed record keeps the ledger exact if and only if the record
      charges exactly what is registered under its key. */
  lemma RemovalBalancesIffCurrent(n: NodeState, d: Deployment)
    requires NodeInv(n)
    ensures NodeInv(WithoutRecord(n, d)) <==> Current(n, d)
  {
    if d.key in n.hot {
      HotRemovalBalancesIff(n, d);
    } else if d.key in n.warm {
      TotalRemove(n.warm, d.key, Cpu);
      assert GpuBalanced(WithoutRecord(n, d));
    }
  }
}
