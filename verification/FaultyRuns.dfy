/** Runs of the controller that go wrong, step by step as its nodes decide. */
module FaultyRuns {
  import opened Ordering
  import opened Sizing
  import opened Ledger
  import opened NodePlacement
  import opened ClusterPlacement
  import opened Reconciler
  import opened ControllerRuns

  // ------------------------------------------------- a deploy that raises part way

  /** Model 1 fills the only card; a call placing it also asks for model 2, of
      size zero, and raises before apply; placing model 3 then parks model 1. */
  const FIRST := Key(1, 0)
  const THIRD := Key(3, 1)

  function RecordOf(k: Key, actor: ActorClass, now: int): Deployment {
    Deployment(k, 0, Hot, map[0 := 10], 10, false, actor, now)
  }

  function FirstPlaced(actor: ActorClass): NodeState {
    NodeState(0, 10, None, [0], 10, 10, map[FIRST := RecordOf(FIRST, actor, 0)], map[])
  }

  function FirstParked(actor: ActorClass): NodeState {
    NodeState(0, 10, None, [10], 10, 0, map[], map[FIRST := Parked(RecordOf(FIRST, actor, 0), 1)])
  }

  function ThirdPlaced(actor: ActorClass): NodeState {
    FirstParked(actor).(free := [0], hot := map[THIRD := RecordOf(THIRD, actor, 1)])
  }

  function Asking(model: ModelKey, size: nat, models: set<ModelKey>, now: int): Query {
    Query(model, size, false, models, None, None, None, now)
  }

  lemma TotalOne(k: Key, d: Deployment, m: Meter)
    ensures Total(map[k := d], m) == Weight(d, m) && Total(map[], m) == 0
  {
    TotalPut(map[], k, d, m);
    var none: Replicas := map[];
    assert none[k := d] == map[k := d];
  }

  /** A card with just the room there is is taken. */
  lemma TakesOneCard(n: NodeState, q: Query, g: nat, level: CandidateLevel)
    requires n.memory == 10 && q.size == 10 && q.asked.None? && q.share.None? && q.limit.None?
    requires g < |n.free| && n.free[g] == 10
    requires level == if IsCached(n, q.model) then CachedAndFree else Free
    ensures Decides(n, q, Candidate(level, map[g := 10], {}, false))
  {
    hide Total, Clearable, Reclaimable;
    assert CountFor(n, q) == Cards(1) && ShareFor(n, q) == 10;
    assert g in Fitting(n, 10);
    SubsetCount({g}, Fitting(n, 10));
    assert |map[g := 10]| == 1;
    assert Only(n.hot, {}) == map[];
    TotalNothing(Only(n.hot, {}), {}, Gpu(g));
  }

  lemma LeanSo(n: NodeState, allowed: set<Key>, share: int, c: Candidate, plan: map<nat, set<Key>>)
    requires LeanBy(n, allowed, share, c, plan)
    ensures Lean(n, allowed, share, c)
  {
    hide LeanBy;
  }

  /** A full card with one allowed replica on it is opened by that one. */
  lemma OnlyHolderOpens(n: NodeState, allowed: set<Key>, g: nat, k: Key)
    requires g < |n.free| && n.free[g] == 0 && k in n.hot && k in allowed && g in n.hot[k].gpus && FreeWithout(n, {k}, g) == 10
    requires forall j :: j in n.hot && j in allowed && g in n.hot[j].gpus ==> j == k
    ensures OpensLean(n, allowed, 10, g, {k})
  {
    hide Total;
    assert Only(n.hot, {}) == map[];
    TotalNothing(Only(n.hot, {}), {}, Gpu(g));
    assert k in {k} && {k} - {k} == {} && FreeWithout(n, {k} - {k}, g) < 10;
  }

  lemma OneCardIsLean(n: NodeState, k: Key)
    requires n.free == [0] && k in n.hot && 0 in n.hot[k].gpus && FreeWithout(n, {k}, 0) == 10
    ensures Lean(n, {k}, 10, Candidate(Full, map[0 := 10], {k}, false))
  {
    OnlyHolderOpens(n, {k}, 0, k);
    hide FreeWithout, OpensLean;
    var plan, c := map[0 := {k}], Candidate(Full, map[0 := 10], {k}, false);
    assert Clearable(n, {k}, 10) == {0};
    assert c.gpus.Keys == {0} && plan.Keys == {0} && plan[0] == {k};
    assert 0 in c.gpus;
    LeanSo(n, {k}, 10, c, plan);
  }

  /** The only card is cleared of the one replica on it. */
  lemma ClearsOneCard(n: NodeState, q: Query, k: Key)
    requires n.memory == 10 && n.free == [0] && q.size == 10 && q.asked.None? && q.share.None? && q.limit.None?
    requires !IsCached(n, q.model) && Reclaimable(n, q) == {k} && k in n.hot && 0 in n.hot[k].gpus
    requires FreeWithout(n, {k}, 0) == 10
    ensures Decides(n, q, Candidate(Full, map[0 := 10], {k}, false))
  {
    hide Total, FreeWithout, Reclaimable, Lean, OpensLean;
    OneCardIsLean(n, k);
    assert CountFor(n, q) == Cards(1) && ShareFor(n, q) == 10;
    assert Clearable(n, {k}, 10) == {0} && Fitting(n, 10) == {};
    assert |map[0 := 10]| == 1;
    assert LevelFor(n, q) == Full;
  }

  lemma FirstIsAccepted()
    ensures Decides(EmptyNode(0, 10, 1, 10, None), Asking(1, 10, {1, 2}, 0), Candidate(Free, map[0 := 10], {}, false))
  {
    hide Decides;
    TakesOneCard(EmptyNode(0, 10, 1, 10, None), Asking(1, 10, {1, 2}, 0), 0, Free);
  }

  lemma FirstLands(actor: ActorClass)
    ensures var n := EmptyNode(0, 10, 1, 10, None);
      && Lands(n, FIRST, RecordOf(FIRST, actor, 0), FirstPlaced(actor))
      && NodeInv(FirstPlaced(actor)) && Moves({1, 2}, 0, 0, n, FirstPlaced(actor))
  {
    hide GpuBalanced, CpuBalanced, Total;
    var n := EmptyNode(0, 10, 1, 10, None);
    EmptyNodeBalances(0, 10, 1, 10, None);
    LandingBalances(n, FIRST, RecordOf(FIRST, actor, 0), FirstPlaced(actor));
  }

  lemma SecondRaises(actor: ActorClass)
    ensures Raises(FirstPlaced(actor), Asking(2, 0, {1, 2}, 0))
  {
  }

  lemma FreedByFirst(actor: ActorClass)
    ensures FreeWithout(FirstPlaced(actor), {FIRST}, 0) == 10
  {
    TotalOne(FIRST, RecordOf(FIRST, actor, 0), Gpu(0));
    assert Only(FirstPlaced(actor).hot, {FIRST}) == FirstPlaced(actor).hot;
  }

  lemma ThirdIsAccepted(actor: ActorClass)
    ensures Decides(FirstPlaced(actor), Asking(3, 10, {3}, 1), Candidate(Full, map[0 := 10], {FIRST}, false))
  {
    hide Total, FreeWithout, Decides;
    var n, q := FirstPlaced(actor), Asking(3, 10, {3}, 1);
    FreedByFirst(actor);
    assert Reclaimable(n, q) == {FIRST};
    ClearsOneCard(n, q, FIRST);
  }

  lemma FirstIsParked(actor: ActorClass)
    requires actor.cacheable
    ensures EvictsHot(FirstPlaced(actor), FIRST, {3}, 1, FirstParked(actor))
  {
    var n, d := FirstPlaced(actor), RecordOf(FIRST, actor, 0);
    TotalOne(FIRST, d, Cpu);
    assert Outside(n.warm, {3}) == map[] && Only(n.warm, {}) == map[];
    assert DropPlan(n, 10, {3}, {});
    assert (n.warm - {})[FIRST := Parked(d, 1)] == FirstParked(actor).warm;
    assert Released(n.free, d.gpus) == [10] && n.hot - {FIRST} == map[];
  }

  lemma ThirdGoesThrough(actor: ActorClass)
    ensures Lands(FirstParked(actor), THIRD, RecordOf(THIRD, actor, 1), ThirdPlaced(actor))
    ensures NodeInv(ThirdPlaced(actor)) && Moves({3}, 1, 1, FirstPlaced(actor), ThirdPlaced(actor))
  {
    var d := RecordOf(THIRD, actor, 1);
    TotalOne(THIRD, d, Gpu(0));
    TotalOne(FIRST, Parked(RecordOf(FIRST, actor, 0), 1), Cpu);
  }

  function OneNodeCluster(n: NodeState, issued: nat): ClusterState {
    ClusterState(map[0 := n], issued)
  }

  lemma OneNodeCalls(models: set<ModelKey>, now: int, n: NodeState, issued: nat, n': NodeState, issued': nat)
    requires issued <= issued' && Moves(models, issued, now, n, n')
    ensures CallMoves(models, now, OneNodeCluster(n, issued), OneNodeCluster(n', issued'))
  {
    hide Moves;
  }

  lemma AloneIsSound(n: NodeState, issued: nat)
    requires NodeInv(n) && n.id == 0 && IdsBelow(n, issued)
    ensures ClusterInv(OneNodeCluster(n, issued))
  {
    hide NodeInv, IdsBelow;
  }

  /** Ray reports one node with that many cards of ten bytes. */
  function SeenWith(cards: nat): Event {
    NodesSeen(map[0 := Capacity(10, cards, 10)], None)
  }

  lemma SeesNode(cards: nat)
    requires cards > 0
    ensures IsRun([SeenWith(cards)])
    ensures After([SeenWith(cards)]) == Ctl(OneNodeCluster(EmptyNode(0, 10, cards, 10, None), 0), map[], NOTHING, map[])
  {
    hide EmptyNode;
    var e := SeenWith(cards);
    RunExtends([], e);
    assert [] + [e] == [e];
    assert Synced(Start().cluster, e.alive, None).nodes == map[0 := EmptyNode(0, 10, cards, 10, None)];
  }

  /** What happened before the last call of that run. */
  function LosingRun(actor: ActorClass): seq<Event> {
    [SeenWith(1),
     RaisedPartWay({1, 2}, 0, OneNodeCluster(FirstPlaced(actor), 1))]
  }

  function LosingCall(actor: ActorClass): Event {
    Called({3}, 1, OneNodeCluster(ThirdPlaced(actor), 2), {})
  }

  lemma LosingRunHappens(actor: ActorClass)
    ensures IsRun(LosingRun(actor))
    ensures After(LosingRun(actor)) == Ctl(OneNodeCluster(FirstPlaced(actor), 1), map[], NOTHING, map[])
    ensures Happens(After(LosingRun(actor)), LosingCall(actor))
  {
    hide NodeInv, Moves, EmptyNode, IsRun, After, CallMoves, ClusterInv, OneNodeCluster, FirstPlaced, ThirdPlaced, Slots;
    FirstIsSound(actor);
    SeesNode(1);
    RunExtends([SeenWith(1)], LosingRun(actor)[1]);
    assert [SeenWith(1)] + [LosingRun(actor)[1]] == LosingRun(actor);
  }

  lemma FirstIsSound(actor: ActorClass)
    ensures CallMoves({1, 2}, 0, OneNodeCluster(EmptyNode(0, 10, 1, 10, None), 0), OneNodeCluster(FirstPlaced(actor), 1))
    ensures ClusterInv(OneNodeCluster(FirstPlaced(actor), 1))
    ensures CallMoves({3}, 1, OneNodeCluster(FirstPlaced(actor), 1), OneNodeCluster(ThirdPlaced(actor), 2))
    ensures ClusterInv(OneNodeCluster(ThirdPlaced(actor), 2))
  {
    hide NodeInv, Moves, CallMoves, ClusterInv;
    FirstLands(actor);
    ThirdGoesThrough(actor);
    OneNodeCalls({1, 2}, 0, EmptyNode(0, 10, 1, 10, None), 0, FirstPlaced(actor), 1);
    AloneIsSound(FirstPlaced(actor), 1);
    OneNodeCalls({3}, 1, FirstPlaced(actor), 1, ThirdPlaced(actor), 2);
    AloneIsSound(ThirdPlaced(actor), 2);
  }

  /** Every step of that run is one the node's own decisions make: the empty node
      takes the first model, sizing the second raises, and the third is placed by
      parking the first. */
  ghost predicate NodeDecidesSo(actor: ActorClass) {
    && Decides(EmptyNode(0, 10, 1, 10, None), Asking(1, 10, {1, 2}, 0), Candidate(Free, map[0 := 10], {}, false))
    && Lands(EmptyNode(0, 10, 1, 10, None), FIRST, RecordOf(FIRST, actor, 0), FirstPlaced(actor))
    && Raises(FirstPlaced(actor), Asking(2, 0, {1, 2}, 0))
    && Decides(FirstPlaced(actor), Asking(3, 10, {3}, 1), Candidate(Full, map[0 := 10], {FIRST}, false))
    && EvictsHot(FirstPlaced(actor), FIRST, {3}, 1, FirstParked(actor))
    && Lands(FirstParked(actor), THIRD, RecordOf(THIRD, actor, 1), ThirdPlaced(actor))
  }

  lemma NodeDoesDecideSo(actor: ActorClass)
    requires actor.cacheable
    ensures NodeDecidesSo(actor)
  {
    hide Decides, Lands, Raises, EvictsHot, EmptyNode, NodeInv, Moves;
    FirstIsAccepted();
    FirstLands(actor);
    SecondRaises(actor);
    ThirdIsAccepted(actor);
    FirstIsParked(actor);
    ThirdGoesThrough(actor);
  }

  /** A deploy that raises part way is enough to make a later `pop` miss. */
  lemma RaisedDeployMakesPopMiss(actor: ActorClass)
    requires actor.cacheable
    ensures NodeDecidesSo(actor)
    ensures IsRun(LosingRun(actor) + [LosingCall(actor)]) && Misses(After(LosingRun(actor)), LosingCall(actor))
  {
    hide Happens, IsRun, After, Slots, Contents, EmptyNode, NodeDecidesSo;
    NodeDoesDecideSo(actor);
    LosingRunHappens(actor);
    RunExtends(LosingRun(actor), LosingCall(actor));
    SlotsMeaning(LosingCall(actor).after, At(0, FIRST));
  }

  // ----------------------------------------------------- a late failure gone stale

  const FOURTH := Key(4, 1)

  /** Two cards of ten bytes. Model 1 is placed on the first and parked, model 4
      takes that card, and model 1 is restored onto the other. */
  function Placed1(actor: ActorClass): NodeState {
    NodeState(0, 10, None, [0, 10], 10, 10, map[FIRST := RecordOf(FIRST, actor, 0)], map[])
  }

  function Parked1(actor: ActorClass): NodeState {
    NodeState(0, 10, None, [10, 10], 10, 0, map[], map[FIRST := Parked(RecordOf(FIRST, actor, 0), 1)])
  }

  function Placed4(actor: ActorClass): NodeState {
    Parked1(actor).(free := [0, 10], hot := map[FOURTH := RecordOf(FOURTH, actor, 2)])
  }

  function Moved1(actor: ActorClass): Deployment {
    RecordOf(FIRST, actor, 3).(gpus := map[1 := 10])
  }

  function Restored1(actor: ActorClass): NodeState {
    Placed4(actor).(free := [0, 0], cpuFree := 10, hot := map[FOURTH := RecordOf(FOURTH, actor, 2), FIRST := Moved1(actor)], warm := map[])
  }

  /** Each of these steps is one the node decides on. */
  ghost predicate NodeMovesIt(actor: ActorClass) {
    var n := EmptyNode(0, 10, 2, 10, None);
    && Decides(n, Asking(1, 10, {1}, 0), Candidate(Free, map[0 := 10], {}, false))
    && Lands(n, FIRST, RecordOf(FIRST, actor, 0), Placed1(actor))
    && Evicts(Placed1(actor), FIRST, {}, 1, Parked1(actor))
    && Decides(Parked1(actor), Asking(4, 10, {4}, 2), Candidate(Free, map[0 := 10], {}, false))
    && Lands(Parked1(actor), FOURTH, RecordOf(FOURTH, actor, 2), Placed4(actor))
    && Decides(Placed4(actor), Asking(1, 10, {1}, 3), Candidate(CachedAndFree, map[1 := 10], {}, false))
    && Lands(Placed4(actor), FIRST, Moved1(actor), Restored1(actor))
  }

  lemma MovesItOnce(actor: ActorClass)
    requires actor.cacheable
    ensures Lands(EmptyNode(0, 10, 2, 10, None), FIRST, RecordOf(FIRST, actor, 0), Placed1(actor))
    ensures Evicts(Placed1(actor), FIRST, {}, 1, Parked1(actor))
    ensures Lands(Parked1(actor), FOURTH, RecordOf(FOURTH, actor, 2), Placed4(actor))
    ensures Lands(Placed4(actor), FIRST, Moved1(actor), Restored1(actor))
  {
    hide Total;
    var n, d := Placed1(actor), RecordOf(FIRST, actor, 0);
    assert Outside(n.warm, {}) == map[] && Only(n.warm, {}) == map[];
    TotalNothing(Only(n.warm, {}), {}, Cpu);
    assert DropPlan(n, 10, {}, {});
    assert (n.warm - {})[FIRST := Parked(d, 1)] == Parked1(actor).warm;
    assert Released(n.free, d.gpus) == [10, 10] && n.hot - {FIRST} == map[];
  }

  lemma NodeDoesMoveIt(actor: ActorClass)
    requires actor.cacheable
    ensures NodeMovesIt(actor)
  {
    hide Decides, Lands, Evicts;
    MovesItOnce(actor);
    TakesOneCard(EmptyNode(0, 10, 2, 10, None), Asking(1, 10, {1}, 0), 0, Free);
    TakesOneCard(Parked1(actor), Asking(4, 10, {4}, 2), 0, Free);
    assert FIRST in Placed4(actor).warm;
    TakesOneCard(Placed4(actor), Asking(1, 10, {1}, 3), 1, CachedAndFree);
  }

  lemma MovesAlong(actor: ActorClass)
    ensures Moves({1}, 0, 0, EmptyNode(0, 10, 2, 10, None), Placed1(actor))
    ensures Moves({}, 1, 1, Placed1(actor), Parked1(actor))
    ensures Moves({4}, 1, 2, Parked1(actor), Placed4(actor))
    ensures Moves({1}, 2, 3, Placed4(actor), Restored1(actor))
  {
  }

  /** A record handed back late breaks the ledger: a run at whose end model 1's
      first record, once applied, is no longer what it is charged for, so that
      dropping it leaves a node whose ledger is not exact. */
  lemma StaleRecordBreaksLedger(actor: ActorClass) returns (events: seq<Event>, i: nat)
    requires actor.cacheable
    ensures NodeMovesIt(actor)
    ensures IsRun(events) && Calm(events) && After(events).pending == NOTHING && i <= |events|
    ensures var d := RecordOf(FIRST, actor, 0);
      && At(0, FIRST) in After(events[..i]).state && After(events[..i]).state[At(0, FIRST)] == d
      && AtHome(After(events).cluster, d) && !Handed(After(events).cluster, d)
      && ClusterInv(After(events).cluster) && !ClusterInv(Dropped(After(events).cluster, d))
  {
    hide NodeMovesIt, IsRun, After, Calm, Placed1, Parked1, Placed4, Restored1, NodeInv, CallMoves, EmptyNode, Contents, ClusterInv,
         OneNodeCluster, Moves, Handed, AtHome;
    NodeDoesMoveIt(actor);
    SoundOnce(actor);
    SoundParked(actor);
    SoundAgain(actor);
    SoundRestored(actor);
    MovesAlong(actor);
    SeesNode(2);
    var seen := [SeenWith(2)];
    assert Calm(seen) by { CalmAtFirst(2); }
    OneNodeCalls({1}, 0, EmptyNode(0, 10, 2, 10, None), 0, Placed1(actor), 1);
    var first := CallAndApply(seen, {1}, 0, OneNodeCluster(Placed1(actor), 1));
    FirstApplied(actor);
    OneNodeCalls({}, 1, Placed1(actor), 1, Parked1(actor), 1);
    var second := CallAndApply(first, {}, 1, OneNodeCluster(Parked1(actor), 1));
    OneNodeCalls({4}, 2, Parked1(actor), 1, Placed4(actor), 2);
    var third := CallAndApply(second, {4}, 2, OneNodeCluster(Placed4(actor), 2));
    OneNodeCalls({1}, 3, Placed4(actor), 2, Restored1(actor), 3);
    events := CallAndApply(third, {1}, 3, OneNodeCluster(Restored1(actor), 3));
    i := |first|;
    assert events[..i] == first;
    Stale(actor);
  }

  lemma CalmAtFirst(cards: nat)
    ensures Calm([SeenWith(cards)])
  {
  }

  lemma SoundOnce(actor: ActorClass)
    requires NodeMovesIt(actor)
    ensures NodeInv(Placed1(actor)) && ClusterInv(OneNodeCluster(Placed1(actor), 1))
  {
    hide NodeInv, Decides, Lands, Evicts, ClusterInv;
    EmptyNodeBalances(0, 10, 2, 10, None);
    LandingBalances(EmptyNode(0, 10, 2, 10, None), FIRST, RecordOf(FIRST, actor, 0), Placed1(actor));
    AloneIsSound(Placed1(actor), 1);
  }

  lemma SoundParked(actor: ActorClass)
    requires NodeMovesIt(actor)
    ensures NodeInv(Parked1(actor)) && ClusterInv(OneNodeCluster(Parked1(actor), 1))
  {
    hide NodeInv, Decides, Lands, Evicts, ClusterInv;
    SoundOnce(actor);
    EvictBalances(Placed1(actor), FIRST, {}, 1, Parked1(actor));
    AloneIsSound(Parked1(actor), 1);
  }

  lemma SoundAgain(actor: ActorClass)
    requires NodeMovesIt(actor)
    ensures NodeInv(Placed4(actor)) && ClusterInv(OneNodeCluster(Placed4(actor), 2))
  {
    hide NodeInv, Decides, Lands, Evicts, ClusterInv;
    SoundParked(actor);
    LandingBalances(Parked1(actor), FOURTH, RecordOf(FOURTH, actor, 2), Placed4(actor));
    AloneIsSound(Placed4(actor), 2);
  }

  lemma SoundRestored(actor: ActorClass)
    requires NodeMovesIt(actor)
    ensures NodeInv(Restored1(actor)) && ClusterInv(OneNodeCluster(Restored1(actor), 3))
  {
    hide NodeInv, Decides, Lands, Evicts, ClusterInv;
    SoundAgain(actor);
    LandingBalances(Placed4(actor), FIRST, Moved1(actor), Restored1(actor));
    AloneIsSound(Restored1(actor), 3);
  }

  lemma FirstApplied(actor: ActorClass)
    ensures var now := Contents(OneNodeCluster(Placed1(actor), 1));
      At(0, FIRST) in now && now[At(0, FIRST)] == RecordOf(FIRST, actor, 0)
  {
    ContentsMeaning(OneNodeCluster(Placed1(actor), 1), At(0, FIRST));
    hide Contents;
  }

  lemma NotCurrent(actor: ActorClass)
    ensures var c, d := OneNodeCluster(Restored1(actor), 3), RecordOf(FIRST, actor, 0);
      AtHome(c, d) && !Handed(c, d)
  {
    var n, d := Restored1(actor), RecordOf(FIRST, actor, 0);
    assert n.hot[FIRST] == Moved1(actor) && |n.free| == 2;
    assert Weight(d, Gpu(0)) == 10 && Weight(Moved1(actor), Gpu(0)) == 0;
  }

  lemma Stale(actor: ActorClass)
    requires NodeMovesIt(actor)
    ensures var c, d := OneNodeCluster(Restored1(actor), 3), RecordOf(FIRST, actor, 0);
      AtHome(c, d) && !Handed(c, d) && !ClusterInv(Dropped(c, d))
  {
    hide NodeMovesIt, ClusterInv, Dropped, Handed, AtHome, NodeInv, Restored1, OneNodeCluster;
    SoundRestored(actor);
    NotCurrent(actor);
    DroppedKeepsIff(OneNodeCluster(Restored1(actor), 3), RecordOf(FIRST, actor, 0));
  }

  // ----------------------------------------------------------- a negative count

  const SECOND := Key(2, 1)

  function Claiming(k: Key, size: int, share: int, actor: ActorClass, now: int): Deployment {
    Deployment(k, 0, Hot, map[0 := share], size, false, actor, now)
  }

  /** A card has been credited with the size of what was placed on it. */
  function Inflated(actor: ActorClass): NodeState {
    NodeState(0, 10, None, [20, 10], 10, 10, map[FIRST := Claiming(FIRST, 10, -10, actor, 0)], map[])
  }

  function Overfilled(actor: ActorClass): NodeState {
    Inflated(actor).(free := [0, 10],
                     hot := map[FIRST := Claiming(FIRST, 10, -10, actor, 0), SECOND := Claiming(SECOND, 20, 20, actor, 1)])
  }

  function AskingFor(model: ModelKey, size: int, cards: int, now: int): Query {
    Query(model, size, false, {model}, None, Some(cards), None, now)
  }

  lemma Inflates()
    ensures Decides(EmptyNode(0, 10, 2, 10, None), AskingFor(1, 10, -1, 0), Candidate(Free, map[0 := -10], {}, false))
  {
    hide Total, Clearable, Reclaimable;
    var n, q := EmptyNode(0, 10, 2, 10, None), AskingFor(1, 10, -1, 0);
    assert CountFor(n, q) == Cards(-1) && ShareFor(n, q) == -10;
    assert Fitting(n, -10) == {0, 1};
    assert |map[0 := -10]| == 1;
    assert Only(n.hot, {}) == map[];
    TotalNothing(Only(n.hot, {}), {}, Gpu(0));
  }

  lemma Overfills(actor: ActorClass)
    ensures Decides(Inflated(actor), AskingFor(2, 20, 1, 1), Candidate(Free, map[0 := 20], {}, false))
  {
    hide Total, Clearable, Reclaimable;
    var n, q := Inflated(actor), AskingFor(2, 20, 1, 1);
    assert CountFor(n, q) == Cards(1) && ShareFor(n, q) == 20;
    assert Fitting(n, 20) == {0};
    assert |map[0 := 20]| == 1;
    assert Only(n.hot, {}) == map[];
    TotalNothing(Only(n.hot, {}), {}, Gpu(0));
  }

  /** A config asking for minus one card gives a card room it does not have, and
      twenty bytes are then placed on a card of ten. */
  lemma NegativeCountOverfills(actor: ActorClass)
    ensures Decides(EmptyNode(0, 10, 2, 10, None), AskingFor(1, 10, -1, 0), Candidate(Free, map[0 := -10], {}, false))
    ensures Lands(EmptyNode(0, 10, 2, 10, None), FIRST, Claiming(FIRST, 10, -10, actor, 0), Inflated(actor))
    ensures Inflated(actor).free[0] > Inflated(actor).memory && !NodeInv(Inflated(actor))
    ensures Decides(Inflated(actor), AskingFor(2, 20, 1, 1), Candidate(Free, map[0 := 20], {}, false))
    ensures Lands(Inflated(actor), SECOND, Claiming(SECOND, 20, 20, actor, 1), Overfilled(actor))
    ensures Weight(Overfilled(actor).hot[SECOND], Gpu(0)) > Overfilled(actor).memory
  {
    hide Decides;
    Inflates();
    Overfills(actor);
    assert FIRST in Inflated(actor).hot && Inflated(actor).hot[FIRST].gpus == map[0 := -10];
    assert map[0 := -10][0] < 0;
  }

  // ------------------------------------------------------------- a negative size

  /** The only card of ten bytes has been credited with five. */
  function Undersized(actor: ActorClass): NodeState {
    NodeState(0, 10, None, [15], 10, 10, map[FIRST := Claiming(FIRST, -5, -5, actor, 0)], map[])
  }

  function Burst(actor: ActorClass): NodeState {
    Undersized(actor).(free := [0],
                       hot := map[FIRST := Claiming(FIRST, -5, -5, actor, 0), SECOND := Claiming(SECOND, 15, 15, actor, 1)])
  }

  lemma TakesTheOnlyCard(n: NodeState, q: Query, share: int)
    requires n.memory == 10 && |n.free| == 1 && n.free[0] >= share && q.asked == Some(1) && q.share.None? && q.size == share
    requires q.limit.None? && !IsCached(n, q.model)
    ensures Decides(n, q, Candidate(Free, map[0 := share], {}, false))
  {
    hide Total, Clearable, Reclaimable;
    assert CountFor(n, q) == Cards(1) && ShareFor(n, q) == share;
    assert Fitting(n, share) == {0};
    assert |map[0 := share]| == 1;
    assert Only(n.hot, {}) == map[];
    TotalNothing(Only(n.hot, {}), {}, Gpu(0));
  }

  /** So does a config whose padded size comes out negative, without any negative
      count: fifteen bytes are placed on a card of ten. Unless it says how many cards
      it wants, evaluating it raises. */
  lemma NegativeSizeOverfills(actor: ActorClass)
    ensures Decides(EmptyNode(0, 10, 1, 10, None), AskingFor(1, -5, 1, 0), Candidate(Free, map[0 := -5], {}, false))
    ensures Lands(EmptyNode(0, 10, 1, 10, None), FIRST, Claiming(FIRST, -5, -5, actor, 0), Undersized(actor))
    ensures Undersized(actor).free[0] > Undersized(actor).memory && !NodeInv(Undersized(actor))
    ensures Decides(Undersized(actor), AskingFor(2, 15, 1, 1), Candidate(Free, map[0 := 15], {}, false))
    ensures Lands(Undersized(actor), SECOND, Claiming(SECOND, 15, 15, actor, 1), Burst(actor))
    ensures Weight(Burst(actor).hot[SECOND], Gpu(0)) > Burst(actor).memory
    ensures Raises(EmptyNode(0, 10, 1, 10, None), AskingFor(1, -5, 1, 0).(asked := None))
  {
    hide Decides;
    TakesTheOnlyCard(EmptyNode(0, 10, 1, 10, None), AskingFor(1, -5, 1, 0), -5);
    TakesTheOnlyCard(Undersized(actor), AskingFor(2, 15, 1, 1), 15);
    assert FIRST in Undersized(actor).hot && Undersized(actor).hot[FIRST].size == -5;
    DerivedCountSign(None, -5, 10);
  }
}
