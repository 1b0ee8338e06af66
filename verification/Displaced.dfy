/** A run in which a replica's actor stays behind: a deploy that raised part way
    had parked it, and it is restored elsewhere before anything is applied. */
module Displaced {
  import opened Ordering
  import opened Sizing
  import opened Ledger
  import opened NodePlacement
  import opened ClusterPlacement
  import opened Reconciler
  import opened ControllerRuns
  import opened FaultyRuns

  const OTHER := Key(3, 1)
  const LATER := Key(2, 2)

  /** Two cards of ten bytes, models 1 and 3 on one each. */
  function Both(actor: ActorClass): NodeState {
    NodeState(0, 10, None, [0, 0], 10, 10,
              map[FIRST := OnCard(FIRST, 0, actor, 0), OTHER := OnCard(OTHER, 1, actor, 1)], map[])
  }

  /** Model 2 is placed by parking model 1. */
  function MadeRoom(actor: ActorClass): NodeState {
    NodeState(0, 10, None, [10, 0], 10, 0,
              map[OTHER := OnCard(OTHER, 1, actor, 1)], map[FIRST := Parked(OnCard(FIRST, 0, actor, 0), 2)])
  }

  function Raising(actor: ActorClass): NodeState {
    MadeRoom(actor).(free := [0, 0], hot := map[OTHER := OnCard(OTHER, 1, actor, 1), LATER := OnCard(LATER, 0, actor, 2)])
  }

  /** Model 3 makes way, for good, and model 1 is restored onto its card. */
  function MadeWay(actor: ActorClass): NodeState {
    Raising(actor).(free := [0, 10], hot := map[LATER := OnCard(LATER, 0, actor, 2)])
  }

  function BackElsewhere(actor: ActorClass): NodeState {
    NodeState(0, 10, None, [0, 0], 10, 10,
              map[LATER := OnCard(LATER, 0, actor, 2), FIRST := OnCard(FIRST, 1, actor, 3)], map[])
  }

  function OnCard(k: Key, g: nat, actor: ActorClass, now: int): Deployment {
    Deployment(k, 0, Hot, map[g := 10], 10, false, actor, now)
  }

  // --------------------------------------------------------- what the node decides

  lemma Parks(n: NodeState, k: Key, exclude: set<ModelKey>, now: int, n': NodeState)
    requires k in n.hot && k !in n.warm && n.hot[k].actor.cacheable && n.hot[k].size <= n.cpuFree && NoCredit(n.warm, Cpu)
    requires n' == n.(free := Released(n.free, n.hot[k].gpus), hot := n.hot - {k},
                      warm := n.warm[k := Parked(n.hot[k], now)], cpuFree := n.cpuFree - n.hot[k].size)
    ensures Evicts(n, k, exclude, now, n')
  {
    hide Total;
    var d := n.hot[k];
    var none: set<Key> := {};
    assert Elements<Key>([]) == none;
    NothingToDrop(n, d.size, exclude);
    TotalNotNegative(Outside(n.warm, exclude), Cpu);
    assert Only(n.warm, none) == map[] && n.warm - none == n.warm;
    TotalNothing(Only(n.warm, none), none, Cpu);
    assert DropPlan(n, d.size, exclude, none) && n'.warm == (n.warm - none)[k := Parked(d, now)];
  }

  lemma Drops(n: NodeState, k: Key, exclude: set<ModelKey>, now: int, n': NodeState)
    requires k in n.hot && k !in n.warm && n.cpuFree < n.hot[k].size && Outside(n.warm, exclude) == map[]
    requires n' == n.(free := Released(n.free, n.hot[k].gpus), hot := n.hot - {k})
    ensures Evicts(n, k, exclude, now, n')
  {
    hide Total;
    TotalNothing(Outside(n.warm, exclude), {}, Cpu);
  }

  /** With both cards full, one is cleared of its only holder. */
  lemma ClearsCard(n: NodeState, q: Query, g: nat, k: Key, other: Key, level: CandidateLevel)
    requires NodeInv(n) && n.memory == 10 && q.size == 10 && q.asked.None? && q.share.None? && q.limit.None?
    requires g < 2 && n.free == [0, 0] && k != other && Reclaimable(n, q) == {k, other} && {k, other} <= n.hot.Keys
    requires n.hot[k].gpus == map[g := 10] && n.hot[other].gpus == map[1 - g := 10]
    requires level == if IsCached(n, q.model) then CachedAndFull else Full
    ensures Decides(n, q, Candidate(level, map[g := 10], {k}, false))
  {
    hide Total, Reclaimable, NodeInv, FreeWithout, Lean;
    var c := Candidate(level, map[g := 10], {k}, false);
    Freeing(n, g, k);
    BothOpen(n, q, g, k, other);
    BothLean(n, g, k, other, c);
    assert CountFor(n, q) == Cards(1) && ShareFor(n, q) == 10;
    assert Fitting(n, 10) == {} && |{g, 1 - g}| == 2;
    assert |map[g := 10]| == 1;
    hide Clearable, Fitting, CardCount, SharePerCard, IsCached;
    FullDecision(n, q, c);
  }

  lemma BothOpen(n: NodeState, q: Query, g: nat, k: Key, other: Key)
    requires NodeInv(n) && g < 2 && n.free == [0, 0] && Reclaimable(n, q) == {k, other} && {k, other} <= n.hot.Keys
    requires n.hot[k].gpus == map[g := 10] && n.hot[other].gpus == map[1 - g := 10]
    ensures Clearable(n, {k, other}, 10) == {g, 1 - g}
  {
    hide Total, NodeInv, FreeWithout, Reclaimable;
    Freeing(n, g, k);
    Freeing(n, 1 - g, other);
    FreeingMore(n, q, g, k);
    FreeingMore(n, q, 1 - g, other);
  }

  lemma BothLean(n: NodeState, g: nat, k: Key, other: Key, c: Candidate)
    requires g < 2 && n.free == [0, 0] && k != other && {k, other} <= n.hot.Keys
    requires n.hot[k].gpus == map[g := 10] && n.hot[other].gpus == map[1 - g := 10]
    requires c.gpus == map[g := 10] && c.evictions == {k} && Clearable(n, {k, other}, 10) == {g, 1 - g}
    ensures Lean(n, {k, other}, 10, c)
  {
    hide Total, FreeWithout, OpensLean, Clearable;
    Freeing(n, g, k);
    Freeing(n, 1 - g, other);
    OnlyHolderOpens(n, {k, other}, g, k);
    OnlyHolderOpens(n, {k, other}, 1 - g, other);
    var plan := map[g := {k}, 1 - g := {other}];
    assert plan[g] == {k} && plan[1 - g] == {other} && |{k}| == 1 && |{other}| == 1;
    assert LeanBy(n, {k, other}, 10, c, plan);
  }

  lemma Freeing(n: NodeState, g: nat, k: Key)
    requires g < |n.free| && n.free[g] == 0 && k in n.hot && n.hot[k].gpus == map[g := 10]
    ensures FreeWithout(n, {k}, g) == 10
  {
    assert Only(n.hot, {k}) == map[k := n.hot[k]];
    TotalOne(k, n.hot[k], Gpu(g));
  }

  lemma FreeingMore(n: NodeState, q: Query, g: nat, k: Key)
    requires NodeInv(n) && g < |n.free| && k in Reclaimable(n, q)
    ensures FreeWithout(n, {k}, g) <= FreeWithout(n, Reclaimable(n, q), g)
  {
    Weighs(n, g);
    TotalOnlyMonotone(n.hot, {k}, Reclaimable(n, q), Gpu(g));
  }

  /** Every step of the run is one the node decides on. */
  ghost predicate NodeDisplacesIt(actor: ActorClass) {
    var n := EmptyNode(0, 10, 2, 10, None);
    && Decides(n, Asking(1, 10, {1}, 0), Candidate(Free, map[0 := 10], {}, false))
    && Lands(n, FIRST, OnCard(FIRST, 0, actor, 0), Placed1(actor))
    && Decides(Placed1(actor), Asking(3, 10, {3}, 1), Candidate(Free, map[1 := 10], {}, false))
    && Lands(Placed1(actor), OTHER, OnCard(OTHER, 1, actor, 1), Both(actor))
    && Decides(Both(actor), Asking(2, 10, {2, 9}, 2), Candidate(Full, map[0 := 10], {FIRST}, false))
    && Evicts(Both(actor), FIRST, {2, 9}, 2, MadeRoom(actor))
    && Lands(MadeRoom(actor), LATER, OnCard(LATER, 0, actor, 2), Raising(actor))
    && Raises(Raising(actor), Asking(9, 0, {2, 9}, 2))
    && Decides(Raising(actor), Asking(1, 10, {1}, 3), Candidate(CachedAndFull, map[1 := 10], {OTHER}, false))
    && Evicts(Raising(actor), OTHER, {1}, 3, MadeWay(actor))
    && Lands(MadeWay(actor), FIRST, OnCard(FIRST, 1, actor, 3), BackElsewhere(actor))
  }

  lemma Placements(actor: ActorClass)
    ensures Lands(EmptyNode(0, 10, 2, 10, None), FIRST, OnCard(FIRST, 0, actor, 0), Placed1(actor))
    ensures Lands(Placed1(actor), OTHER, OnCard(OTHER, 1, actor, 1), Both(actor))
    ensures Lands(MadeRoom(actor), LATER, OnCard(LATER, 0, actor, 2), Raising(actor))
    ensures Lands(MadeWay(actor), FIRST, OnCard(FIRST, 1, actor, 3), BackElsewhere(actor))
  {
  }

  lemma Departures(actor: ActorClass)
    requires actor.cacheable
    ensures Evicts(Both(actor), FIRST, {2, 9}, 2, MadeRoom(actor))
    ensures Evicts(Raising(actor), OTHER, {1}, 3, MadeWay(actor))
  {
    hide Evicts;
    Parks(Both(actor), FIRST, {2, 9}, 2, MadeRoom(actor));
    assert Outside(Raising(actor).warm, {1}) == map[];
    Drops(Raising(actor), OTHER, {1}, 3, MadeWay(actor));
  }

  lemma Sound(actor: ActorClass)
    requires actor.cacheable
    ensures NodeInv(Placed1(actor)) && NodeInv(Both(actor)) && NodeInv(Raising(actor)) && NodeInv(BackElsewhere(actor))
  {
    hide NodeInv, Lands, Evicts;
    Placements(actor);
    Departures(actor);
    EmptyNodeBalances(0, 10, 2, 10, None);
    LandingBalances(EmptyNode(0, 10, 2, 10, None), FIRST, OnCard(FIRST, 0, actor, 0), Placed1(actor));
    LandingBalances(Placed1(actor), OTHER, OnCard(OTHER, 1, actor, 1), Both(actor));
    EvictBalances(Both(actor), FIRST, {2, 9}, 2, MadeRoom(actor));
    LandingBalances(MadeRoom(actor), LATER, OnCard(LATER, 0, actor, 2), Raising(actor));
    EvictBalances(Raising(actor), OTHER, {1}, 3, MadeWay(actor));
    LandingBalances(MadeWay(actor), FIRST, OnCard(FIRST, 1, actor, 3), BackElsewhere(actor));
  }

  lemma NodeDoesDisplaceIt(actor: ActorClass)
    requires actor.cacheable
    ensures NodeDisplacesIt(actor)
  {
    hide Decides, Lands, Evicts, NodeInv;
    Placements(actor);
    Departures(actor);
    Sound(actor);
    TakesOneCard(EmptyNode(0, 10, 2, 10, None), Asking(1, 10, {1}, 0), 0, Free);
    TakesOneCard(Placed1(actor), Asking(3, 10, {3}, 1), 1, Free);
    assert Reclaimable(Both(actor), Asking(2, 10, {2, 9}, 2)) == {FIRST, OTHER};
    ClearsCard(Both(actor), Asking(2, 10, {2, 9}, 2), 0, FIRST, OTHER, Full);
    assert FIRST in Raising(actor).warm;
    assert Reclaimable(Raising(actor), Asking(1, 10, {1}, 3)) == {OTHER, LATER};
    ClearsCard(Raising(actor), Asking(1, 10, {1}, 3), 1, OTHER, LATER, CachedAndFull);
  }

  // -------------------------------------------------------------------- the run

  lemma Moving(actor: ActorClass)
    ensures Moves({1}, 0, 0, EmptyNode(0, 10, 2, 10, None), Placed1(actor))
    ensures Moves({3}, 1, 1, Placed1(actor), Both(actor))
    ensures Moves({2, 9}, 2, 2, Both(actor), Raising(actor))
    ensures Moves({1}, 3, 3, Raising(actor), BackElsewhere(actor))
  {
  }

  lemma SlotsOf(n: NodeState, issued: nat, a: Slot)
    ensures var now := Contents(OneNodeCluster(n, issued));
      && (a in now <==> a.node == 0 && (a.key in n.hot || a.key in n.warm))
      && (a in now ==> now[a] == if a.key in n.hot then n.hot[a.key] else n.warm[a.key])
  {
    ContentsMeaning(OneNodeCluster(n, issued), a);
    hide Contents;
  }

  /** The difference the last apply works off: model 1 is on neither list. */
  lemma LastDelta(actor: ActorClass)
    ensures var d := DeltaOf(Contents(OneNodeCluster(Both(actor), 2)), Contents(OneNodeCluster(BackElsewhere(actor), 4)));
      && d.delete.Keys == {At(0, OTHER)} && d.cache == map[] && d.restore == map[]
      && d.create == map[At(0, LATER) := OnCard(LATER, 0, actor, 2)]
  {
    hide Contents;
    var was, now := Contents(OneNodeCluster(Both(actor), 2)), Contents(OneNodeCluster(BackElsewhere(actor), 4));
    forall a: Slot
      ensures a in was <==> a == At(0, FIRST) || a == At(0, OTHER)
      ensures a in now <==> a == At(0, FIRST) || a == At(0, LATER)
      ensures a in was ==> was[a].level == Hot
      ensures a in now ==> now[a].level == Hot
      ensures a == At(0, LATER) ==> now[a] == OnCard(LATER, 0, actor, 2)
    {
      SlotsOf(Both(actor), 2, a);
      SlotsOf(BackElsewhere(actor), 4, a);
    }
  }

  lemma NoneWarm(actor: ActorClass, state: Applied)
    ensures WarmKnown(state, OneNodeCluster(BackElsewhere(actor), 4))
  {
  }

  /** Up to the deploy that raised. */
  lemma UpToTheRaise(actor: ActorClass) returns (events: seq<Event>)
    requires actor.cacheable
    ensures IsRun(events) && HomesUnique(Contents(OneNodeCluster(Both(actor), 2)))
    ensures var now := Contents(OneNodeCluster(Both(actor), 2));
      After(events) == Ctl(OneNodeCluster(Raising(actor), 3), now, NOTHING, Describe(now))
  {
    hide IsRun, After, CallMoves, ClusterInv, NodeInv, Moves, EmptyNode, Contents, OneNodeCluster, Placed1, Both, Raising, Calm, Describe,
         ControllerInv;
    Sound(actor);
    Moving(actor);
    AllSound(actor);
    SeesNode(2);
    var seen := [SeenWith(2)];
    CalmAtFirst(2);
    OneNodeCalls({1}, 0, EmptyNode(0, 10, 2, 10, None), 0, Placed1(actor), 1);
    var first := CallAndApply(seen, {1}, 0, OneNodeCluster(Placed1(actor), 1));
    OneNodeCalls({3}, 1, Placed1(actor), 1, Both(actor), 2);
    var second := CallAndApply(first, {3}, 1, OneNodeCluster(Both(actor), 2));
    ActorsFollowTheCluster(second);
    OneNodeCalls({2, 9}, 2, Both(actor), 2, Raising(actor), 3);
    RunExtends(second, RaisedPartWay({2, 9}, 2, OneNodeCluster(Raising(actor), 3)));
    events := second + [RaisedPartWay({2, 9}, 2, OneNodeCluster(Raising(actor), 3))];
  }

  lemma AllSound(actor: ActorClass)
    requires actor.cacheable
    ensures ClusterInv(OneNodeCluster(Placed1(actor), 1)) && ClusterInv(OneNodeCluster(Both(actor), 2))
    ensures ClusterInv(OneNodeCluster(Raising(actor), 3)) && ClusterInv(OneNodeCluster(BackElsewhere(actor), 4))
  {
    hide NodeInv, ClusterInv;
    Sound(actor);
    AloneIsSound(Placed1(actor), 1);
    AloneIsSound(Both(actor), 2);
    AloneIsSound(Raising(actor), 3);
    AloneIsSound(BackElsewhere(actor), 4);
  }

  /** A deploy that raises part way is enough to overfill a card: at the end of
      this run, every pop found, every operation through and both sides in step
      again, model 1's actor serves on the card its record has left, beside the
      actor of model 2. */
  lemma RaisedDeployOverfillsACard(actor: ActorClass) returns (events: seq<Event>)
    requires actor.cacheable
    ensures NodeDisplacesIt(actor)
    ensures IsRun(events) && After(events).pending == NOTHING
    ensures ControllerInv(After(events).cluster, After(events).state)
    ensures var s := After(events);
      && s.cluster == OneNodeCluster(BackElsewhere(actor), 4) && s.state == Contents(s.cluster)
      && s.actors == map[FIRST := Serving(0, map[0 := 10]), LATER := Serving(0, map[0 := 10])]
      && !WithinCards(s.cluster, s.actors)
  {
    hide IsRun, After, CallMoves, ClusterInv, NodeInv, Moves, Contents, OneNodeCluster, Both, Raising, BackElsewhere, Describe,
         ControllerInv, NodeDisplacesIt, DeltaOf, WarmKnown, WithinCards, Slots, Performed;
    NodeDoesDisplaceIt(actor);
    Moving(actor);
    AllSound(actor);
    var past := UpToTheRaise(actor);
    var was, after := Contents(OneNodeCluster(Both(actor), 2)), OneNodeCluster(BackElsewhere(actor), 4);
    OneNodeCalls({1}, 3, Raising(actor), 3, BackElsewhere(actor), 4);
    NoneWarm(actor, was);
    var call := Called({1}, 3, after, {});
    RunExtends(past, call);
    LastDelta(actor);
    var d := DeltaOf(was, Contents(after));
    RunExtends(past + [call], Ran(At(0, OTHER)));
    var d1, w1 := Without(d, {At(0, OTHER)}), Performed(Describe(was), d, At(0, OTHER));
    WithoutKeys(d, {At(0, OTHER)});
    RunExtends(past + [call] + [Ran(At(0, OTHER))], Ran(At(0, LATER)));
    WithoutKeys(d1, {At(0, LATER)});
    events := past + [call] + [Ran(At(0, OTHER))] + [Ran(At(0, LATER))];
    LeftServing(actor, was, d);
    ContentsCover(after);
    Crowded(actor);
  }

  /** What the two operations make of the actors. */
  lemma LeftServing(actor: ActorClass, was: Applied, d: Delta)
    requires was == Contents(OneNodeCluster(Both(actor), 2)) && HomesUnique(was)
    requires d == DeltaOf(was, Contents(OneNodeCluster(BackElsewhere(actor), 4)))
    ensures Performed(Performed(Describe(was), d, At(0, OTHER)), Without(d, {At(0, OTHER)}), At(0, LATER))
            == map[FIRST := Serving(0, map[0 := 10]), LATER := Serving(0, map[0 := 10])]
  {
    hide Contents, DeltaOf, Describe;
    LastDelta(actor);
    forall k: Key
      ensures k in Describe(was) <==> k == FIRST || k == OTHER
      ensures k == FIRST ==> Describe(was)[k] == Serving(0, map[0 := 10])
    {
      DescribedKey(was, k);
      SlotsOf(Both(actor), 2, At(0, k));
      forall b | b in was && b.key == k ensures b == At(0, k) {
        SlotsOf(Both(actor), 2, b);
      }
    }
    var w1 := Performed(Describe(was), d, At(0, OTHER));
    assert w1 == Describe(was) - {OTHER};
    assert w1 == map[FIRST := Serving(0, map[0 := 10])];
  }

  lemma {:induction false} LoadRemove(w: World, k: Key, node: NodeId, g: nat)
    requires k in w
    ensures Load(w, node, g) == Share(w[k], node, g) + Load(w - {k}, node, g)
    decreases |w|
  {
    var j :| j in w && Load(w, node, g) == Share(w[j], node, g) + Load(w - {j}, node, g);
    if j != k {
      assert (w - {j}).Keys == w.Keys - {j} && (w - {k}).Keys == w.Keys - {k};
      LoadRemove(w - {j}, k, node, g);
      LoadRemove(w - {k}, j, node, g);
      assert w - {j} - {k} == w - {k} - {j};
    }
  }

  lemma Crowded(actor: ActorClass)
    ensures !WithinCards(OneNodeCluster(BackElsewhere(actor), 4),
                         map[FIRST := Serving(0, map[0 := 10]), LATER := Serving(0, map[0 := 10])])
  {
    var w: World := map[FIRST := Serving(0, map[0 := 10]), LATER := Serving(0, map[0 := 10])];
    LoadRemove(w, FIRST, 0, 0);
    assert w - {FIRST} == map[LATER := Serving(0, map[0 := 10])];
    LoadRemove(w - {FIRST}, LATER, 0, 0);
    assert (w - {FIRST}) - {LATER} == map[];
    var c := OneNodeCluster(BackElsewhere(actor), 4);
    assert 0 in c.nodes && |c.nodes[0].free| == 2 && Load(w, 0, 0) == 20;
  }
}
