/** The controller actor: its fields, its methods, and that whatever they are
    called with it goes where the run it records goes
    (`controller/controller.py`). */
module ControllerActor {
  import opened Ordering
  import opened Ledger
  import opened NodePlacement
  import opened ClusterPlacement
  import opened Reconciler
  import opened ControllerRuns

  function Part(m: Applied, done: set<Slot>): Applied {
    map a | a in m && a in done :: m[a]
  }

  lemma PartGrows(m: Applied, done: set<Slot>, a: Slot)
    ensures Part(m, done + {a}) == if a in m then Part(m, done)[a := m[a]] else Part(m, done)
  {
  }

  lemma PartEnds(m: Applied, all: set<Slot>)
    requires m.Keys <= all
    ensures Part(m, {}) == map[] && Part(m, all) == m
  {
  }

  /** The lists of the delta as far as the slots in `done` fill them. */
  function PartOf(d: Delta, done: set<Slot>): Delta {
    Delta(Part(d.cache, done), Part(d.restore, done), Part(d.create, done), map[])
  }

  /** The two loops of `build` part way: `left` is what has not been popped. */
  predicate Halfway(state: Applied, now: Applied, done: set<Slot>, left: Applied, newer: Applied, d: Delta) {
    left == state - done && newer == Part(now, done) && d == PartOf(DeltaOf(state, now), done)
  }

  /** One replica's turn: which list it goes on. */
  function Sorted(d: Delta, existing: Option<Deployment>, a: Slot, record: Deployment): Delta {
    if record.level == Warm then
      if existing.Some? && existing.value.level == Hot then d.(cache := d.cache[a := record]) else d
    else if existing.None? then d.(create := d.create[a := record])
    else if existing.value.level == Warm then d.(restore := d.restore[a := record])
    else d
  }

  lemma HalfwayStep(state: Applied, now: Applied, done: set<Slot>, left: Applied, newer: Applied, d: Delta, a: Slot)
    requires Halfway(state, now, done, left, newer, d) && a in now && a !in done
    requires now[a].level == Warm ==> a in left
    ensures Halfway(state, now, done + {a}, left - {a}, newer[a := now[a]],
                    Sorted(d, if a in left then Some(left[a]) else None, a, now[a]))
    ensures a in left <==> a in state
  {
    hide Part;
    var full := DeltaOf(state, now);
    PartGrows(now, done, a);
    PartGrows(full.cache, done, a);
    PartGrows(full.restore, done, a);
    PartGrows(full.create, done, a);
    assert left - {a} == state - (done + {a});
  }

  lemma HalfwayEnds(state: Applied, now: Applied)
    ensures Halfway(state, now, {}, state, map[], Delta(map[], map[], map[], map[]))
    ensures forall left, newer, d :: Halfway(state, now, now.Keys, left, newer, d) ==>
              newer == now && d.(delete := left) == DeltaOf(state, now)
  {
    hide Part;
    var full := DeltaOf(state, now);
    PartEnds(now, now.Keys);
    PartEnds(full.cache, now.Keys);
    PartEnds(full.restore, now.Keys);
    PartEnds(full.create, now.Keys);
    assert state - {} == state;
    assert full.delete == state - now.Keys;
  }

  lemma WalkedSlot(c: ClusterState, a: Slot)
    requires ClusterInv(c) && a in Contents(c)
    ensures a.node in c.nodes && (IsWarm(c, a) || IsHot(c, a)) && Contents(c)[a] == RecordAt(c, a)
    ensures IsWarm(c, a) <==> Contents(c)[a].level == Warm
    ensures a in Slots(c)
  {
    ContentsMeaning(c, a);
    SlotsMeaning(c, a);
    LevelTells(c, a);
  }

  lemma KeyOf<K, V>(m: map<K, V>, v: V) returns (k: K)
    requires v in m.Values
    ensures k in m && m[k] == v
  {
    k :| k in m && m[k] == v;
  }

  datatype Command =
    | Deploys(configs: map<ModelKey, Config>, now: int, failing: set<Slot>)
    | Withdraws(model: ModelKey, which: Option<ReplicaId>, now: int, failing: set<Slot>)
    | Nodes(alive: map<NodeId, Capacity>)
    | FailsLate(record: Deployment)

  /** The state an apply leaves, the operations in `failing` having failed: the
      cluster's, less the replicas whose cache, restore or create was one of them. */
  predicate AppliedBut(was: Applied, now: Applied, failing: set<Slot>, state: Applied) {
    var d := DeltaOf(was, now);
    state == now - ((d.cache.Keys + d.restore.Keys + d.create.Keys) * failing)
  }

  /** The events after `before` are operations of one apply, none given up but
      those in `failing`. */
  predicate Applies(before: seq<Event>, events: seq<Event>, failing: set<Slot>) {
    before <= events
    && forall i :: |before| <= i < |events| ==> events[i].Ran? || (events[i].GaveUp? && events[i].slot in failing)
  }

  /** The cluster's part of a call left `called`, and an apply followed. */
  ghost predicate AppliedCall(models: set<ModelKey>, now: int, called: ClusterState, failing: set<Slot>,
                              past: seq<Event>, events: seq<Event>) {
    exists popped :: Applies(past + [Called(models, now, called, popped)], events, failing)
  }

  /** None of the configs up to one that trips, or to the last, could be placed. */
  ghost predicate NothingPlaceable(configs: map<ModelKey, Config>, now: int, c: ClusterState) {
    exists todo, reached: nat :: Lists(configs, todo) && Descending(todo) && StopsAt(configs, now, c, todo, reached)
  }

  ghost predicate StopsAt(configs: map<ModelKey, Config>, now: int, c: ClusterState, todo: seq<Entry>, reached: nat) {
    && reached <= |todo| && AllIdle(configs, now, c, todo[..reached])
    && (reached < |todo| ==> todo[reached].model in configs && Trips(c, configs[todo[reached].model]))
  }

  ghost predicate PlacesSome(configs: map<ModelKey, Config>, now: int, c: ClusterState, called: ClusterState) {
    exists evicted, placed :: placed != {} && Progress(configs.Keys, AnyPinned(configs), now, c, called, evicted, placed)
  }

  predicate TripsAny(configs: map<ModelKey, Config>, c: ClusterState) {
    exists m :: m in configs && Trips(c, configs[m])
  }

  /** What a deploy of `configs` adds to the run: nothing only if nothing could be
      placed; otherwise its placements, applied unless some config trips. */
  ghost predicate Deployed(configs: map<ModelKey, Config>, now: int, failing: set<Slot>, past: seq<Event>, events: seq<Event>) {
    var c := After(past).cluster;
    || (events == past && NothingPlaceable(configs, now, c))
    || exists called :: PlacesSome(configs, now, c, called) && AddsCall(configs, now, failing, c, called, past, events)
  }

  ghost predicate AddsCall(configs: map<ModelKey, Config>, now: int, failing: set<Slot>, c: ClusterState, called: ClusterState,
                           past: seq<Event>, events: seq<Event>) {
    if TripsAny(configs, c) then events == past + [RaisedPartWay(configs.Keys, now, called)]
    else AppliedCall(configs.Keys, now, called, failing, past, events)
  }

  /** What the cluster's own eviction does, and reports. */
  ghost predicate EvictsAs(model: ModelKey, which: Option<ReplicaId>, now: int, c: ClusterState, called: ClusterState, seen: seq<Key>) {
    match which
    case Some(replica) => EvictedNamed(Key(model, replica), now, c, called, seen)
    case None =>
      && Seen(None, model, c, c.nodes.Keys, seen) && called.nodes.Keys == c.nodes.Keys
      && forall id :: id in c.nodes ==> Purged(model, c.nodes[id], called.nodes[id])
  }

  /** What an eviction adds: nothing exactly if nothing was there to evict. */
  ghost predicate Withdrawn(model: ModelKey, which: Option<ReplicaId>, now: int, failing: set<Slot>,
                            past: seq<Event>, events: seq<Event>) {
    exists called, seen ::
      && EvictsAs(model, which, now, After(past).cluster, called, seen)
      && if seen == [] then events == past else AppliedCall({}, now, called, failing, past, events)
  }

  ghost predicate Handled(command: Command, minAge: Option<int>, past: seq<Event>, events: seq<Event>) {
    match command
    case Deploys(configs, now, failing) => Deployed(configs, now, failing, past, events)
    case Withdraws(model, which, now, failing) => Withdrawn(model, which, now, failing, past, events)
    case Nodes(alive) => events == past + [NodesSeen(alive, minAge)]
    case FailsLate(d) => events == past + [FailedLate(d)]
  }

  /** The commands were handled, each once, one after another. */
  ghost predicate Served(commands: seq<Command>, minAge: Option<int>, past: seq<Event>, events: seq<Event>) {
    if commands == [] then events == past
    else
      var last := |commands| - 1;
      exists mid :: Served(commands[..last], minAge, past, mid) && Handled(commands[last], minAge, mid, events)
  }

  lemma ServedNone(commands: seq<Command>, minAge: Option<int>, past: seq<Event>)
    ensures Served(commands[..0], minAge, past, past)
  {
  }

  lemma ServedOne(commands: seq<Command>, i: nat, minAge: Option<int>, past: seq<Event>, mid: seq<Event>, events: seq<Event>)
    requires i < |commands| && Served(commands[..i], minAge, past, mid) && Handled(commands[i], minAge, mid, events)
    ensures Served(commands[..i + 1], minAge, past, events)
  {
    hide Handled;
    assert commands[..i + 1][..i] == commands[..i];
  }

  /** What stops the model: a booking that may credit cards, or a record that is not
      current, not its replica's, or not of this node's cards. */
  predicate Stops(command: Command, c: ClusterState) {
    match command
    case Deploys(configs, now, _) => SomeCredits(configs, now, c)
    case Withdraws(_, _, _, _) => false
    case Nodes(_) => false
    case FailsLate(d) => !Handed(c, d) || !AtHome(c, d) || !FitsOn(c, d)
  }

  predicate FitsOn(c: ClusterState, d: Deployment) {
    d.node in c.nodes && d.key in c.nodes[d.node].hot ==> OnCards(d.gpus, |c.nodes[d.node].free|)
  }

  lemma AppliesCalmly(before: seq<Event>, events: seq<Event>, failing: set<Slot>)
    requires Applies(before, events, failing)
    ensures Calm(events) <==> Calm(before)
  {
    if Calm(before) {
      forall e | e in events ensures !e.RaisedPartWay? {
        var i :| 0 <= i < |events| && events[i] == e;
        assert i < |before| ==> events[i] == before[i];
      }
    }
    if Calm(events) {
      forall e | e in before ensures !e.RaisedPartWay? {
        var i :| 0 <= i < |before| && before[i] == e;
        assert events[i] == e;
      }
    }
  }

  class Controller {
    const cluster: Cluster
    var state: Applied
    var actors: World
    ghost var pending: Delta           // what is left of the apply in progress
    ghost var events: seq<Event>       // everything that has happened

    ghost function Now(): Ctl
      reads this, cluster, cluster.nodes.Values
    {
      Ctl(cluster.View(), state, pending, actors)
    }

    /** The controller is where the run so far has brought it. */
    ghost predicate Valid()
      reads this, cluster, cluster.nodes.Values
    {
      IsRun(events) && After(events) == Now()
    }

    /** Between calls: nothing is outstanding. */
    ghost predicate AtRest()
      reads this, cluster, cluster.nodes.Values
    {
      Valid() && pending == NOTHING
    }

    /** The last-applied state covers the cluster, and the live actors are its own. */
    ghost predicate InStep()
      reads this, cluster, cluster.nodes.Values
    {
      && ControllerInv(cluster.View(), state) && HomesUnique(Contents(cluster.View()))
      && actors == Describe(Contents(cluster.View()))
    }

    lemma Knows()
      requires Valid()
      ensures Tracked(Now(), Unapplied(events)) && cluster.Valid() && RoomIsRealEverywhere(cluster.View())
      ensures Calm(events) ==> ControllerInv(cluster.View(), state) && Unapplied(events) == {}
      ensures Calm(events) && pending == NOTHING ==> InStep()
    {
      RunTracks(events);
      SoundIsReal(cluster.View());
      if Calm(events) {
        NoPopEverMisses(events);
        CalmIsApplied(events);
        ActorsFollowTheCluster(events);
      }
      hide IsRun, After, Missing, ControllerInv, Contents, Describe;
    }

    constructor (cluster: Cluster)
      requires cluster.Valid()
      requires cluster.View() == ClusterState(map[], 0)
      ensures this.cluster == cluster && AtRest() && events == [] && state == map[] && actors == map[]
    {
      this.cluster := cluster;
      state, actors, pending, events := map[], map[], NOTHING, [];
    }

    /** The record of a slot, out of the node that holds it. */
    function Lookup(a: Slot): Deployment
      reads cluster, cluster.nodes.Values
      requires a.node in cluster.nodes
      requires a.key in cluster.nodes[a.node].deployments || a.key in cluster.nodes[a.node].cache
    {
      var node := cluster.nodes[a.node];
      if a.key in node.deployments then node.deployments[a.key] else node.cache[a.key]
    }

    lemma LooksUp(a: Slot)
      requires cluster.Valid() && a in Contents(cluster.View())
      ensures a.node in cluster.nodes
      ensures a.key in cluster.nodes[a.node].deployments || a.key in cluster.nodes[a.node].cache
      ensures Lookup(a) == Contents(cluster.View())[a]
      ensures a in Slots(cluster.View())
      ensures IsWarm(cluster.View(), a) <==> Lookup(a).level == Warm
    {
      hide ClusterInv, Slots, Contents;
      WalkedSlot(cluster.View(), a);
    }

    /** `build`: every replica of every node popped from the last-applied state
        and put on its list, what is left over deleted. It fails exactly when a
        WARM replica is not there to be popped. */
    method Build() returns (delta: Delta, missed: bool, ghost popped: set<Slot>)
      requires cluster.Valid()
      modifies this`state
      ensures missed <==> !WarmKnown(old(state), cluster.View())
      ensures missed ==> state == old(state) - popped && popped <= Slots(cluster.View())
      ensures !missed ==> state == Contents(cluster.View()) && delta == DeltaOf(old(state), Contents(cluster.View()))
    {
      hide ClusterInv, Halfway, Contents, DeltaOf, Sorted, Slots, Elements, Distinct;
      ghost var c, was, now := cluster.View(), state, Contents(cluster.View());
      var walk := Listing(Slots(cluster.View()));
      var newer: Applied := map[];
      delta := Delta(map[], map[], map[], map[]);
      missed, popped := false, {};
      ContentsKeys(c);
      ElementsEnds(walk);
      HalfwayEnds(was, now);
      for i := 0 to |walk|
        invariant Halfway(was, now, Elements(walk[..i]), state, newer, delta)
        invariant Elements(walk[..i]) <= Slots(c)
        invariant forall a :: a in Elements(walk[..i]) && IsWarm(c, a) ==> a in was
      {
        var a := walk[i];
        ElementsGrow(walk, i);
        LooksUp(a);
        var record := Lookup(a);
        var existing := if a in state then Some(state[a]) else None;
        if record.level == Warm && existing.None? {
          popped := Elements(walk[..i]);
          NotKnown(was, now, popped, state, newer, delta, a);
          missed := true;
          return;
        }
        HalfwayStep(was, now, Elements(walk[..i]), state, newer, delta, a);
        delta, newer, state := Sorted(delta, existing, a, record), newer[a := record], state - {a};
      }
      delta := delta.(delete := state);
      state := newer;
    }

    lemma NotKnown(was: Applied, now: Applied, done: set<Slot>, left: Applied, newer: Applied, d: Delta, a: Slot)
      requires Halfway(was, now, done, left, newer, d) && a !in done && a !in left
      ensures a !in was && left == was - done
    {
    }

    /** `_remove_deployment_from_state`. */
    method RemoveDeployment(d: Deployment)
      requires cluster.Valid()
      requires d.node in cluster.nodes && d.key in cluster.nodes[d.node].deployments ==>
                 OnCards(d.gpus, |cluster.nodes[d.node].free|)
      modifies this`state, cluster.nodes.Values
      ensures state == old(state) - {At(d.node, d.key)}
      ensures cluster.View() == Dropped(old(cluster.View()), d)
    {
      hide ClusterInv, WithoutRecord;
      ghost var c := cluster.View();
      cluster.NodesNamed();
      state := state - {At(d.node, d.key)};
      if d.node in cluster.nodes {
        cluster.nodes[d.node].Forget(d);
        cluster.SameNodes(Dropped(c, d).nodes);
      }
    }

    /** One operation of `apply` that failed: its actor is killed, its replica
        dropped everywhere. */
    method GiveUp(a: Slot)
      requires Valid() && cluster.Valid() && state == Contents(cluster.View()) && a in state
      requires Due(pending, a) && a !in pending.delete
      modifies this, cluster.nodes.Values
      ensures Valid() && cluster.Valid() && state == Contents(cluster.View()) && state == old(state) - {a}
      ensures pending == Without(old(pending), {a}) && events == old(events) + [GaveUp(a)]
    {
      hide ClusterInv, Contents, Slots, Dropped, IsRun, After, Due, Without, IsWarm, OnCards, Next;
      LooksUp(a);
      var d := Lookup(a);
      ghost var s := Now();
      GivesUp(events, s, a);
      actors := actors - {a.key};
      pending, events := Without(pending, {a}), events + [GaveUp(a)];
      RemoveDeployment(d);
    }

    lemma GivesUp(events: seq<Event>, s: Ctl, a: Slot)
      requires IsRun(events) && After(events) == s && ClusterInv(s.cluster) && a in Contents(s.cluster)
      requires Due(s.pending, a) && a !in s.pending.delete
      ensures var d := Contents(s.cluster)[a];
        && IsRun(events + [GaveUp(a)]) && ClusterInv(Dropped(s.cluster, d)) && At(d.node, d.key) == a
        && After(events + [GaveUp(a)])
           == Ctl(Dropped(s.cluster, d), s.state - {a}, Without(s.pending, {a}), s.actors - {a.key})
        && Contents(Dropped(s.cluster, d)) == Contents(s.cluster) - {a}
        && (d.node in s.cluster.nodes && d.key in s.cluster.nodes[d.node].hot ==>
              OnCards(d.gpus, |s.cluster.nodes[d.node].free|))
    {
      hide ClusterInv, Contents, Dropped, IsRun, After, Due, Handed, Without, OnCards;
      OwnRecord(s.cluster, a);
      DroppedKeepsIff(s.cluster, Contents(s.cluster)[a]);
      DroppedContents(s.cluster, Contents(s.cluster)[a]);
      RunExtends(events, GaveUp(a));
    }

    /** One operation of `apply` that went through. */
    method RunOne(d: Delta, a: Slot)
      requires Valid() && Due(pending, a) && a in Touched(d) && OpAt(pending, a) == OpAt(d, a)
      modifies this`actors, this`pending, this`events
      ensures Valid() && pending == Without(old(pending), {a}) && events == old(events) + [Ran(a)]
    {
      hide IsRun, After, Due, OpAt, Exec;
      RunExtends(events, Ran(a));
      assert a in Touched(pending) by { IsTouched(pending, a); }
      actors := Performed(actors, d, a);
      pending, events := Without(pending, {a}), events + [Ran(a)];
    }

    /** One list of the delta, operation by operation, giving up on those in
        `failing`; `done` have been run before. */
    method RunList(d: Delta, ops: set<Slot>, failing: set<Slot>, ghost done: set<Slot>)
      requires Valid() && cluster.Valid() && state == Contents(cluster.View())
      requires pending == Without(d, done) && MayRun(d, ops, done)
      requires ops * failing <= state.Keys && ops * failing !! d.delete.Keys
      modifies this, cluster.nodes.Values
      ensures Valid() && cluster.Valid() && state == Contents(cluster.View()) && state == old(state) - (ops * failing)
      ensures pending == Without(d, done + ops) && Applies(old(events), events, failing)
    {
      hide IsRun, After, Contents, Elements, Distinct, ClusterInv, Without, MayRun, Touched, OpAt, Due, Applies;
      var order := Listing(ops);
      ElementsEnds(order);
      AppliesNothing(events, failing);
      assert done + {} == done;
      for i := 0 to |order|
        invariant Valid() && cluster.Valid() && state == Contents(cluster.View()) && Elements(order[..i]) <= ops
        invariant state == old(state) - (Elements(order[..i]) * failing)
        invariant pending == Without(d, done + Elements(order[..i])) && Applies(old(events), events, failing)
      {
        var a := order[i];
        ElementsGrow(order, i);
        NextIsDue(d, ops, done, Elements(order[..i]), a);
        ghost var mid := events;
        RunNext(d, a, failing);
        AppliesOn(old(events), mid, events, failing);
        FailedSoFar(old(state), Elements(order[..i]), a, failing);
        assert done + Elements(order[..i]) + {a} == done + Elements(order[..i + 1]);
      }
    }

    method RunNext(d: Delta, a: Slot, failing: set<Slot>)
      requires Valid() && cluster.Valid() && state == Contents(cluster.View())
      requires Due(pending, a) && a in Touched(d) && OpAt(pending, a) == OpAt(d, a)
      requires a in failing ==> a in state && a !in pending.delete
      modifies this, cluster.nodes.Values
      ensures Valid() && cluster.Valid() && state == Contents(cluster.View()) && state == old(state) - ({a} * failing)
      ensures pending == Without(old(pending), {a}) && Applies(old(events), events, failing)
    {
      hide IsRun, After, Contents, ClusterInv, Without, Touched, OpAt, Due;
      if a in failing {
        GiveUp(a);
        assert {a} * failing == {a};
      } else {
        RunOne(d, a);
        assert {a} * failing == {};
      }
    }

    /** `apply`: the state becomes the cluster, less the replicas whose cache,
        restore or create failed, which are gone from both. Every operation of the
        delta is run once, deletes and caches before restores and creates. */
    method Apply(failing: set<Slot>, ghost models: set<ModelKey>, ghost now: int, ghost before: ClusterState)
        returns (missed: bool)
      requires IsRun(events) && After(events) == Ctl(before, state, NOTHING, actors) && pending == NOTHING
      requires CallMoves(models, now, before, cluster.View()) && cluster.Valid()
      modifies this, cluster.nodes.Values
      ensures AtRest()
      ensures missed <==> exists a :: a in Unapplied(old(events)) && IsWarm(old(cluster.View()), a)
      ensures missed ==> cluster.View() == old(cluster.View()) && actors == old(actors)
      ensures !missed ==>
        state == Contents(cluster.View()) && AppliedBut(old(state), Contents(old(cluster.View())), failing, state)
      ensures AppliedCall(models, now, old(cluster.View()), failing, old(events), events)
    {
      hide ClusterInv, Contents, WarmKnown, DeltaOf, IsRun, After, CallMoves, Unapplied, IsWarm, Slots;
      ghost var c, was := cluster.View(), state;
      ghost var popped;
      RunTracks(events);
      var delta;
      delta, missed, popped := Build();
      ghost var call := Called(models, now, c, if missed then popped else {});
      CalledTracks(After(events), call, Unapplied(events));
      RunExtends(events, call);
      events := events + [call];
      AppliesNothing(events, failing);
      if missed {
        return;
      }
      pending := delta;
      RunDelta(delta, was, failing);
    }

    /** The four loops of `apply`. */
    method RunDelta(d: Delta, ghost was: Applied, failing: set<Slot>)
      requires Valid() && cluster.Valid() && state == Contents(cluster.View())
      requires pending == d && d == DeltaOf(was, state)
      modifies this, cluster.nodes.Values
      ensures AtRest() && state == Contents(cluster.View())
      ensures state == old(state) - ((d.cache.Keys + d.restore.Keys + d.create.Keys) * failing)
      ensures Applies(old(events), events, failing)
    {
      hide IsRun, After, Contents, ClusterInv, DeltaOf, MayRun, Applies, Without, ListsApart;
      ListsDisjoint(was, state);
      OnOneListOnly(was, state, failing);
      OneListAtATime(d);
      FailuresFit(d, state, failing);
      ghost var first := events;
      RunList(d, d.delete.Keys, {}, {});
      assert state == old(state);
      ghost var second := events;
      RunList(d, d.cache.Keys, failing, d.delete.Keys);
      ghost var third := events;
      RunList(d, d.restore.Keys, failing, d.delete.Keys + d.cache.Keys);
      ghost var fourth := events;
      RunList(d, d.create.Keys, failing, d.delete.Keys + d.cache.Keys + d.restore.Keys);
      AppliesWider(first, second, failing);
      AppliesOn(first, second, third, failing);
      AppliesOn(first, third, fourth, failing);
      AppliesOn(first, fourth, events, failing);
    }

    /** What the cluster's part of a deploy has come to. */
    ghost predicate HasDeployed(configs: map<ModelKey, Config>, now: int, before: ClusterState, r: Response,
                                todo: seq<Entry>, reached: nat)
      reads this, cluster, cluster.nodes.Values
    {
      && IsRun(events) && After(events) == Ctl(before, state, NOTHING, actors) && pending == NOTHING && cluster.Valid()
      && Progress(configs.Keys, AnyPinned(configs), now, before, cluster.View(), r.evictions, Reported(r.results))
      && (r.change <==> Reported(r.results) != {}) && (!r.change ==> cluster.View() == before)
      && Lists(configs, todo) && Descending(todo) && reached <= |todo|
      && (r.change <==> !AllIdle(configs, now, before, todo[..reached]))
    }

    /** The exception leaves what the call had placed, if anything, unapplied. */
    ghost method Interrupt(configs: map<ModelKey, Config>, now: int, failing: set<Slot>, before: ClusterState, r: Response,
                           todo: seq<Entry>, reached: nat)
      requires HasDeployed(configs, now, before, r, todo, reached) && TripsAny(configs, before)
      requires reached < |todo| && todo[reached].model in configs && Trips(before, configs[todo[reached].model])
      modifies this`events
      ensures AtRest() && Deployed(configs, now, failing, old(events), events)
      ensures Calm(events) <==> Calm(old(events)) && !r.change
      ensures Calm(old(events)) ==> (ControllerInv(cluster.View(), state) <==> !r.change)
    {
      hide IsRun, After, CallMoves, ClusterInv, Calm, ControllerInv, Progress, Reported, AnyPinned, Lists, Descending, AllIdle, Deployed,
           TripsAny, Trips;
      var placed, called := Reported(r.results), cluster.View();
      ProgressMeans(configs.Keys, AnyPinned(configs), now, before, called, r.evictions, placed);
      if Calm(events) {
        NoPopEverMisses(events);
        TripKeepsIffNothingPlaced(before, state, configs.Keys, AnyPinned(configs), now, called, r.evictions, placed);
      }
      if r.change {
        var e := RaisedPartWay(configs.Keys, now, called);
        RunExtends(events, e);
        NotCalm(events, e);
        events := events + [e];
        SomeDeployed(configs, now, failing, old(events), events, called, r.evictions, placed);
      } else {
        NothingDeployed(configs, now, failing, events, todo, reached);
      }
    }

    /** What was placed is applied. */
    method Conclude(configs: map<ModelKey, Config>, now: int, failing: set<Slot>, ghost before: ClusterState, r: Response,
                    ghost todo: seq<Entry>) returns (missed: bool)
      requires HasDeployed(configs, now, before, r, todo, |todo|) && !TripsAny(configs, before)
      modifies this, cluster.nodes.Values
      ensures AtRest() && Deployed(configs, now, failing, old(events), events)
      ensures missed <==> r.change && exists a :: a in Unapplied(old(events)) && IsWarm(old(cluster.View()), a)
      ensures !missed && r.change ==>
        state == Contents(cluster.View()) && AppliedBut(old(state), Contents(old(cluster.View())), failing, state)
      ensures missed || !r.change ==> cluster.View() == old(cluster.View())
      ensures !r.change ==> state == old(state) && actors == old(actors)
      ensures Calm(events) <==> Calm(old(events))
    {
      hide IsRun, After, CallMoves, ClusterInv, Calm, ControllerInv, Progress, Reported, AnyPinned, Lists, Descending, AllIdle, Deployed,
           TripsAny, Trips, Unapplied, IsWarm, Contents, AppliedBut, AppliedCall;
      ghost var past, called, placed := events, cluster.View(), Reported(r.results);
      missed := false;
      if r.change {
        ProgressMeans(configs.Keys, AnyPinned(configs), now, before, called, r.evictions, placed);
        missed := Apply(failing, configs.Keys, now, before);
        CallsCalmly(past, events, configs.Keys, now, called, failing);
        SomeDeployed(configs, now, failing, past, events, called, r.evictions, placed);
      } else {
        NothingDeployed(configs, now, failing, past, todo, |todo|);
      }
    }

    /** `_deploy`: a call that changed something is applied. A `pop` misses exactly
        when the call leaves WARM some replica that no apply has seen. A deploy that
        raises leaves everything in step exactly when none of the configs it had
        dealt with could be placed to begin with, and calls that do not raise keep
        it so. */
    method Deploy(configs: map<ModelKey, Config>, now: int, failing: set<Slot>)
        returns (r: Response, ending: Ending, missed: bool, ghost called: ClusterState, ghost todo: seq<Entry>, ghost reached: nat)
      requires AtRest()
      modifies this, cluster`issued, cluster.nodes.Values
      ensures cluster.nodes == old(cluster.nodes) && reached <= |todo|
      ensures ending.Credited? <==> !cluster.Valid()
      ensures ending.Credited? <==> !RoomIsRealEverywhere(cluster.View())
      ensures ending.Credited? ==> SomeCredits(configs, now, old(cluster.View())) && events == old(events) && !missed
      ensures !ending.Credited? ==> Deployed(configs, now, failing, old(events), events)
      ensures !ending.Credited? ==>
        && AtRest() && (ending.ZeroCards? <==> exists m :: m in configs && Trips(old(cluster.View()), configs[m]))
        && Progress(configs.Keys, AnyPinned(configs), now, old(cluster.View()), called, r.evictions, Reported(r.results))
      ensures ending.ZeroCards? ==>
        && !missed && state == old(state) && actors == old(actors) && cluster.View() == called
        && (r.change <==> !AllIdle(configs, now, old(cluster.View()), todo[..reached]))
        && (Calm(events) <==> Calm(old(events)) && AllIdle(configs, now, old(cluster.View()), todo[..reached]))
        && (Calm(old(events)) ==>
              (ControllerInv(cluster.View(), state) <==> AllIdle(configs, now, old(cluster.View()), todo[..reached])))
      ensures ending.Finished? ==>
        && (missed <==> r.change && exists a :: a in Unapplied(old(events)) && IsWarm(called, a))
        && (!missed && r.change ==>
              state == Contents(cluster.View()) && AppliedBut(old(state), Contents(called), failing, state))
        && (missed ==> cluster.View() == called)
        && (!r.change ==> cluster.View() == called && state == old(state) && actors == old(actors))
        && r.results.Keys == configs.Keys && AllAnswered(configs, r.results)
        && (Calm(events) <==> Calm(old(events)))
      ensures !ending.Credited? && Calm(events) ==> !missed && InStep()
    {
      hide CallMoves, ClusterInv, ControllerInv, Contents, Trips, Reported, Tracked, AppliedBut, AllAnswered, AnyPinned,
           IsRun, After, Unapplied, IsWarm, AllIdle, Calm, SomeCredits, Progress, InStep, RoomIsRealEverywhere, Lists, Descending,
           Deployed;
      ghost var c := cluster.View();
      Knows();
      ghost var trace;
      r, ending, todo, reached, trace := cluster.Deploy(configs, now);
      missed, called := false, cluster.View();
      if ending.Credited? {
        return;
      }
      AllListed(configs, todo);
      if ending.ZeroCards? {
        Interrupt(configs, now, failing, c, r, todo, reached);
      } else {
        missed := Conclude(configs, now, failing, c, r, todo);
      }
      Knows();
    }

    /** `evict`: applied whenever something was evicted. */
    method Evict(model: ModelKey, which: Option<ReplicaId>, now: int, failing: set<Slot>)
        returns (seen: seq<Key>, missed: bool, ghost called: ClusterState)
      requires AtRest()
      modifies this, cluster.nodes.Values
      ensures AtRest() && cluster.nodes == old(cluster.nodes) && (Calm(events) <==> Calm(old(events)))
      ensures missed <==> seen != [] && exists a :: a in Unapplied(old(events)) && IsWarm(called, a)
      ensures seen == [] ==> state == old(state) && actors == old(actors) && called == old(cluster.View())
      ensures seen == [] || missed ==> cluster.View() == called
      ensures which.Some? ==> EvictedNamed(Key(model, which.value), now, old(cluster.View()), called, seen)
      ensures which.None? ==> Seen(None, model, old(cluster.View()), old(cluster.View()).nodes.Keys, seen)
      ensures which.None? ==> forall a :: a in Contents(cluster.View()) ==> a.key.model != model
      ensures !missed && seen != [] ==>
        state == Contents(cluster.View()) && AppliedBut(old(state), Contents(called), failing, state)
      ensures Calm(old(events)) ==> !missed && InStep()
      ensures Withdrawn(model, which, now, failing, old(events), events)
    {
      hide CallMoves, ClusterInv, Contents, EvictedAcross, Purged, EvictedNamed, Seen, IsRun, After, Unapplied, IsWarm,
           Calm, InStep, Tracked, ControllerInv;
      ghost var c, past := cluster.View(), events;
      Knows();
      seen := cluster.Evict(model, which, now);
      missed, called := false, cluster.View();
      if which.None? {
        NoneLeft(c, called, model);
      }
      if seen != [] {
        missed := Apply(failing, {}, now, c);
        CallsCalmly(past, events, {}, now, called, failing);
      }
      assert EvictsAs(model, which, now, c, called, seen);
      Knows();
    }

    /** `purge`, for every node that left: kills what is registered there. */
    method Purge(alive: set<NodeId>)
      modifies this`actors
      ensures actors == old(actors) - Purgeable(cluster.View(), alive)
    {
      hide Slots;
      var gone := Listing(set a | a in Slots(cluster.View()) && a.node !in alive);
      for i := 0 to |gone|
        invariant actors == old(actors) - KeysOf(gone[..i])
      {
        NextKey(gone, i);
        actors := actors - {gone[i].key};
      }
      PurgedKeys(cluster.View(), alive, gone);
      assert gone[..|gone|] == gone;
    }

    /** The periodic node update: the actors of a node that left are killed, and
        nothing is applied. */
    method UpdateNodes(alive: map<NodeId, Capacity>)
      requires AtRest() && Usable(alive)
      modifies this, cluster`nodes
      ensures AtRest() && state == old(state) && cluster.View() == Synced(old(cluster.View()), alive, cluster.minAge)
      ensures events == old(events) + [NodesSeen(alive, cluster.minAge)] && (Calm(events) <==> Calm(old(events)))
      ensures Calm(old(events)) ==> InStep()
      ensures forall n :: n in cluster.nodes.Values ==> fresh(n) || n in old(cluster.nodes.Values)
    {
      hide ClusterInv, IsRun, After, Slots, Calm, InStep, Synced;
      Knows();
      ghost var before := cluster.nodes;
      ghost var e := NodesSeen(alive, cluster.minAge);
      RunExtends(events, e);
      Purge(alive.Keys);
      cluster.UpdateNodes(alive);
      events := events + [e];
      CalmGrows(old(events), e);
      Knows();
      forall n: Node | n in cluster.nodes.Values ensures fresh(n) || n in before.Values {
        var j := KeyOf(cluster.nodes, n);
      }
    }

    /** A failed operation reported later, by whoever awaited it: the actor is
        killed and the replica dropped as its record has it, which leaves the
        ledgers exact if and only if the record is still current. */
    method Fails(d: Deployment)
      requires AtRest() && FitsCards(d)
      modifies this, cluster.nodes.Values
      ensures cluster.nodes == old(cluster.nodes) && cluster.View() == Dropped(old(cluster.View()), d)
      ensures state == old(state) - {At(d.node, d.key)} && actors == old(actors) - {d.key}
      ensures cluster.Valid() <==> Handed(old(cluster.View()), d)
      ensures Handed(old(cluster.View()), d) && AtHome(old(cluster.View()), d) ==>
        && AtRest() && events == old(events) + [FailedLate(d)]
        && (Calm(events) <==> Calm(old(events))) && (Calm(old(events)) ==> InStep())
      ensures !Handed(old(cluster.View()), d) || !AtHome(old(cluster.View()), d) ==> events == old(events)
    {
      hide ClusterInv, Dropped, Handed, AtHome, IsRun, After, Calm, InStep;
      ghost var c, past := cluster.View(), events;
      Knows();
      DroppedKeepsIff(c, d);
      actors := actors - {d.key};
      RemoveDeployment(d);
      if Handed(c, d) && AtHome(c, d) {
        RunExtends(events, FailedLate(d));
        events := events + [FailedLate(d)];
        CalmGrows(past, FailedLate(d));
        Knows();
      }
    }

    /** Any sequence of deploys, evictions, node updates and late failures, up to a
        booking that credits cards or a record that is no longer current: each is
        handled once, in order, deploys that raise and `pop`s that miss included, the
        controller goes where the run it has recorded goes, and as long as no raised
        deploy has placed anything no `pop` misses and everything is in step. */
    method Serve(commands: seq<Command>) returns (served: nat)
      requires AtRest()
      requires forall i :: 0 <= i < |commands| && commands[i].Nodes? ==> Usable(commands[i].alive)
      modifies this, cluster, cluster.nodes.Values
      ensures served <= |commands| && Served(commands[..served], cluster.minAge, old(events), events)
      ensures served == |commands| ==> AtRest() && cluster.Valid() && (Calm(events) ==> InStep())
      ensures Calm(events) ==> forall i :: 0 <= i < |events| ==> !Misses(After(events[..i]), events[i])
      ensures served < |commands| ==> Stops(commands[served], After(events).cluster)
    {
      hide ControllerInv, Handed, Trips, Reported, IsRun, After, Calm, InStep, Unapplied, IsWarm, Contents, Progress, ClusterInv, AllIdle,
           EvictedNamed, Seen, Synced, Dropped, SomeCredits, AtHome, AppliedBut, AllAnswered, Tracked, Served, Deployed, Withdrawn,
           RoomIsRealEverywhere;
      served := 0;
      Knows();
      ServedNone(commands, cluster.minAge, events);
      while served < |commands|
        invariant served <= |commands| && AtRest() && cluster.Valid()
        invariant Served(commands[..served], cluster.minAge, old(events), events)
        invariant Calm(events) ==> InStep()
        invariant forall n :: n in cluster.nodes.Values ==> fresh(n) || n in old(cluster.nodes.Values)
        decreases |commands| - served
      {
        ghost var past := events;
        var stopped := ServeOne(commands[served]);
        if stopped {
          MissesNothing(past);
          return;
        }
        ServedOne(commands, served, cluster.minAge, old(events), past, events);
        served := served + 1;
        Knows();
      }
      MissesNothing(events);
    }

    lemma MissesNothing(events: seq<Event>)
      requires IsRun(events)
      ensures Calm(events) ==> forall i :: 0 <= i < |events| ==> !Misses(After(events[..i]), events[i])
    {
      if Calm(events) {
        NoPopEverMisses(events);
      }
    }

    method ServeOne(command: Command) returns (stopped: bool)
      requires AtRest() && cluster.Valid() && (command.Nodes? ==> Usable(command.alive))
      modifies this, cluster, cluster.nodes.Values
      ensures stopped ==> events == old(events) && Stops(command, After(events).cluster)
      ensures !stopped ==> AtRest() && Handled(command, cluster.minAge, old(events), events)
      ensures forall n :: n in cluster.nodes.Values ==> fresh(n) || n in old(cluster.nodes.Values)
    {
      hide ControllerInv, Handed, Trips, Reported, IsRun, After, Calm, InStep, Unapplied, IsWarm, Contents, Progress, ClusterInv, AllIdle,
           EvictedNamed, Seen, Synced, Dropped, SomeCredits, AtHome, AppliedBut, AllAnswered, Tracked, Deployed, Withdrawn,
           RoomIsRealEverywhere;
      stopped := false;
      match command
      case Deploys(configs, now, failing) =>
        var r, ending, missed;
        ghost var called, todo, reached;
        r, ending, missed, called, todo, reached := Deploy(configs, now, failing);
        stopped := ending.Credited?;
      case Withdraws(model, which, now, failing) =>
        var seen, missed;
        ghost var called;
        seen, missed, called := Evict(model, which, now, failing);
      case Nodes(alive) => UpdateNodes(alive);
      case FailsLate(d) =>
        if !FitsCards(d) {
          stopped := true;
          return;
        }
        stopped := !Handed(cluster.View(), d) || !AtHome(cluster.View(), d);
        Fails(d);
    }

    predicate FitsCards(d: Deployment)
      reads cluster, cluster.nodes.Values
    {
      d.node in cluster.nodes && d.key in cluster.nodes[d.node].deployments ==>
        OnCards(d.gpus, |cluster.nodes[d.node].free|)
    }
  }

  lemma ProgressMeans(models: set<ModelKey>, pinned: bool, now: int, c: ClusterState, c': ClusterState,
                      evicted: set<Key>, placed: set<Key>)
    requires Progress(models, pinned, now, c, c', evicted, placed)
    ensures CallMoves(models, now, c, c') && ClusterInv(c')
  {
  }

  lemma CalmGrows(events: seq<Event>, e: Event)
    requires !e.RaisedPartWay?
    ensures Calm(events + [e]) <==> Calm(events)
  {
  }

  lemma NotCalm(events: seq<Event>, e: Event)
    requires e.RaisedPartWay?
    ensures !Calm(events + [e])
  {
    assert e in events + [e];
  }

  lemma CallsCalmly(past: seq<Event>, events: seq<Event>, models: set<ModelKey>, now: int, called: ClusterState, failing: set<Slot>)
    requires AppliedCall(models, now, called, failing, past, events)
    ensures Calm(events) <==> Calm(past)
  {
    var popped :| Applies(past + [Called(models, now, called, popped)], events, failing);
    CalmGrows(past, Called(models, now, called, popped));
    AppliesCalmly(past + [Called(models, now, called, popped)], events, failing);
  }

  lemma NothingDeployed(configs: map<ModelKey, Config>, now: int, failing: set<Slot>, past: seq<Event>, todo: seq<Entry>, reached: nat)
    requires Lists(configs, todo) && Descending(todo) && StopsAt(configs, now, After(past).cluster, todo, reached)
    ensures Deployed(configs, now, failing, past, past)
  {
    hide Lists, Descending, StopsAt, After;
  }

  lemma SomeDeployed(configs: map<ModelKey, Config>, now: int, failing: set<Slot>, past: seq<Event>, events: seq<Event>,
                     called: ClusterState, evicted: set<Key>, placed: set<Key>)
    requires placed != {} && Progress(configs.Keys, AnyPinned(configs), now, After(past).cluster, called, evicted, placed)
    requires AddsCall(configs, now, failing, After(past).cluster, called, past, events)
    ensures Deployed(configs, now, failing, past, events)
  {
    hide Progress, AddsCall, After, AnyPinned;
    assert PlacesSome(configs, now, After(past).cluster, called);
  }

  function KeysOf(slots: seq<Slot>): set<Key> {
    set a | a in slots :: a.key
  }

  lemma NextKey(slots: seq<Slot>, i: nat)
    requires i < |slots|
    ensures KeysOf(slots[..i + 1]) == KeysOf(slots[..i]) + {slots[i].key} && KeysOf(slots[..0]) == {}
  {
    assert slots[..i + 1] == slots[..i] + [slots[i]];
  }

  lemma PurgedKeys(c: ClusterState, alive: set<NodeId>, gone: seq<Slot>)
    requires forall a :: a in gone <==> a in Slots(c) && a.node !in alive
    ensures KeysOf(gone) == Purgeable(c, alive)
  {
    hide Slots;
  }

  /** The operations `ops` of `d` can be run once `done` have. */
  predicate MayRun(d: Delta, ops: set<Slot>, done: set<Slot>) {
    && ops <= Touched(d) && ops !! done && ListsApart(d)
    && ((exists a :: a in ops && (a in d.restore || a in d.create)) ==> d.delete.Keys + d.cache.Keys <= done)
  }

  lemma NextIsDue(d: Delta, ops: set<Slot>, done: set<Slot>, run: set<Slot>, a: Slot)
    requires MayRun(d, ops, done) && a in ops && a !in run && run <= ops
    ensures var p := Without(d, done + run);
      && Due(p, a) && a in Touched(d) && OpAt(p, a) == OpAt(d, a) && (a !in d.delete ==> a !in p.delete)
      && Without(p, {a}) == Without(d, done + run + {a})
  {
    hide ListsApart;
    WithoutKeys(d, done + run);
    WithoutMore(d, done + run, {a});
    var p := Without(d, done + run);
    if a in d.restore || a in d.create {
      assert p.delete.Keys == {} && p.cache.Keys == {};
    }
  }

  lemma FailedSoFar(m: Applied, run: set<Slot>, a: Slot, failing: set<Slot>)
    ensures (m - (run * failing)) - ({a} * failing) == m - ((run + {a}) * failing)
  {
    MinusTwice(m, run * failing, {a} * failing);
    assert run * failing + {a} * failing == (run + {a}) * failing;
  }

  lemma AppliesNothing(events: seq<Event>, failing: set<Slot>)
    ensures Applies(events, events, failing)
  {
  }

  lemma AppliesWider(a: seq<Event>, b: seq<Event>, failing: set<Slot>)
    requires Applies(a, b, {})
    ensures Applies(a, b, failing)
  {
  }

  lemma AppliesOn(a: seq<Event>, b: seq<Event>, c: seq<Event>, failing: set<Slot>)
    requires Applies(a, b, failing) && Applies(b, c, failing)
    ensures Applies(a, c, failing)
  {
    forall i | |a| <= i < |c| ensures c[i].Ran? || (c[i].GaveUp? && c[i].slot in failing) {
      assert i < |b| ==> c[i] == b[i];
    }
  }

  lemma FailuresFit(d: Delta, now: Applied, failing: set<Slot>)
    requires ListsApart(d)
    ensures d.cache.Keys * failing !! d.delete.Keys && d.restore.Keys * failing !! d.delete.Keys
    ensures d.create.Keys * failing !! d.delete.Keys
    ensures now - (d.delete.Keys * {}) == now
  {
    assert d.delete.Keys * {} == {};
  }

  lemma OneListAtATime(d: Delta)
    requires ListsApart(d)
    ensures Without(d, {}) == d && {} + d.delete.Keys == d.delete.Keys
    ensures MayRun(d, d.delete.Keys, {}) && MayRun(d, d.cache.Keys, d.delete.Keys)
    ensures MayRun(d, d.restore.Keys, d.delete.Keys + d.cache.Keys)
    ensures MayRun(d, d.create.Keys, d.delete.Keys + d.cache.Keys + d.restore.Keys)
    ensures Without(d, d.delete.Keys + d.cache.Keys + d.restore.Keys + d.create.Keys) == NOTHING
  {
  }

  lemma NoneLeft(c: ClusterState, c': ClusterState, model: ModelKey)
    requires c'.nodes.Keys == c.nodes.Keys
    requires forall id :: id in c.nodes ==> Purged(model, c.nodes[id], c'.nodes[id])
    ensures forall a :: a in Contents(c') ==> a.key.model != model
  {
    hide Contents;
    forall a | a in Contents(c') ensures a.key.model != model {
      ContentsMeaning(c', a);
      assert Purged(model, c.nodes[a.node], c'.nodes[a.node]);
    }
  }

  /** A replica is on at most one of the lists that can fail, so giving up on an
      operation of one list leaves the others' replicas alone. */
  lemma OnOneListOnly(state: Applied, now: Applied, failing: set<Slot>)
    ensures var d := DeltaOf(state, now);
      var now1 := now - (d.cache.Keys * failing);
      var now2 := now1 - (d.restore.Keys * failing);
      && d.cache.Keys <= now.Keys && d.restore.Keys <= now1.Keys && d.create.Keys <= now2.Keys
      && now2 - (d.create.Keys * failing) == now - ((d.cache.Keys + d.restore.Keys + d.create.Keys) * failing)
  {
    var d := DeltaOf(state, now);
    assert d.cache.Keys !! d.restore.Keys !! d.create.Keys;
  }
}
