/** The cluster: which node a replica goes to, what a deploy call evicts and
    reports, eviction on request, and nodes coming and going
    (`cluster/cluster.py`). */
module ClusterPlacement {
  import opened Ordering
  import opened Sizing
  import opened Ledger
  import opened NodePlacement

  /** The cluster as a value. Every replica id handed out so far is below
      `issued`, so `issued` itself is a fresh one. */
  datatype ClusterState = ClusterState(nodes: map<NodeId, NodeState>, issued: nat)

  predicate IdsBelow(n: NodeState, issued: nat) {
    && (forall k :: k in n.hot ==> k.replica < issued)
    && (forall k :: k in n.warm ==> k.replica < issued)
  }

  /** Whether a node holds `k`, on its cards or parked. */
  predicate Holds(n: NodeState, k: Key) {
    k in n.hot || k in n.warm
  }

  /** A replica has one home: no two nodes hold the same key. */
  ghost predicate OneHomeEach(c: ClusterState) {
    forall i, j, k :: i in c.nodes && j in c.nodes && Holds(c.nodes[i], k) && Holds(c.nodes[j], k) ==> i == j
  }

  ghost predicate ClusterInv(c: ClusterState) {
    && (forall id :: id in c.nodes ==>
          c.nodes[id].id == id && NodeInv(c.nodes[id]) && IdsBelow(c.nodes[id], c.issued))
    && OneHomeEach(c)
  }

  // ------------------------------------------------------- what a call may do

  predicate CallMoves(models: set<ModelKey>, now: int, c: ClusterState, c': ClusterState) {
    && c'.nodes.Keys == c.nodes.Keys && c.issued <= c'.issued
    && forall id :: id in c.nodes ==> Moves(models, c.issued, now, c.nodes[id], c'.nodes[id])
  }

  /** The replicas that stopped being HOT, and those that became HOT. */
  function Lost(c: ClusterState, c': ClusterState): set<Key>
    requires c'.nodes.Keys == c.nodes.Keys
  {
    set id, k | id in c.nodes && k in c.nodes[id].hot && k !in c'.nodes[id].hot :: k
  }

  function Gained(c: ClusterState, c': ClusterState): set<Key>
    requires c'.nodes.Keys == c.nodes.Keys
  {
    Lost(c', c)
  }

  /** Progress of a call that places `models`: it moves only what it may, evicts
      only what its placements were entitled to, and `evicted` and `placed` are
      exactly the replicas that left and joined the cards. */
  ghost predicate Progress(models: set<ModelKey>, pinned: bool, now: int, c: ClusterState, c': ClusterState,
                           evicted: set<Key>, placed: set<Key>) {
    && CallMoves(models, now, c, c') && ClusterInv(c')
    && evicted == Lost(c, c') && placed == Gained(c, c')
    && forall id, k :: id in c.nodes && k in c.nodes[id].hot && k !in c'.nodes[id].hot ==>
         Evictable(c.nodes[id].hot[k], pinned, c.nodes[id].minAge, now)
  }

  lemma ProgressReflexive(models: set<ModelKey>, pinned: bool, now: int, c: ClusterState)
    requires ClusterInv(c)
    ensures Progress(models, pinned, now, c, c, {}, {})
  {
  }

  lemma ProgressWeakens(models: set<ModelKey>, pinned: bool, now: int, c: ClusterState, c': ClusterState,
                        evicted: set<Key>, placed: set<Key>)
    requires Progress(models, pinned, now, c, c', evicted, placed)
    ensures Progress(models, true, now, c, c', evicted, placed)
  {
  }

  lemma MovesCompose(models: set<ModelKey>, now: int, a: ClusterState, b: ClusterState, c: ClusterState)
    requires CallMoves(models, now, a, b) && CallMoves(models, now, b, c) && ClusterInv(c)
    ensures CallMoves(models, now, a, c)
  {
    forall id | id in a.nodes ensures Moves(models, a.issued, now, a.nodes[id], c.nodes[id]) {
      MovesTransitive(models, a.issued, b.issued, now, a.nodes[id], b.nodes[id], c.nodes[id]);
    }
  }

  /** What two stages of one call lost and gained adds up: nothing placed by the
      first is evicted by the second, nothing evicted comes back. */
  lemma LossesAddUp(models: set<ModelKey>, now: int, a: ClusterState, b: ClusterState, c: ClusterState)
    requires CallMoves(models, now, a, b) && CallMoves(models, now, b, c) && CallMoves(models, now, a, c)
    ensures Lost(a, c) == Lost(a, b) + Lost(b, c)
    ensures Gained(a, c) == Gained(a, b) + Gained(b, c)
  {
    forall id, k | id in a.nodes && k in a.nodes[id].hot + b.nodes[id].hot + c.nodes[id].hot
      ensures k in a.nodes[id].hot && k !in c.nodes[id].hot
              <==> (k in a.nodes[id].hot && k !in b.nodes[id].hot) || (k in b.nodes[id].hot && k !in c.nodes[id].hot)
      ensures k in c.nodes[id].hot && k !in a.nodes[id].hot
              <==> (k in b.nodes[id].hot && k !in a.nodes[id].hot) || (k in c.nodes[id].hot && k !in b.nodes[id].hot)
    {
      assert Moves(models, a.issued, now, a.nodes[id], b.nodes[id]);
      assert Moves(models, b.issued, now, b.nodes[id], c.nodes[id]);
    }
  }

  lemma ProgressComposes(models: set<ModelKey>, pinned: bool, now: int,
                         a: ClusterState, b: ClusterState, c: ClusterState,
                         e1: set<Key>, p1: set<Key>, e2: set<Key>, p2: set<Key>)
    requires Progress(models, pinned, now, a, b, e1, p1) && Progress(models, pinned, now, b, c, e2, p2)
    ensures Progress(models, pinned, now, a, c, e1 + e2, p1 + p2)
  {
    MovesCompose(models, now, a, b, c);
    LossesAddUp(models, now, a, b, c);
    forall id, k | id in a.nodes && k in a.nodes[id].hot && k !in c.nodes[id].hot
      ensures Evictable(a.nodes[id].hot[k], pinned, a.nodes[id].minAge, now)
    {
      assert Moves(models, a.issued, now, a.nodes[id], b.nodes[id]);
    }
  }

  /** `Cluster.deploy` never evicts a pinned replica, a replica of a model in the
      call or, unless some placement is pinned, one younger than the minimum;
      and every WARM copy of those models is still there or now HOT. */
  lemma DeployProtects(models: set<ModelKey>, pinned: bool, now: int, c: ClusterState, c': ClusterState,
                       evicted: set<Key>, placed: set<Key>, id: NodeId, k: Key)
    requires Progress(models, pinned, now, c, c', evicted, placed) && id in c.nodes
    ensures k in c.nodes[id].hot ==>
              var d := c.nodes[id].hot[k];
              (d.pinned || k.model in models
               || (!pinned && c.nodes[id].minAge.Some? && now - d.deployed < c.nodes[id].minAge.value))
              ==> k in c'.nodes[id].hot && c'.nodes[id].hot[k] == d
    ensures k in c.nodes[id].warm && k.model in models ==> k in c'.nodes[id].warm || k in c'.nodes[id].hot
  {
    assert Moves(models, c.issued, now, c.nodes[id], c'.nodes[id]);
  }

  // ----------------------------------------------------------- requests, answers

  datatype Sized = Bytes(size: int) | EvaluationFailed

  /** A `DeploymentConfig` with the evaluator's answers for it. */
  datatype Config = Config(
    pinned: bool, replicas: int, sized: Sized, limit: Option<int>, asked: Option<int>,
    actor: Option<ActorClass>)

  datatype DeployError =
    | NotEvaluated | NoGpuNodes | CannotAccommodate(placed: nat, uneven: bool) | NothingPlaced

  datatype ModelResult = ModelResult(replicas: seq<Key>, error: Option<DeployError>)

  datatype Response = Response(results: map<ModelKey, ModelResult>, evictions: set<Key>, change: bool)

  function QueryFor(model: ModelKey, cfg: Config, models: set<ModelKey>, now: int): Query
    requires cfg.sized.Bytes?
  {
    Query(model, cfg.sized.size, cfg.pinned, models, cfg.limit, cfg.asked, None, now)
  }

  /** The count such a config settles on is zero on a node whose cards have `memory`
      bytes: `evaluate` divides by it. */
  predicate Unsizable(cfg: Config, memory: nat)
    requires cfg.sized.Bytes?
  {
    cfg.asked == Some(0) || (cfg.asked.None? && 0 - memory < cfg.sized.size <= 0)
  }

  lemma RaisesIffUnsizable(n: NodeState, model: ModelKey, cfg: Config, models: set<ModelKey>, now: int)
    requires n.memory > 0 && cfg.sized.Bytes?
    ensures Raises(n, QueryFor(model, cfg, models, now)) <==> Unsizable(cfg, n.memory)
  {
    DerivedCountSign(cfg.limit, cfg.sized.size, n.memory);
  }

  /** Evaluating the config raises on some node. */
  predicate Chokes(c: ClusterState, cfg: Config)
    requires cfg.sized.Bytes?
  {
    exists id :: id in c.nodes && Unsizable(cfg, c.nodes[id].memory)
  }

  /** The config would make a deploy call raise. */
  predicate Trips(c: ClusterState, cfg: Config) {
    cfg.sized.Bytes? && cfg.replicas >= 1 && Chokes(c, cfg)
  }

  /** Evaluating the config raises on none of these nodes. */
  predicate FineOn(c: ClusterState, cfg: Config, seen: set<NodeId>)
    requires cfg.sized.Bytes?
  {
    forall id :: id in seen && id in c.nodes ==> !Unsizable(cfg, c.nodes[id].memory)
  }

  lemma FineOnMore(c: ClusterState, cfg: Config, seen: set<NodeId>, id: NodeId)
    requires cfg.sized.Bytes? && id in c.nodes
    ensures FineOn(c, cfg, {})
    ensures FineOn(c, cfg, seen) && !Unsizable(cfg, c.nodes[id].memory) ==> FineOn(c, cfg, seen + {id})
    ensures Unsizable(cfg, c.nodes[id].memory) ==> Chokes(c, cfg)
  {
  }

  lemma FineEverywhere(c: ClusterState, cfg: Config)
    requires cfg.sized.Bytes?
    ensures FineOn(c, cfg, {}) && (FineOn(c, cfg, c.nodes.Keys) ==> !Chokes(c, cfg))
  {
  }

  lemma ChokesSomewhere(c: ClusterState, cfg: Config)
    requires cfg.sized.Bytes? && Chokes(c, cfg)
    ensures c.nodes != map[]
  {
  }

  lemma TripsStay(models: set<ModelKey>, now: int, c: ClusterState, c': ClusterState, cfg: Config)
    requires CallMoves(models, now, c, c')
    ensures Trips(c', cfg) <==> Trips(c, cfg)
  {
    hide CallMoves, Chokes;
    if cfg.sized.Bytes? {
      ChokesStay(models, now, c, c', cfg);
    }
  }

  lemma ChokesStay(models: set<ModelKey>, now: int, c: ClusterState, c': ClusterState, cfg: Config)
    requires CallMoves(models, now, c, c') && cfg.sized.Bytes?
    ensures Chokes(c', cfg) <==> Chokes(c, cfg)
  {
    SameCards(models, now, c, c');
    hide CallMoves, Unsizable;
    if id :| id in c.nodes && Unsizable(cfg, c.nodes[id].memory) {
      assert Unsizable(cfg, c'.nodes[id].memory);
    }
    if id :| id in c'.nodes && Unsizable(cfg, c'.nodes[id].memory) {
      assert Unsizable(cfg, c.nodes[id].memory);
    }
  }

  /** Cards are neither added nor taken away. */
  lemma SameCards(models: set<ModelKey>, now: int, c: ClusterState, c': ClusterState)
    requires CallMoves(models, now, c, c')
    ensures c'.nodes.Keys == c.nodes.Keys
    ensures forall id :: id in c.nodes ==>
              c'.nodes[id].memory == c.nodes[id].memory && |c'.nodes[id].free| == |c.nodes[id].free|
  {
    forall id | id in c.nodes
      ensures c'.nodes[id].memory == c.nodes[id].memory && |c'.nodes[id].free| == |c.nodes[id].free|
    {
      assert Moves(models, c.issued, now, c.nodes[id], c'.nodes[id]);
    }
  }

  /** No node shows room it does not have. */
  ghost predicate RoomIsRealEverywhere(c: ClusterState) {
    forall id :: id in c.nodes ==> RoomIsReal(c.nodes[id])
  }

  lemma SoundIsReal(c: ClusterState)
    requires ClusterInv(c)
    ensures RoomIsRealEverywhere(c)
  {
    forall id | id in c.nodes ensures RoomIsReal(c.nodes[id]) {
      NodeRoomIsReal(c.nodes[id]);
    }
    hide NodeInv, RoomIsReal;
  }

  /** What picking a node for one replica came to. */
  datatype Choice = NoNode | NodeRaised | Best(id: NodeId, candidate: Candidate, uneven: bool)

  /** What placing one replica came to. */
  datatype Placement =
    | PlacedAs(key: Key, evicted: set<Key>)
    | Stopped(error: DeployError)
    | Tripped
    | CreditedBy(key: Key)

  /** How a call over several replicas or models ended: all of them looked at,
      raised at a config of zero cards, or at a booking that gave its cards room
      instead of taking it, past which the ledger means nothing. */
  datatype Ending = Finished | ZeroCards | Credited

  // ---------------------------------------------------------------- one step

  /** Only node `id` changed, by a placement of `k` that evicted `gone`. */
  predicate OneNode(c: ClusterState, c': ClusterState, id: NodeId, gone: set<Key>, k: Key) {
    && id in c.nodes && c'.nodes.Keys == c.nodes.Keys && c'.issued == c.issued + 1
    && (forall j :: j in c.nodes && j != id ==> c'.nodes[j] == c.nodes[j])
    && c'.nodes[id].hot.Keys == c.nodes[id].hot.Keys - gone + {k}
    && k !in c.nodes[id].hot && gone <= c.nodes[id].hot.Keys
  }

  lemma OneNodeLosses(c: ClusterState, c': ClusterState, id: NodeId, gone: set<Key>, k: Key)
    requires OneNode(c, c', id, gone, k)
    ensures Lost(c, c') == gone && Gained(c, c') == {k}
  {
    assert k !in gone && k in c'.nodes[id].hot;
    forall j | j in gone ensures j in Lost(c, c') {
      assert id in c.nodes && j in c.nodes[id].hot && j !in c'.nodes[id].hot;
    }
  }

  lemma MoveKeepsIdsBelow(models: set<ModelKey>, now: int, n: NodeState, n': NodeState, gone: set<Key>, k: Key, issued: nat)
    requires IdsBelow(n, issued) && Moves(models, issued, now, n, n') && k.replica <= issued
    requires n'.hot.Keys == n.hot.Keys - gone + {k}
    ensures IdsBelow(n', issued + 1)
  {
  }

  lemma OneNodeMoves(c: ClusterState, c': ClusterState, id: NodeId, gone: set<Key>, k: Key,
                     models: set<ModelKey>, now: int)
    requires ClusterInv(c) && OneNode(c, c', id, gone, k) && k.replica <= c.issued
    requires NodeInv(c'.nodes[id]) && Moves(models, c.issued, now, c.nodes[id], c'.nodes[id])
    ensures CallMoves(models, now, c, c') && ClusterInv(c')
  {
    MoveKeepsIdsBelow(models, now, c.nodes[id], c'.nodes[id], gone, k, c.issued);
    assert c'.nodes[id].id == id;
    forall j | j in c.nodes && j != id
      ensures Moves(models, c.issued, now, c.nodes[j], c'.nodes[j]) && IdsBelow(c'.nodes[j], c'.issued)
    {
      MovesReflexive(models, c.issued, now, c.nodes[j]);
      assert IdsBelow(c.nodes[j], c.issued);
    }
    OneNodeHomes(c, c', id, gone, k, models, now);
    hide NodeInv, IdsBelow, Moves, OneHomeEach;
  }

  lemma OneNodeHomes(c: ClusterState, c': ClusterState, id: NodeId, gone: set<Key>, k: Key,
                     models: set<ModelKey>, now: int)
    requires ClusterInv(c) && OneNode(c, c', id, gone, k)
    requires Moves(models, c.issued, now, c.nodes[id], c'.nodes[id])
    ensures OneHomeEach(c')
  {
    forall i, j, x | i in c'.nodes && j in c'.nodes && Holds(c'.nodes[i], x) && Holds(c'.nodes[j], x)
      ensures i == j
    {
      assert IdsBelow(c.nodes[i], c.issued) && IdsBelow(c.nodes[j], c.issued);
      assert Holds(c.nodes[i], x) || (i == id && x.replica >= c.issued);
      assert Holds(c.nodes[j], x) || (j == id && x.replica >= c.issued);
    }
    hide NodeInv;
  }

  /** The cluster once node `id` has become `n'` and an id has been issued. */
  function With(c: ClusterState, id: NodeId, n': NodeState): ClusterState {
    ClusterState(c.nodes[id := n'], c.issued + 1)
  }

  lemma PlacingProgress(c: ClusterState, id: NodeId, n': NodeState, q: Query, gone: set<Key>, k: Key)
    requires ClusterInv(c) && id in c.nodes && k.replica <= c.issued && k !in c.nodes[id].hot
    requires gone <= Reclaimable(c.nodes[id], q) && n'.hot.Keys == c.nodes[id].hot.Keys - gone + {k}
    requires NodeInv(n') && Moves(q.exclude, c.issued, q.now, c.nodes[id], n')
    ensures ClusterInv(With(c, id, n'))
    ensures Progress(q.exclude, q.pinned, q.now, c, With(c, id, n'), gone, {k})
  {
    var c' := With(c, id, n');
    OneNodeLosses(c, c', id, gone, k);
    OneNodeMoves(c, c', id, gone, k, q.exclude, q.now);
  }

  /** The best candidates among the nodes seen so far. */
  ghost predicate Shortlist(c: ClusterState, q: Query, seen: set<NodeId>, candidates: map<NodeId, Candidate>, best: nat) {
    && seen <= c.nodes.Keys && candidates.Keys <= seen && (|candidates| == 0 <==> seen == {})
    && (forall j :: j in candidates ==> Decides(c.nodes[j], q, candidates[j]) && Rank(candidates[j].level) == best)
    && (forall j :: j in seen ==> best <= Rank(LevelFor(c.nodes[j], q)))
    && (forall j :: j in seen && Rank(LevelFor(c.nodes[j], q)) == best ==> j in candidates)
  }

  /** The two branches of the candidate loop. */
  function Shortlisted(candidates: map<NodeId, Candidate>, best: nat, id: NodeId, cand: Candidate):
      (map<NodeId, Candidate>, nat) {
    if |candidates| == 0 || Rank(cand.level) < best then (map[id := cand], Rank(cand.level))
    else if Rank(cand.level) == best then (candidates[id := cand], best)
    else (candidates, best)
  }

  lemma ShortlistGrows(c: ClusterState, q: Query, seen: set<NodeId>, candidates: map<NodeId, Candidate>, best: nat,
                       id: NodeId, cand: Candidate)
    requires Shortlist(c, q, seen, candidates, best) && id in c.nodes && id !in seen
    requires Decides(c.nodes[id], q, cand) && cand.level == LevelFor(c.nodes[id], q)
    ensures var (cs, b) := Shortlisted(candidates, best, id, cand);
            Shortlist(c, q, seen + {id}, cs, b)
  {
    hide Decides, LevelFor, Rank;
    var (cs, b) := Shortlisted(candidates, best, id, cand);
    assert cs.Keys <= candidates.Keys + {id} && |cs| > 0 by {
      assert cs == candidates || id in cs;
    }
    forall j | j in cs ensures Decides(c.nodes[j], q, cs[j]) && Rank(cs[j].level) == b {
      assert j == id || j in candidates;
    }
    forall j | j in seen + {id} ensures b <= Rank(LevelFor(c.nodes[j], q)) && (Rank(LevelFor(c.nodes[j], q)) == b ==> j in cs) {
      assert j == id || j in seen;
    }
  }

  lemma DecidedLevel(n: NodeState, q: Query, cand: Candidate)
    requires Decides(n, q, cand)
    ensures cand.level == LevelFor(n, q)
  {
  }

  lemma SomeTakes(c: ClusterState, q: Query, id: NodeId, cand: Candidate)
    requires id in c.nodes && Decides(c.nodes[id], q, cand) && cand.level != CantAccommodate
    ensures !Refused(c, q)
  {
    DecidedLevel(c.nodes[id], q, cand);
  }

  lemma CreditsHere(c: ClusterState, q: Query, id: NodeId, cand: Candidate)
    requires ClusterInv(c) && id in c.nodes && q.share.None? && Decides(c.nodes[id], q, cand) && cand.level != CantAccommodate
    ensures !TakesRoom(cand.gpus, q.size) ==> CreditsSome(c, q)
    ensures TakesRoom(cand.gpus, q.size) ==> !CreditsAll(c, q)
  {
    hide Decides, NodeInv, Credits, TakesRoom;
    CreditsIff(c.nodes[id], q, cand);
  }

  lemma BrokenLedger(c: ClusterState, id: NodeId)
    requires id in c.nodes && !NodeInv(c.nodes[id]) && !RoomIsReal(c.nodes[id])
    ensures !ClusterInv(c) && !RoomIsRealEverywhere(c)
  {
    hide NodeInv, RoomIsReal;
  }

  lemma ProgressCredits(models: set<ModelKey>, pinned: bool, now: int, c: ClusterState, c': ClusterState,
                        evicted: set<Key>, placed: set<Key>, q: Query)
    requires Progress(models, pinned, now, c, c', evicted, placed)
    ensures CreditsSome(c', q) <==> CreditsSome(c, q)
    ensures CreditsAll(c', q) <==> CreditsAll(c, q)
  {
    hide CreditsSome, CreditsAll, ClusterInv, CallMoves;
    CreditsStay(models, now, c, c', q);
  }

  lemma ProgressChokes(models: set<ModelKey>, pinned: bool, now: int, c: ClusterState, c': ClusterState,
                       evicted: set<Key>, placed: set<Key>, cfg: Config)
    requires Progress(models, pinned, now, c, c', evicted, placed) && cfg.sized.Bytes?
    ensures Chokes(c', cfg) <==> Chokes(c, cfg)
  {
    hide Chokes, ClusterInv, CallMoves;
    ChokesStay(models, now, c, c', cfg);
  }

  lemma NoneBetter(c: ClusterState, q: Query, cand: Candidate)
    requires cand.level == CantAccommodate
    requires forall j :: j in c.nodes ==> Rank(cand.level) <= Rank(LevelFor(c.nodes[j], q))
    ensures Refused(c, q)
  {
    forall j | j in c.nodes ensures LevelFor(c.nodes[j], q) == CantAccommodate {
      assert Rank(LevelFor(c.nodes[j], q)) == 5;
    }
  }

  lemma NothingShortlisted(c: ClusterState, q: Query)
    ensures Shortlist(c, q, {}, map[], 0)
  {
  }

  lemma ShortlistMeans(c: ClusterState, q: Query, candidates: map<NodeId, Candidate>, best: nat)
    requires Shortlist(c, q, c.nodes.Keys, candidates, best)
    ensures |candidates| == 0 <==> c.nodes == map[]
    ensures forall id :: id in candidates ==>
              && id in c.nodes && Decides(c.nodes[id], q, candidates[id])
              && forall j :: j in c.nodes ==> Rank(candidates[id].level) <= Rank(LevelFor(c.nodes[j], q))
  {
  }

  /** What makes a node the right one, in facts about the nodes: a parked copy and
      room, else room, else a parked copy and evictions that open the cards, else
      such evictions. */
  ghost predicate Preferred(c: ClusterState, q: Query, id: NodeId)
    requires id in c.nodes
  {
    var n := c.nodes[id];
    && ((exists j :: j in c.nodes && IsCached(c.nodes[j], q.model) && Roomy(c.nodes[j], q)) ==> IsCached(n, q.model) && Roomy(n, q))
    && ((exists j :: j in c.nodes && Roomy(c.nodes[j], q)) ==> Roomy(n, q))
    && ((exists j :: j in c.nodes && IsCached(c.nodes[j], q.model) && Openable(c.nodes[j], q)) ==>
          Roomy(n, q) || (IsCached(n, q.model) && Openable(n, q)))
    && ((exists j :: j in c.nodes && Openable(c.nodes[j], q)) ==> Roomy(n, q) || Openable(n, q))
  }

  lemma LevelMeans(n: NodeState, q: Query)
    ensures Roomy(n, q) && IsCached(n, q.model) <==> LevelFor(n, q) == CachedAndFree
    ensures Roomy(n, q) && !IsCached(n, q.model) <==> LevelFor(n, q) == Free
    ensures !Roomy(n, q) && Openable(n, q) && IsCached(n, q.model) <==> LevelFor(n, q) == CachedAndFull
    ensures !Roomy(n, q) && Openable(n, q) && !IsCached(n, q.model) <==> LevelFor(n, q) == Full
  {
    hide Counted, Fitting, Clearable, IsCached;
  }

  lemma BestIsPreferred(c: ClusterState, q: Query, id: NodeId, cand: Candidate)
    requires id in c.nodes && Decides(c.nodes[id], q, cand)
    requires forall j :: j in c.nodes ==> Rank(cand.level) <= Rank(LevelFor(c.nodes[j], q))
    ensures Preferred(c, q, id) && (Roomy(c.nodes[id], q) ==> cand.evictions == {})
  {
    DecidedLevel(c.nodes[id], q, cand);
    EvictsNothing(c.nodes[id], q, cand);
    hide LevelFor, Roomy, Openable, IsCached, Decides, Rank;
    var n := c.nodes[id];
    forall j | j in c.nodes
      ensures IsCached(c.nodes[j], q.model) && Roomy(c.nodes[j], q) ==> IsCached(n, q.model) && Roomy(n, q)
      ensures Roomy(c.nodes[j], q) ==> Roomy(n, q)
      ensures IsCached(c.nodes[j], q.model) && Openable(c.nodes[j], q) ==> Roomy(n, q) || (IsCached(n, q.model) && Openable(n, q))
      ensures Openable(c.nodes[j], q) ==> Roomy(n, q) || Openable(n, q)
    {
      NoWorse(n, c.nodes[j], q);
    }
  }

  /** What it means for one node to rank at least as well as another. */
  lemma NoWorse(n: NodeState, m: NodeState, q: Query)
    requires Rank(LevelFor(n, q)) <= Rank(LevelFor(m, q))
    ensures IsCached(m, q.model) && Roomy(m, q) ==> IsCached(n, q.model) && Roomy(n, q)
    ensures Roomy(m, q) ==> Roomy(n, q)
    ensures IsCached(m, q.model) && Openable(m, q) ==> Roomy(n, q) || (IsCached(n, q.model) && Openable(n, q))
    ensures Openable(m, q) ==> Roomy(n, q) || Openable(n, q)
  {
    hide LevelFor, Roomy, Openable, IsCached;
    LevelMeans(n, q);
    LevelMeans(m, q);
  }

  lemma EvictsNothing(n: NodeState, q: Query, cand: Candidate)
    requires Decides(n, q, cand)
    ensures Roomy(n, q) ==> cand.evictions == {}
  {
    LevelMeans(n, q);
    hide LevelFor, Roomy, Openable, IsCached, Lean, BestFit, Thrifty, Accepts;
  }

  /** The config asks for several cards the model does not split into. */
  predicate AsksUnevenly(cfg: Config) {
    && cfg.asked.Some? && cfg.limit.Some? && cfg.asked.value > 1
    && !(cfg.asked.value <= cfg.limit.value && cfg.limit.value % cfg.asked.value == 0)
  }

  /** So says every node that refuses it. */
  lemma UnevenMeans(c: ClusterState, q: Query, cfg: Config, candidates: map<NodeId, Candidate>, best: nat)
    requires Shortlist(c, q, c.nodes.Keys, candidates, best) && q.asked == cfg.asked && q.limit == cfg.limit
    ensures candidates != map[] ==> ((exists j :: j in candidates && candidates[j].uneven) <==> AsksUnevenly(cfg))
  {
    forall j | j in candidates ensures candidates[j].uneven <==> AsksUnevenly(cfg) {
      SaysUneven(c.nodes[j], q, cfg, candidates[j]);
    }
    hide Shortlist, AsksUnevenly;
    if candidates != map[] && AsksUnevenly(cfg) {
      assert (forall j :: j !in candidates) ==> candidates == map[];
      var j :| j in candidates;
      assert candidates[j].uneven;
    }
  }

  lemma SaysUneven(n: NodeState, q: Query, cfg: Config, cand: Candidate)
    requires Decides(n, q, cand) && q.asked == cfg.asked && q.limit == cfg.limit
    ensures cand.uneven <==> AsksUnevenly(cfg)
  {
    if cfg.asked.Some? {
      AskedCountIsExact(cfg.limit, cfg.asked.value, q.size, n.memory);
    }
    hide Accepts, Lean, Thrifty, LevelFor;
  }

  lemma KnownIds(c: ClusterState, id: NodeId)
    requires ClusterInv(c) && id in c.nodes
    ensures NodeInv(c.nodes[id])
    ensures forall k :: k in c.nodes[id].hot ==> k.replica < c.issued
    ensures forall k :: k in c.nodes[id].warm ==> k.replica < c.issued
  {
    assert IdsBelow(c.nodes[id], c.issued);
  }

  lemma AcceptedHasRoom(n: NodeState, q: Query, cand: Candidate)
    requires Decides(n, q, cand) && cand.level != CantAccommodate
    ensures HasRoom(n, cand) && cand.evictions <= Reclaimable(n, q)
    ensures forall k :: k in cand.evictions ==> k.model !in q.exclude
  {
  }

  lemma EvictingMoves(n: NodeState, k: Key, exclude: set<ModelKey>, issued: nat, now: int, n': NodeState)
    requires Registered(n) && (k in n.hot || k in n.warm) && Evicts(n, k, exclude, now, n')
    ensures Moves({}, issued, now, n, n')
    ensures n'.hot == n.hot - {k}
    ensures forall j :: j in n'.warm ==> j in n.warm || j == k
    ensures k in n.warm ==> k !in n'.warm
  {
  }

  // ----------------------------------------------------- answers of a whole call

  predicate AnyPinned(configs: map<ModelKey, Config>) {
    exists m :: m in configs && configs[m].pinned
  }

  /** Every replica id the results report. */
  function Reported(results: map<ModelKey, ModelResult>): set<Key> {
    set m, k | m in results && k in results[m].replicas :: k
  }

  /** No error exactly when every requested replica, at least one, was placed. */
  predicate Answered(model: ModelKey, cfg: Config, r: ModelResult) {
    && (r.error.None? <==> cfg.sized.Bytes? && cfg.replicas >= 1 && |r.replicas| == cfg.replicas)
    && forall k :: k in r.replicas ==> k.model == model
  }

  predicate AllAnswered(configs: map<ModelKey, Config>, results: map<ModelKey, ModelResult>) {
    results.Keys <= configs.Keys && forall m :: m in results ==> Answered(m, configs[m], results[m])
  }

  lemma ReportedGrows(results: map<ModelKey, ModelResult>, m: ModelKey, r: ModelResult)
    requires m !in results
    ensures Reported(results[m := r]) == Reported(results) + Elements(r.replicas)
  {
    var more := results[m := r];
    forall k | k in Reported(results) ensures k in Reported(more) {
      var j :| j in results && k in results[j].replicas;
      assert j in more && k in more[j].replicas;
    }
    forall k | k in r.replicas ensures k in Reported(more) {
      assert m in more && k in more[m].replicas;
    }
  }

  lemma NothingReported(results: map<ModelKey, ModelResult>, one: ModelResult)
    ensures Reported(results) + Elements(one.replicas) == {} <==> Reported(results) == {} && one.replicas == []
  {
    if one.replicas != [] {
      assert one.replicas[0] in Elements(one.replicas);
    }
  }

  lemma PinnedEnough(configs: map<ModelKey, Config>, m: ModelKey, models: set<ModelKey>, now: int,
                     c: ClusterState, c': ClusterState, evicted: set<Key>, placed: set<Key>)
    requires m in configs && Progress(models, configs[m].pinned, now, c, c', evicted, placed)
    ensures Progress(models, AnyPinned(configs), now, c, c', evicted, placed)
  {
    if AnyPinned(configs) {
      ProgressWeakens(models, configs[m].pinned, now, c, c', evicted, placed);
    } else {
      assert !configs[m].pinned;
    }
  }

  /** Every node refuses one more replica of the model. */
  ghost predicate Refused(c: ClusterState, q: Query) {
    forall id :: id in c.nodes ==> LevelFor(c.nodes[id], q) == CantAccommodate
  }

  /** Asking for the model's negative count credits cards on some node, on all. */
  predicate CreditsSome(c: ClusterState, q: Query) {
    exists id :: id in c.nodes && Credits(c.nodes[id], q)
  }

  predicate CreditsAll(c: ClusterState, q: Query) {
    forall id :: id in c.nodes ==> Credits(c.nodes[id], q)
  }

  /** So this can be told beforehand. */
  lemma CreditsStay(models: set<ModelKey>, now: int, c: ClusterState, c': ClusterState, q: Query)
    requires CallMoves(models, now, c, c')
    ensures CreditsSome(c', q) <==> CreditsSome(c, q)
    ensures CreditsAll(c', q) <==> CreditsAll(c, q)
  {
    hide CallMoves, Credits;
    SameCards(models, now, c, c');
    forall id | id in c.nodes ensures Credits(c'.nodes[id], q) <==> Credits(c.nodes[id], q) {
      CreditsByCards(c.nodes[id], c'.nodes[id], q);
    }
  }

  lemma CreditsByCards(n: NodeState, n': NodeState, q: Query)
    requires n'.memory == n.memory && |n'.free| == |n.free|
    ensures Credits(n', q) <==> Credits(n, q)
  {
  }

  /** Nothing of the model would be placed with the cluster at `c`. */
  ghost predicate Idles(c: ClusterState, q: Query, cfg: Config) {
    cfg.replicas < 1 || c.nodes == map[] || Refused(c, q)
  }

  /** Every replica that left the cards did so for a placement entitled to it: one
      younger than the minimum only for a pinned config some replica of which was
      placed. */
  predicate Blamed(configs: map<ModelKey, Config>, now: int, c: ClusterState, cur: ClusterState,
                   results: map<ModelKey, ModelResult>) {
    cur.nodes.Keys == c.nodes.Keys &&
    forall id, k :: id in c.nodes && k in c.nodes[id].hot && k !in cur.nodes[id].hot ==>
      Blames(configs, now, c.nodes[id], k, results)
  }

  predicate Blames(configs: map<ModelKey, Config>, now: int, n: NodeState, k: Key, results: map<ModelKey, ModelResult>)
    requires k in n.hot
  {
    exists m :: m in configs && m in results && results[m].replicas != [] && Evictable(n.hot[k], configs[m].pinned, n.minAge, now)
  }

  /** In a call that mixes pinned configs and others, a replica younger than its
      node's minimum age leaves the cards only for a pinned config of which a
      replica was placed. */
  lemma YoungLeavesForAPinnedModel(configs: map<ModelKey, Config>, now: int, c: ClusterState, c': ClusterState,
                                   results: map<ModelKey, ModelResult>, id: NodeId, k: Key)
    requires Blamed(configs, now, c, c', results) && id in c.nodes && k in c.nodes[id].hot && k !in c'.nodes[id].hot
    requires c.nodes[id].minAge.Some? && now - c.nodes[id].hot[k].deployed < c.nodes[id].minAge.value
    ensures exists m :: m in configs && configs[m].pinned && m in results && results[m].replicas != []
  {
    assert Blames(configs, now, c.nodes[id], k, results);
    var m :| m in configs && m in results && results[m].replicas != []
             && Evictable(c.nodes[id].hot[k], configs[m].pinned, c.nodes[id].minAge, now);
    assert configs[m].pinned;
  }

  lemma BlameStep(configs: map<ModelKey, Config>, now: int, c: ClusterState, before: ClusterState, after: ClusterState,
                  results: map<ModelKey, ModelResult>, m: ModelKey, one: ModelResult, gone: set<Key>)
    requires CallMoves(configs.Keys, now, c, before) && Blamed(configs, now, c, before, results)
    requires m in configs && m !in results && (one.replicas == [] ==> after == before)
    requires Progress(configs.Keys, configs[m].pinned, now, before, after, gone, Elements(one.replicas))
    ensures Blamed(configs, now, c, after, results[m := one])
  {
    hide Blames, Moves, Progress, Elements;
    ProgressKeys(configs.Keys, configs[m].pinned, now, before, after, gone, Elements(one.replicas));
    forall id, k | id in c.nodes && k in c.nodes[id].hot && k !in after.nodes[id].hot
      ensures Blames(configs, now, c.nodes[id], k, results[m := one])
    {
      if k in before.nodes[id].hot {
        BlamesThis(configs, now, c, before, after, results, m, one, gone, id, k);
      } else {
        BlamesStill(configs, now, c.nodes[id], k, results, m, one);
      }
    }
  }

  lemma ProgressKeys(models: set<ModelKey>, pinned: bool, now: int, c: ClusterState, c': ClusterState,
                     evicted: set<Key>, placed: set<Key>)
    requires Progress(models, pinned, now, c, c', evicted, placed)
    ensures c'.nodes.Keys == c.nodes.Keys
  {
  }

  lemma BlamesThis(configs: map<ModelKey, Config>, now: int, c: ClusterState, before: ClusterState, after: ClusterState,
                   results: map<ModelKey, ModelResult>, m: ModelKey, one: ModelResult, gone: set<Key>, id: NodeId, k: Key)
    requires CallMoves(configs.Keys, now, c, before) && m in configs && (one.replicas == [] ==> after == before)
    requires Progress(configs.Keys, configs[m].pinned, now, before, after, gone, Elements(one.replicas))
    requires id in c.nodes && k in c.nodes[id].hot && k in before.nodes[id].hot && id in after.nodes && k !in after.nodes[id].hot
    ensures Blames(configs, now, c.nodes[id], k, results[m := one])
  {
    hide ClusterInv, Evictable, Elements;
    assert Moves(configs.Keys, c.issued, now, c.nodes[id], before.nodes[id]);
    assert m in results[m := one] && results[m := one][m].replicas != [];
  }

  lemma BlamesStill(configs: map<ModelKey, Config>, now: int, n: NodeState, k: Key, results: map<ModelKey, ModelResult>,
                    m: ModelKey, one: ModelResult)
    requires k in n.hot && m !in results && Blames(configs, now, n, k, results)
    ensures Blames(configs, now, n, k, results[m := one])
  {
    hide Evictable;
    var j :| j in configs && j in results && results[j].replicas != [] && Evictable(n.hot[k], configs[j].pinned, n.minAge, now);
    assert j in results[m := one] && results[m := one][j] == results[j];
  }

  /** Why placing a model stopped with the cluster at `c`: an error is never given
      while some node would have taken another replica. */
  ghost predicate Explained(c: ClusterState, q: Query, cfg: Config, r: ModelResult) {
    match r.error
    case None => true
    case Some(NotEvaluated) => false
    case Some(NoGpuNodes) => c.nodes == map[]
    case Some(CannotAccommodate(placed, uneven)) =>
      placed == |r.replicas| < cfg.replicas && c.nodes != map[] && Refused(c, q) && (uneven <==> AsksUnevenly(cfg))
    case Some(NothingPlaced) => cfg.replicas < 1
  }

  /** The model was placed as far as it could be at some point of the call. */
  ghost predicate PlacedFully(configs: map<ModelKey, Config>, now: int, c: ClusterState, cur: ClusterState,
                              m: ModelKey, r: ModelResult)
    requires m in configs
  {
    configs[m].sized.Bytes? ==> exists mid ::
      && CallMoves(configs.Keys, now, c, mid) && CallMoves(configs.Keys, now, mid, cur)
      && Explained(mid, QueryFor(m, configs[m], configs.Keys, now), configs[m], r)
  }

  ghost predicate AllPlacedFully(configs: map<ModelKey, Config>, now: int, c: ClusterState, cur: ClusterState,
                                 results: map<ModelKey, ModelResult>) {
    results.Keys <= configs.Keys && forall m :: m in results ==> PlacedFully(configs, now, c, cur, m, results[m])
  }

  lemma NoneSizedYet(configs: map<ModelKey, Config>, now: int, c: ClusterState, failed: map<ModelKey, ModelResult>)
    requires forall m :: m in failed ==> m in configs && configs[m].sized.EvaluationFailed?
    ensures AllPlacedFully(configs, now, c, c, failed)
  {
    assert forall m :: m in failed.Keys ==> m in configs && configs[m].sized.EvaluationFailed?;
  }

  lemma PlacedFullyStays(configs: map<ModelKey, Config>, now: int, c: ClusterState, before: ClusterState, after: ClusterState,
                         m: ModelKey, r: ModelResult)
    requires m in configs && PlacedFully(configs, now, c, before, m, r)
    requires CallMoves(configs.Keys, now, before, after) && ClusterInv(after)
    ensures PlacedFully(configs, now, c, after, m, r)
  {
    hide CallMoves, Explained, ClusterInv;
    if configs[m].sized.Bytes? {
      var mid :| CallMoves(configs.Keys, now, c, mid) && CallMoves(configs.Keys, now, mid, before)
                 && Explained(mid, QueryFor(m, configs[m], configs.Keys, now), configs[m], r);
      MovesCompose(configs.Keys, now, mid, before, after);
    }
  }

  lemma OneMorePlacedFully(configs: map<ModelKey, Config>, now: int, c: ClusterState, before: ClusterState, after: ClusterState,
                           results: map<ModelKey, ModelResult>, evictions: set<Key>, m: ModelKey, r: ModelResult, gone: set<Key>)
    requires AllPlacedFully(configs, now, c, before, results) && m in configs && m !in results && configs[m].sized.Bytes?
    requires Placing(configs, now, c, after, results[m := r], evictions)
    requires Progress(configs.Keys, configs[m].pinned, now, before, after, gone, Elements(r.replicas))
    requires Explained(after, QueryFor(m, configs[m], configs.Keys, now), configs[m], r)
    ensures AllPlacedFully(configs, now, c, after, results[m := r])
  {
    hide CallMoves, Explained, ClusterInv;
    assert CallMoves(configs.Keys, now, after, after) by { StayingMoves(configs.Keys, now, after); }
    forall j | j in results[m := r] ensures j in configs && PlacedFully(configs, now, c, after, j, results[m := r][j]) {
      if j != m {
        PlacedFullyStays(configs, now, c, before, after, j, results[j]);
      }
    }
  }

  lemma StayingMoves(models: set<ModelKey>, now: int, c: ClusterState)
    ensures CallMoves(models, now, c, c)
  {
  }

  /** A deploy call part way through its models. */
  ghost predicate Placing(configs: map<ModelKey, Config>, now: int, c: ClusterState, cur: ClusterState,
                          results: map<ModelKey, ModelResult>, evictions: set<Key>) {
    && Progress(configs.Keys, AnyPinned(configs), now, c, cur, evictions, Reported(results))
    && (Reported(results) == {} ==> cur == c)
    && Blamed(configs, now, c, cur, results)
  }

  lemma PlacingStarts(configs: map<ModelKey, Config>, now: int, c: ClusterState, failed: map<ModelKey, ModelResult>)
    requires ClusterInv(c)
    requires forall m :: m in failed ==> m in configs && configs[m].sized.EvaluationFailed?
    requires forall m :: m in failed ==> failed[m] == ModelResult([], Some(NotEvaluated))
    ensures Placing(configs, now, c, c, failed, {}) && AllAnswered(configs, failed)
  {
    ProgressReflexive(configs.Keys, AnyPinned(configs), now, c);
    assert Reported(failed) == {};
    assert forall m :: m in failed ==> failed[m].replicas == [] && m in configs;
  }

  lemma PlacingStep(configs: map<ModelKey, Config>, now: int, c: ClusterState, before: ClusterState, after: ClusterState,
                    results: map<ModelKey, ModelResult>, evictions: set<Key>, m: ModelKey, one: ModelResult, gone: set<Key>)
    requires Placing(configs, now, c, before, results, evictions) && m in configs && m !in results
    requires Progress(configs.Keys, configs[m].pinned, now, before, after, gone, Elements(one.replicas))
    requires one.replicas == [] ==> after == before
    ensures Placing(configs, now, c, after, results[m := one], evictions + gone)
  {
    assert CallMoves(configs.Keys, now, c, before);
    hide Progress, AnyPinned, Reported, Elements, Blamed;
    BlameStep(configs, now, c, before, after, results, m, one, gone);
    PinnedEnough(configs, m, configs.Keys, now, before, after, gone, Elements(one.replicas));
    ProgressComposes(configs.Keys, AnyPinned(configs), now, c, before, after,
                     evictions, Reported(results), gone, Elements(one.replicas));
    ReportedGrows(results, m, one);
    NothingReported(results, one);
  }

  lemma PlacingMeans(configs: map<ModelKey, Config>, now: int, c: ClusterState, cur: ClusterState,
                     results: map<ModelKey, ModelResult>, evictions: set<Key>)
    requires Placing(configs, now, c, cur, results, evictions)
    ensures Progress(configs.Keys, AnyPinned(configs), now, c, cur, evictions, Reported(results))
    ensures Reported(results) == {} ==> cur == c
    ensures Blamed(configs, now, c, cur, results)
  {
  }

  lemma PlacingMoves(configs: map<ModelKey, Config>, now: int, c: ClusterState, cur: ClusterState,
                     results: map<ModelKey, ModelResult>, evictions: set<Key>)
    requires Placing(configs, now, c, cur, results, evictions)
    ensures CallMoves(configs.Keys, now, c, cur) && ClusterInv(cur) && (Reported(results) == {} ==> cur == c)
  {
  }

  lemma AnsweredGrows(configs: map<ModelKey, Config>, results: map<ModelKey, ModelResult>, m: ModelKey, one: ModelResult)
    requires AllAnswered(configs, results) && m in configs && configs[m].sized.Bytes?
    requires one.error.None? <==> configs[m].replicas >= 1 && |one.replicas| == configs[m].replicas
    requires forall k :: k in one.replicas ==> k.model == m
    ensures AllAnswered(configs, results[m := one])
  {
  }

  lemma AnsweredKeys(configs: map<ModelKey, Config>, results: map<ModelKey, ModelResult>)
    requires AllAnswered(configs, results)
    ensures results.Keys <= configs.Keys
  {
  }

  datatype Entry = Entry(model: ModelKey, size: int)

  /** None of these configs would place anything with the cluster at `c`. */
  ghost predicate AllIdle(configs: map<ModelKey, Config>, now: int, c: ClusterState, todo: seq<Entry>) {
    forall j :: 0 <= j < |todo| ==>
      && todo[j].model in configs && configs[todo[j].model].sized.Bytes?
      && Idles(c, QueryFor(todo[j].model, configs[todo[j].model], configs.Keys, now), configs[todo[j].model])
  }

  predicate NoTrip(configs: map<ModelKey, Config>, c: ClusterState, todo: seq<Entry>) {
    forall j :: 0 <= j < |todo| ==> todo[j].model in configs && !Trips(c, configs[todo[j].model])
  }

  predicate SomeCredits(configs: map<ModelKey, Config>, now: int, c: ClusterState) {
    exists m :: m in configs && configs[m].sized.Bytes? && configs[m].replicas >= 1
                && CreditsSome(c, QueryFor(m, configs[m], configs.Keys, now))
  }

  /** The config asks for nothing, or some node has it without crediting cards. */
  predicate NotAlways(configs: map<ModelKey, Config>, now: int, c: ClusterState, m: ModelKey)
    requires m in configs
  {
    configs[m].sized.Bytes? && configs[m].replicas >= 1 ==>
      !CreditsAll(c, QueryFor(m, configs[m], configs.Keys, now))
  }

  predicate NoneAlwaysCredits(configs: map<ModelKey, Config>, now: int, c: ClusterState) {
    forall m :: m in configs ==> NotAlways(configs, now, c, m)
  }

  lemma NoneIdleYet(configs: map<ModelKey, Config>, now: int, c: ClusterState, todo: seq<Entry>, failed: map<ModelKey, ModelResult>)
    requires forall m :: m in failed ==> failed[m] == ModelResult([], Some(NotEvaluated))
    ensures AllIdle(configs, now, c, todo[..0]) && Reported(failed) == {}
  {
  }

  lemma IdleGrows(configs: map<ModelKey, Config>, now: int, c: ClusterState, todo: seq<Entry>, i: nat)
    requires Lists(configs, todo) && i < |todo|
    ensures todo[i].model in configs && configs[todo[i].model].sized.Bytes?
    ensures AllIdle(configs, now, c, todo[..i + 1]) <==>
      && AllIdle(configs, now, c, todo[..i])
      && Idles(c, QueryFor(todo[i].model, configs[todo[i].model], configs.Keys, now), configs[todo[i].model])
  {
    hide Idles;
    assert todo[..i + 1] == todo[..i] + [todo[i]];
  }

  lemma NothingMore(results: map<ModelKey, ModelResult>, m: ModelKey, one: ModelResult)
    requires m !in results
    ensures Reported(results[m := one]) == {} <==> Reported(results) == {} && one.replicas == []
  {
    ReportedGrows(results, m, one);
    NothingReported(results, one);
  }

  function BiggestFirst(e: Entry): int { 0 - e.size }

  predicate Descending(todo: seq<Entry>) {
    forall i, j :: 0 <= i < j < |todo| ==> todo[i].size >= todo[j].size
  }

  /** `todo` lists, once each, the configs whose size is known. */
  predicate Lists(configs: map<ModelKey, Config>, todo: seq<Entry>) {
    && (forall i, j :: 0 <= i < j < |todo| ==> todo[i].model != todo[j].model)
    && (forall i :: 0 <= i < |todo| ==> todo[i].model in configs && configs[todo[i].model].sized == Bytes(todo[i].size))
    && (forall m :: m in configs && configs[m].sized.Bytes? ==> Entry(m, configs[m].sized.size) in todo)
  }

  /** A deploy call that has dealt with the first `i` of `todo`. */
  ghost predicate Midcall(configs: map<ModelKey, Config>, now: int, c: ClusterState, cur: ClusterState, todo: seq<Entry>,
                          i: nat, results: map<ModelKey, ModelResult>, evictions: set<Key>)
  {
    && Lists(configs, todo) && i <= |todo|
    && Placing(configs, now, c, cur, results, evictions)
    && AllAnswered(configs, results) && AllPlacedFully(configs, now, c, cur, results)
    && (Reported(results) == {} <==> AllIdle(configs, now, c, todo[..i]))
    && (forall m :: m in results <==>
          m in configs && (configs[m].sized.EvaluationFailed? || exists j :: 0 <= j < i && todo[j].model == m))
    && (forall j :: 0 <= j < i ==> !Trips(c, configs[todo[j].model]))
    && (c.nodes != map[] ==> forall j :: 0 <= j < i ==> NotAlways(configs, now, c, todo[j].model))
  }

  lemma MidcallStarts(configs: map<ModelKey, Config>, now: int, c: ClusterState, todo: seq<Entry>, failed: map<ModelKey, ModelResult>)
    requires ClusterInv(c) && Lists(configs, todo)
    requires forall m :: m in failed <==> m in configs && configs[m].sized.EvaluationFailed?
    requires forall m :: m in failed ==> failed[m] == ModelResult([], Some(NotEvaluated))
    ensures Midcall(configs, now, c, c, todo, 0, failed, {})
  {
    PlacingStarts(configs, now, c, failed);
    NoneSizedYet(configs, now, c, failed);
    NoneIdleYet(configs, now, c, todo, failed);
    hide Placing, AllAnswered, AllPlacedFully, AllIdle, Reported, ClusterInv;
  }

  /** What the next model is placed under. */
  lemma MidcallSees(configs: map<ModelKey, Config>, now: int, c: ClusterState, cur: ClusterState, todo: seq<Entry>,
                    i: nat, results: map<ModelKey, ModelResult>, evictions: set<Key>)
    requires Midcall(configs, now, c, cur, todo, i, results, evictions) && i < |todo|
    ensures todo[i].model in configs && configs[todo[i].model].sized.Bytes? && todo[i].model !in results
    ensures CallMoves(configs.Keys, now, c, cur)
  {
    PlacingMoves(configs, now, c, cur, results, evictions);
    hide Placing, AllAnswered, AllPlacedFully, AllIdle, Reported, CallMoves;
  }

  lemma CreditSeen(configs: map<ModelKey, Config>, now: int, c: ClusterState, cur: ClusterState, m: ModelKey)
    requires CallMoves(configs.Keys, now, c, cur) && m in configs && configs[m].sized.Bytes? && configs[m].replicas >= 1
    requires CreditsSome(cur, QueryFor(m, configs[m], configs.Keys, now))
    ensures SomeCredits(configs, now, c)
  {
    CreditsStay(configs.Keys, now, c, cur, QueryFor(m, configs[m], configs.Keys, now));
    hide CallMoves, CreditsSome;
  }

  /** What the replica loop of one model did to the cluster. */
  ghost predicate Dealt(configs: map<ModelKey, Config>, now: int, before: ClusterState, after: ClusterState,
                        m: ModelKey, one: ModelResult, gone: set<Key>) {
    && m in configs && configs[m].sized.Bytes?
    && Progress(configs.Keys, configs[m].pinned, now, before, after, gone, Elements(one.replicas))
    && (one.replicas == [] ==> after == before)
  }

  /** One more model dealt with. */
  lemma MidcallPlaces(configs: map<ModelKey, Config>, now: int, c: ClusterState, before: ClusterState, after: ClusterState,
                      todo: seq<Entry>, i: nat, results: map<ModelKey, ModelResult>, evictions: set<Key>,
                      one: ModelResult, gone: set<Key>)
    requires Midcall(configs, now, c, before, todo, i, results, evictions) && i < |todo|
    requires todo[i].model !in results && Dealt(configs, now, before, after, todo[i].model, one, gone)
    ensures Placing(configs, now, c, after, results[todo[i].model := one], evictions + gone)
    ensures Reported(results[todo[i].model := one]) == {} <==> Reported(results) == {} && one.replicas == []
    ensures Reported(results) == {} ==> before == c
  {
    PlacingMoves(configs, now, c, before, results, evictions);
    PlacingStep(configs, now, c, before, after, results, evictions, todo[i].model, one, gone);
    NothingMore(results, todo[i].model, one);
    hide Placing, AllAnswered, AllPlacedFully, AllIdle, Reported, CallMoves, Progress;
  }

  lemma AllListed(configs: map<ModelKey, Config>, todo: seq<Entry>)
    requires Lists(configs, todo)
    ensures forall j :: 0 <= j < |todo| ==> todo[j].model in configs
  {
  }

  lemma MidcallCredits(configs: map<ModelKey, Config>, now: int, c: ClusterState, before: ClusterState, after: ClusterState,
                       todo: seq<Entry>, i: nat, results: map<ModelKey, ModelResult>, evictions: set<Key>,
                       one: ModelResult, gone: set<Key>)
    requires Midcall(configs, now, c, before, todo, i, results, evictions) && i < |todo|
    requires todo[i].model !in results && Dealt(configs, now, before, after, todo[i].model, one, gone)
    ensures Progress(configs.Keys, AnyPinned(configs), now, c, after, evictions + gone, Reported(results[todo[i].model := one]))
  {
    hide Placing, Midcall, Dealt, Reported, Progress, AnyPinned;
    MidcallPlaces(configs, now, c, before, after, todo, i, results, evictions, one, gone);
    PlacingMeans(configs, now, c, after, results[todo[i].model := one], evictions + gone);
  }

  lemma MidcallRaises(configs: map<ModelKey, Config>, now: int, c: ClusterState, before: ClusterState, after: ClusterState,
                      todo: seq<Entry>, i: nat, results: map<ModelKey, ModelResult>, evictions: set<Key>,
                      one: ModelResult, gone: set<Key>)
    requires Midcall(configs, now, c, before, todo, i, results, evictions) && i < |todo|
    requires todo[i].model !in results && Dealt(configs, now, before, after, todo[i].model, one, gone)
    requires Trips(c, configs[todo[i].model]) && one.replicas == []
    ensures var rs := results[todo[i].model := one];
      && Progress(configs.Keys, AnyPinned(configs), now, c, after, evictions + gone, Reported(rs))
      && Blamed(configs, now, c, after, rs) && (Reported(rs) == {} ==> after == c)
      && (Reported(rs) == {} <==> AllIdle(configs, now, c, todo[..i]))
    ensures NoTrip(configs, c, todo[..i]) && exists m :: m in configs && Trips(c, configs[m])
  {
    hide Placing, AllAnswered, AllPlacedFully, AllIdle, Reported, CallMoves, Progress, Blamed, Trips, NotAlways, Elements, Lists;
    MidcallPlaces(configs, now, c, before, after, todo, i, results, evictions, one, gone);
    PlacingMeans(configs, now, c, after, results[todo[i].model := one], evictions + gone);
    AllListed(configs, todo);
  }

  /** The loop ended of its own accord, and what its answer then says. */
  ghost predicate Judged(configs: map<ModelKey, Config>, now: int, c: ClusterState, before: ClusterState, after: ClusterState,
                         m: ModelKey, one: ModelResult)
    requires m in configs && configs[m].sized.Bytes?
  {
    var cfg, q := configs[m], QueryFor(m, configs[m], configs.Keys, now);
    && !Trips(c, cfg)
    && (one.replicas == [] <==> Idles(before, q, cfg)) && Explained(after, q, cfg, one)
    && (one.error.None? <==> cfg.replicas >= 1 && |one.replicas| == cfg.replicas)
    && (one.replicas != [] ==> !CreditsAll(before, q)) && (forall k :: k in one.replicas ==> k.model == m)
  }

  lemma MidcallStep(configs: map<ModelKey, Config>, now: int, c: ClusterState, before: ClusterState, after: ClusterState,
                    todo: seq<Entry>, i: nat, results: map<ModelKey, ModelResult>, evictions: set<Key>,
                    one: ModelResult, gone: set<Key>)
    requires Midcall(configs, now, c, before, todo, i, results, evictions) && i < |todo|
    requires todo[i].model !in results && Dealt(configs, now, before, after, todo[i].model, one, gone)
    requires Judged(configs, now, c, before, after, todo[i].model, one)
    ensures Midcall(configs, now, c, after, todo, i + 1, results[todo[i].model := one], evictions + gone)
  {
    hide Placing, AllAnswered, AllPlacedFully, AllIdle, Reported, CallMoves, Progress, Blamed, Trips, Explained, Idles,
         CreditsAll, Lists, Elements;
    var m := todo[i].model;
    var q, rs := QueryFor(m, configs[m], configs.Keys, now), results[m := one];
    MidcallPlaces(configs, now, c, before, after, todo, i, results, evictions, one, gone);
    AnsweredGrows(configs, results, m, one);
    OneMorePlacedFully(configs, now, c, before, after, results, evictions + gone, m, one, gone);
    IdleGrows(configs, now, c, todo, i);
    PlacingMoves(configs, now, c, before, results, evictions);
    CreditsStay(configs.Keys, now, c, before, q);
    IdleMeans(c, before, q, configs[m], one, after);
    ReachesOne(todo, configs, i, results, m, one);
  }

  lemma ReachesOne(todo: seq<Entry>, configs: map<ModelKey, Config>, i: nat, results: map<ModelKey, ModelResult>,
                   m: ModelKey, one: ModelResult)
    requires i < |todo| && todo[i].model == m && m in configs
    requires forall j :: j in results <==>
      j in configs && (configs[j].sized.EvaluationFailed? || exists x :: 0 <= x < i && todo[x].model == j)
    ensures forall j :: j in results[m := one] <==>
      j in configs && (configs[j].sized.EvaluationFailed? || exists x :: 0 <= x < i + 1 && todo[x].model == j)
  {
  }

  /** A model that placed nothing was idle, refused by every node, on its own
      account; and a model no node would have without crediting places something. */
  lemma IdleMeans(c: ClusterState, before: ClusterState, q: Query, cfg: Config, one: ModelResult, after: ClusterState)
    requires (one.replicas == [] <==> Idles(before, q, cfg)) && q.share.None? && ClusterInv(before)
    requires CreditsAll(before, q) <==> CreditsAll(c, q)
    requires one.replicas != [] ==> !CreditsAll(before, q)
    requires before.nodes.Keys == c.nodes.Keys
    ensures c.nodes != map[] && cfg.replicas >= 1 ==> !CreditsAll(c, q)
  {
    hide NodeInv, Credits, LevelFor, OneHomeEach;
    if c.nodes != map[] && cfg.replicas >= 1 && one.replicas == [] {
      SomeNode(c);
      var id :| id in c.nodes;
      assert NodeInv(before.nodes[id]) && LevelFor(before.nodes[id], q) == CantAccommodate;
      RefusedCreditsNothing(before.nodes[id], q);
    }
  }

  lemma SomeNode(c: ClusterState)
    requires c.nodes != map[]
    ensures exists id :: id in c.nodes
  {
    assert (forall id :: id !in c.nodes) ==> c.nodes == map[];
  }

  lemma MidcallEnds(configs: map<ModelKey, Config>, now: int, c: ClusterState, cur: ClusterState, todo: seq<Entry>,
                    results: map<ModelKey, ModelResult>, evictions: set<Key>)
    requires Midcall(configs, now, c, cur, todo, |todo|, results, evictions)
    ensures Progress(configs.Keys, AnyPinned(configs), now, c, cur, evictions, Reported(results))
    ensures Blamed(configs, now, c, cur, results) && (Reported(results) == {} ==> cur == c)
    ensures Reported(results) == {} <==> AllIdle(configs, now, c, todo[..|todo|])
    ensures results.Keys == configs.Keys && AllAnswered(configs, results) && AllPlacedFully(configs, now, c, cur, results)
    ensures c.nodes != map[] ==> NoneAlwaysCredits(configs, now, c)
    ensures forall m :: m in configs ==> !Trips(c, configs[m])
  {
    hide Placing, AllAnswered, AllPlacedFully, AllIdle, Reported, CallMoves, Progress, Blamed, NotAlways, Trips, Lists;
    PlacingMeans(configs, now, c, cur, results, evictions);
    AnsweredKeys(configs, results);
    forall m | m in configs
      ensures m in results && !Trips(c, configs[m]) && (c.nodes != map[] ==> NotAlways(configs, now, c, m))
    {
      if configs[m].sized.Bytes? {
        var j := ListedAt(configs, todo, m);
        assert todo[j].model == m;
      } else {
        FailedNeverTrips(configs, now, c, m);
      }
    }
    assert forall m :: m in configs.Keys ==> m in results.Keys;
  }

  lemma FailedNeverTrips(configs: map<ModelKey, Config>, now: int, c: ClusterState, m: ModelKey)
    requires m in configs && configs[m].sized.EvaluationFailed?
    ensures !Trips(c, configs[m]) && NotAlways(configs, now, c, m)
  {
  }

  lemma ListedAt(configs: map<ModelKey, Config>, todo: seq<Entry>, m: ModelKey) returns (j: nat)
    requires Lists(configs, todo) && m in configs && configs[m].sized.Bytes?
    ensures j < |todo| && todo[j].model == m
  {
    var e := Entry(m, configs[m].sized.size);
    j :| j < |todo| && todo[j] == e;
  }

  /** The size pass of `deploy`: failures become errors, the rest are listed,
      biggest first. */
  method SizeConfigs(configs: map<ModelKey, Config>) returns (failed: map<ModelKey, ModelResult>, todo: seq<Entry>)
    ensures Lists(configs, todo) && Descending(todo)
    ensures forall m :: m in failed <==> m in configs && configs[m].sized.EvaluationFailed?
    ensures forall m :: m in failed ==> failed[m] == ModelResult([], Some(NotEvaluated))
  {
    var keys := Listing(configs.Keys);
    failed := map[];
    var listed: seq<Entry> := [];
    for i := 0 to |keys|
      invariant Distinct(listed)
      invariant forall e :: e in listed <==>
        e.model in keys[..i] && e.model in configs && configs[e.model].sized == Bytes(e.size)
      invariant forall m :: m in failed <==> m in keys[..i] && m in configs && configs[m].sized.EvaluationFailed?
      invariant forall m :: m in failed ==> failed[m] == ModelResult([], Some(NotEvaluated))
    {
      var m := keys[i];
      assert m in keys && m !in keys[..i] && keys[..i + 1] == keys[..i] + [m];
      match configs[m].sized
      case EvaluationFailed => failed := failed[m := ModelResult([], Some(NotEvaluated))];
      case Bytes(size) => listed := listed + [Entry(m, size)];
    }
    assert keys[..|keys|] == keys;
    SortDistinct(listed, BiggestFirst);
    todo := SortBy(listed, BiggestFirst);
    assert forall i, j :: 0 <= i < j < |todo| ==> BiggestFirst(todo[i]) <= BiggestFirst(todo[j]);
    SortedLists(configs, todo);
  }

  lemma SortedLists(configs: map<ModelKey, Config>, todo: seq<Entry>)
    requires Distinct(todo)
    requires forall e :: e in todo <==> e.model in configs && configs[e.model].sized == Bytes(e.size)
    ensures Lists(configs, todo)
  {
    assert forall i :: 0 <= i < |todo| ==> todo[i] in todo;
    forall i, j | 0 <= i < j < |todo| ensures todo[i].model != todo[j].model {
      assert todo[i] != todo[j];
    }
  }

  // ------------------------------------------------------- eviction on request

  predicate HoldsModel(n: NodeState, model: ModelKey) {
    (exists k :: k in n.hot && k.model == model) || (exists k :: k in n.warm && k.model == model)
  }

  /** Taking all of `model` off a node: nothing of it is left, every other HOT
      replica stays as it was. */
  predicate Purged(model: ModelKey, n: NodeState, n': NodeState) {
    !HoldsModel(n', model) && n'.hot == Outside(n.hot, {model})
  }

  /** What `Cluster.evict` does to one node. */
  ghost predicate EvictedFrom(target: Option<Key>, model: ModelKey, issued: nat, now: int, n: NodeState, n': NodeState) {
    && NodeInv(n') && Moves({}, issued, now, n, n')
    && match target
       case None => Purged(model, n, n')
       case Some(k) => if Holds(n, k) then Evicts(n, k, {}, now, n') else n' == n
  }

  /** Every node is untouched or evicted from. */
  ghost predicate EvictedAcross(target: Option<Key>, model: ModelKey, now: int, c: ClusterState, c': ClusterState) {
    && c'.nodes.Keys == c.nodes.Keys && c'.issued == c.issued
    && forall id :: id in c.nodes ==>
         c'.nodes[id] == c.nodes[id] || EvictedFrom(target, model, c.issued, now, c.nodes[id], c'.nodes[id])
  }

  /** The snapshots one node adds to the answer: of the named replica if it is
      there; otherwise of every HOT replica of the model, and of those WARM ones
      that parking the others has not already dropped. */
  predicate Snapshots(target: Option<Key>, model: ModelKey, n: NodeState, seen: seq<Key>) {
    match target
    case Some(k) => seen == if Holds(n, k) then [k] else []
    case None =>
      && (forall k :: k in seen ==> Holds(n, k) && k.model == model)
      && (forall k :: k in n.hot && k.model == model ==> k in seen)
      && (seen == [] <==> !HoldsModel(n, model))
  }

  /** The answer, once `done` nodes have been visited. */
  predicate Seen(target: Option<Key>, model: ModelKey, c: ClusterState, done: set<NodeId>, seen: seq<Key>)
    requires done <= c.nodes.Keys
  {
    match target
    case Some(k) => seen == if exists j :: j in done && Holds(c.nodes[j], k) then [k] else []
    case None =>
      && (forall k :: k in seen ==> k.model == model && exists j :: j in done && Holds(c.nodes[j], k))
      && (forall j, k :: j in done && k in c.nodes[j].hot && k.model == model ==> k in seen)
      && (seen == [] <==> forall j :: j in done ==> !HoldsModel(c.nodes[j], model))
  }

  lemma SeenGrows(target: Option<Key>, model: ModelKey, c: ClusterState, done: set<NodeId>, seen: seq<Key>,
                  id: NodeId, more: seq<Key>)
    requires done <= c.nodes.Keys && id in c.nodes && Seen(target, model, c, done, seen)
    requires Snapshots(target, model, c.nodes[id], more) && (target.Some? ==> seen == [])
    ensures Seen(target, model, c, done + {id}, seen + more)
  {
    hide Holds, HoldsModel;
    if target.None? {
      forall k | k in seen + more ensures k.model == model && exists j :: j in done + {id} && Holds(c.nodes[j], k) {
        if k in seen {
          var j :| j in done && Holds(c.nodes[j], k);
          assert j in done + {id};
        } else {
          assert k in more && id in done + {id};
        }
      }
    } else if Holds(c.nodes[id], target.value) {
      assert id in done + {id};
    }
  }

  /** The node loop of `Cluster.evict` part way: `done` nodes visited, the others
      as they were, nothing changed at all while nothing was `seen`. */
  ghost predicate Sweep(target: Option<Key>, model: ModelKey, now: int, c: ClusterState, cur: ClusterState,
                        done: set<NodeId>, seen: seq<Key>) {
    && done <= c.nodes.Keys && cur.nodes.Keys == c.nodes.Keys && cur.issued == c.issued
    && (forall j :: j in c.nodes && j !in done ==> cur.nodes[j] == c.nodes[j])
    && (forall j :: j in done ==> EvictedFrom(target, model, c.issued, now, c.nodes[j], cur.nodes[j]))
    && (seen == [] ==> cur == c)
    && Seen(target, model, c, done, seen)
  }

  /** A named replica is evicted on the one node that holds it, parked or dropped
      as that node's `evict` would, and on no other; the answer names it exactly
      when some node held it. */
  ghost predicate EvictedNamed(k: Key, now: int, c: ClusterState, c': ClusterState, seen: seq<Key>) {
    && c'.nodes.Keys == c.nodes.Keys && c'.issued == c.issued
    && (forall id :: id in c.nodes ==>
          if Holds(c.nodes[id], k) then Evicts(c.nodes[id], k, {}, now, c'.nodes[id]) else c'.nodes[id] == c.nodes[id])
    && seen == if exists id :: id in c.nodes && Holds(c.nodes[id], k) then [k] else []
  }

  lemma SweepStarts(target: Option<Key>, model: ModelKey, now: int, c: ClusterState)
    ensures Sweep(target, model, now, c, c, {}, [])
  {
  }

  lemma SweepNamed(target: Option<Key>, model: ModelKey, now: int, c: ClusterState, cur: ClusterState,
                   done: set<NodeId>, seen: seq<Key>)
    requires ClusterInv(c) && Sweep(target, model, now, c, cur, done, seen)
    ensures cur.issued == c.issued && cur.nodes.Keys == c.nodes.Keys
    ensures forall j :: j in c.nodes ==> cur.nodes[j].id == j
    ensures forall j :: j in c.nodes && j !in done ==> cur.nodes[j] == c.nodes[j]
  {
  }

  lemma SweepStep(target: Option<Key>, model: ModelKey, now: int, c: ClusterState, cur: ClusterState,
                  done: set<NodeId>, seen: seq<Key>, id: NodeId, n': NodeState, more: seq<Key>)
    requires Sweep(target, model, now, c, cur, done, seen) && id in c.nodes && id !in done
    requires EvictedFrom(target, model, c.issued, now, c.nodes[id], n') && (target.Some? ==> seen == [])
    requires Snapshots(target, model, c.nodes[id], more) && (more == [] ==> n' == c.nodes[id])
    ensures Sweep(target, model, now, c, cur.(nodes := cur.nodes[id := n']), done + {id}, seen + more)
  {
    hide EvictedFrom, Seen, Snapshots;
    SeenGrows(target, model, c, done, seen, id, more);
    if seen + more == [] {
      assert cur.nodes[id := n'] == c.nodes;
    }
  }

  lemma SweptAcross(target: Option<Key>, model: ModelKey, now: int, c: ClusterState, cur: ClusterState,
                    done: set<NodeId>, seen: seq<Key>)
    requires ClusterInv(c) && Sweep(target, model, now, c, cur, done, seen)
    ensures EvictedAcross(target, model, now, c, cur) && ClusterInv(cur) && CallMoves({}, now, c, cur)
    ensures seen == [] ==> cur == c
    ensures target.None? && done == c.nodes.Keys ==>
              Seen(None, model, c, c.nodes.Keys, seen) && forall id :: id in c.nodes ==> Purged(model, c.nodes[id], cur.nodes[id])
    ensures target.Some? && (seen != [] || done == c.nodes.Keys) ==> EvictedNamed(target.value, now, c, cur, seen)
  {
    EvictedAcrossMoves(target, model, now, c, cur);
    if target.Some? && (seen != [] || done == c.nodes.Keys) {
      SweptNamed(target.value, model, now, c, cur, done, seen);
    }
    hide CallMoves, Moves, NodeInv, Evicts, Purged, EvictedNamed;
  }

  lemma SweptNamed(k: Key, model: ModelKey, now: int, c: ClusterState, cur: ClusterState, done: set<NodeId>, seen: seq<Key>)
    requires OneHomeEach(c) && Sweep(Some(k), model, now, c, cur, done, seen)
    requires seen != [] || done == c.nodes.Keys
    ensures EvictedNamed(k, now, c, cur, seen)
  {
    hide Moves, NodeInv, Evicts;
    forall id | id in c.nodes
      ensures if Holds(c.nodes[id], k) then Evicts(c.nodes[id], k, {}, now, cur.nodes[id]) else cur.nodes[id] == c.nodes[id]
    {
      if Holds(c.nodes[id], k) && seen != [] {
        var j :| j in done && Holds(c.nodes[j], k);
        assert j == id;
      }
    }
  }

  /** A call that places nothing gives no replica a new home. */
  lemma EvictionKeepsHomes(now: int, c: ClusterState, c': ClusterState)
    requires OneHomeEach(c) && CallMoves({}, now, c, c')
    ensures OneHomeEach(c')
  {
    forall id, k | id in c'.nodes && Holds(c'.nodes[id], k) ensures Holds(c.nodes[id], k) {
      assert Moves({}, c.issued, now, c.nodes[id], c'.nodes[id]);
    }
    hide CallMoves, Holds;
  }

  lemma EvictedAcrossMoves(target: Option<Key>, model: ModelKey, now: int, c: ClusterState, c': ClusterState)
    requires ClusterInv(c) && EvictedAcross(target, model, now, c, c')
    ensures ClusterInv(c') && CallMoves({}, now, c, c')
  {
    hide OneHomeEach, Moves, NodeInv, IdsBelow, EvictedFrom;
    forall id | id in c.nodes
      ensures Moves({}, c.issued, now, c.nodes[id], c'.nodes[id])
      ensures c'.nodes[id].id == id && NodeInv(c'.nodes[id]) && IdsBelow(c'.nodes[id], c.issued)
    {
      if c'.nodes[id] == c.nodes[id] {
        MovesReflexive({}, c.issued, now, c.nodes[id]);
      } else {
        EvictedFromKeeps(target, model, c.issued, now, c.nodes[id], c'.nodes[id]);
      }
    }
    EvictionKeepsHomes(now, c, c');
  }

  lemma EvictedFromKeeps(target: Option<Key>, model: ModelKey, issued: nat, now: int, n: NodeState, n': NodeState)
    requires IdsBelow(n, issued) && EvictedFrom(target, model, issued, now, n, n')
    ensures NodeInv(n') && Moves({}, issued, now, n, n') && IdsBelow(n', issued) && n'.id == n.id
  {
    hide NodeInv, Purged, Evicts;
  }

  /** The first `i` replicas of `todo` drained from node `n`, those still there
      when their turn came being `seen`. */
  predicate Drained(n: NodeState, n': NodeState, todo: seq<Key>, i: nat, seen: seq<Key>) {
    && i <= |todo| && n'.hot == n.hot - Elements(todo[..i])
    && (forall k :: k in todo[..i] ==> !Holds(n', k))
    && (forall k :: k in n'.warm ==> Holds(n, k))
    && (seen == [] <==> i == 0) && (i == 0 ==> n' == n)
    && (forall k :: k in seen ==> k in todo[..i])
    && (forall k :: k in todo[..i] && k in n.hot ==> k in seen)
  }

  /** Draining one keeps the drained ones away, and brings none to the cards. */
  predicate DrainedOne(n: NodeState, k: Key, n': NodeState) {
    !Holds(n', k) && n'.hot == n.hot - {k} && forall j :: j in n'.warm ==> Holds(n, j)
  }

  lemma DrainedStarts(n: NodeState, todo: seq<Key>)
    ensures Drained(n, n, todo, 0, [])
  {
    assert Elements(todo[..0]) == {};
  }

  lemma DrainedStep(n: NodeState, mid: NodeState, n': NodeState, todo: seq<Key>, i: nat, seen: seq<Key>)
    requires i < |todo| && Distinct(todo) && Holds(n, todo[i])
    requires Drained(n, mid, todo, i, seen) && (if Holds(mid, todo[i]) then DrainedOne(mid, todo[i], n') else n' == mid)
    ensures i == 0 ==> Holds(mid, todo[i])
    ensures Drained(n, n', todo, i + 1, if Holds(mid, todo[i]) then seen + [todo[i]] else seen)
  {
    var k := todo[i];
    assert todo[..i + 1] == todo[..i] + [k];
    assert k !in todo[..i];
    assert Elements(todo[..i + 1]) == Elements(todo[..i]) + {k};
    assert mid.hot - {k} == n.hot - Elements(todo[..i + 1]);
    assert k in n.hot ==> k in mid.hot;
  }

  lemma DrainedAll(n: NodeState, n': NodeState, todo: seq<Key>, seen: seq<Key>, model: ModelKey)
    requires forall k :: k in todo <==> Holds(n, k) && k.model == model
    requires Drained(n, n', todo, |todo|, seen)
    ensures Purged(model, n, n') && Snapshots(None, model, n, seen)
    ensures seen == [] ==> n' == n
  {
    assert todo[..|todo|] == todo;
    assert n.hot - Elements(todo) == Outside(n.hot, {model});
    forall k: Key | k.model == model ensures !Holds(n', k) {
      assert Holds(n, k) ==> k in todo;
    }
    assert todo != [] ==> todo[0] in todo;
  }

  lemma EvictionsCompose(issued: nat, now: int, a: NodeState, b: NodeState, c: NodeState)
    requires NodeInv(c) && Moves({}, issued, now, a, b) && Moves({}, issued, now, b, c)
    ensures Moves({}, issued, now, a, c)
  {
    MovesTransitive({}, issued, issued, now, a, b, c);
  }

  // ------------------------------------------------------- nodes coming and going

  /** Capacity Ray reports for a node. */
  datatype Capacity = Capacity(memory: nat, cards: nat, budget: nat)

  function Fresh(id: NodeId, cap: Capacity, minAge: Option<int>): NodeState {
    EmptyNode(id, cap.memory, cap.cards, cap.budget, minAge)
  }

  /** The node set brought in step with what Ray reports alive. */
  function Synced(c: ClusterState, alive: map<NodeId, Capacity>, minAge: Option<int>): ClusterState {
    c.(nodes := map id | id in alive :: if id in c.nodes then c.nodes[id] else Fresh(id, alive[id], minAge))
  }

  lemma SyncedKeeps(c: ClusterState, alive: map<NodeId, Capacity>, minAge: Option<int>)
    requires ClusterInv(c) && forall id :: id in alive ==> alive[id].memory > 0 && alive[id].cards > 0
    ensures ClusterInv(Synced(c, alive, minAge))
  {
    forall id | id in alive && id !in c.nodes ensures NodeInv(Fresh(id, alive[id], minAge)) {
      EmptyNodeBalances(id, alive[id].memory, alive[id].cards, alive[id].budget, minAge);
    }
  }

  // ------------------------------------------------------------------ the class

  class Cluster {
    const minAge: Option<int>
    const tpActor: Option<ActorClass>      // None: tensor parallelism is off
    const defaultActor: ActorClass
    var nodes: map<NodeId, Node>
    var issued: nat

    function View(): ClusterState
      reads this, nodes.Values
    {
      ClusterState(map id | id in nodes :: nodes[id].Value(), issued)
    }

    ghost predicate Valid()
      reads this, nodes.Values
    {
      ClusterInv(View())
    }

    constructor (minAge: Option<int>, tpActor: Option<ActorClass>, defaultActor: ActorClass)
      ensures Valid() && View() == ClusterState(map[], 0)
    {
      this.minAge, this.tpActor, this.defaultActor := minAge, tpActor, defaultActor;
      nodes, issued := map[], 0;
    }

    /** `config.actor_class or evaluator.actor_class(...)`. */
    function ActorFor(cfg: Config, cards: nat): (actor: ActorClass)
      ensures cfg.actor.Some? ==> actor == cfg.actor.value
      ensures cfg.actor.None? && tpActor.Some? && cfg.limit.Some? && 2 <= cards <= cfg.limit.value && cfg.limit.value % cards == 0 ==>
        actor == tpActor.value
      ensures cfg.actor.None? && !(tpActor.Some? && cfg.limit.Some? && 2 <= cards <= cfg.limit.value && cfg.limit.value % cards == 0) ==>
        actor == defaultActor
    {
      RunsTensorParallelIff(true, cfg.limit, cards);
      if cfg.actor.Some? then cfg.actor.value
      else if tpActor.Some? && RunsTensorParallel(true, cfg.limit, cards) then tpActor.value
      else defaultActor
    }

    /** Distinct ids are distinct node objects. */
    lemma NodesNamed()
      requires Valid()
      ensures forall j :: j in nodes ==> nodes[j].id == j
    {
      forall j | j in nodes ensures nodes[j].id == j {
        assert View().nodes[j].id == j;
      }
    }

    method EvaluateOn(id: NodeId, model: ModelKey, cfg: Config, models: set<ModelKey>, now: int) returns (e: Evaluation)
      requires Valid() && cfg.sized.Bytes? && id in nodes
      ensures e.Raised? <==> Unsizable(cfg, nodes[id].memory)
      ensures e.Chosen? ==>
        && Decides(View().nodes[id], QueryFor(model, cfg, models, now), e.candidate)
        && e.candidate.level == LevelFor(View().nodes[id], QueryFor(model, cfg, models, now))
    {
      hide IdsBelow, Raises, Unsizable, Decides, LevelFor, GpuBalanced, CpuBalanced, Registered;
      assert View().nodes[id] == nodes[id].Value();
      RaisesIffUnsizable(View().nodes[id], model, cfg, models, now);
      e := nodes[id].Evaluate(Query(model, cfg.sized.size, cfg.pinned, models, cfg.limit, cfg.asked, None, now));
      if e.Chosen? {
        DecidedLevel(View().nodes[id], QueryFor(model, cfg, models, now), e.candidate);
      }
    }

    /** Evaluates every node, keeping the candidates of the best level. */
    method BestCandidates(model: ModelKey, cfg: Config, models: set<ModelKey>, now: int)
        returns (raised: bool, candidates: map<NodeId, Candidate>, ghost best: nat)
      requires Valid() && cfg.sized.Bytes?
      ensures raised <==> Chokes(View(), cfg)
      ensures !raised ==> Shortlist(View(), QueryFor(model, cfg, models, now), nodes.Keys, candidates, best)
    {
      hide Decides, LevelFor, ClusterInv, Unsizable, Shortlist, Shortlisted, Elements, Distinct, FineOn, Chokes;
      ghost var q, c := QueryFor(model, cfg, models, now), View();
      var ids := Listing(nodes.Keys);
      var rank := 0;
      candidates, raised, best := map[], false, 0;
      NothingShortlisted(c, q);
      ElementsEnds(ids);
      FineEverywhere(c, cfg);
      ghost var seen := {};
      for i := 0 to |ids|
        invariant seen == Elements(ids[..i]) && FineOn(c, cfg, seen) && Shortlist(c, q, seen, candidates, rank)
      {
        ElementsGrow(ids, i);
        raised, candidates, rank := Consider(ids[i], model, cfg, models, now, candidates, rank, seen);
        if raised {
          return;
        }
        seen := seen + {ids[i]};
      }
      assert seen == c.nodes.Keys;
      best := rank;
    }

    /** One turn of the candidate loop. */
    method Consider(id: NodeId, model: ModelKey, cfg: Config, models: set<ModelKey>, now: int,
                    candidates: map<NodeId, Candidate>, rank: nat, ghost seen: set<NodeId>)
        returns (raised: bool, candidates': map<NodeId, Candidate>, rank': nat)
      requires Valid() && cfg.sized.Bytes? && id in nodes && id !in seen && FineOn(View(), cfg, seen)
      requires Shortlist(View(), QueryFor(model, cfg, models, now), seen, candidates, rank)
      ensures raised ==> Chokes(View(), cfg)
      ensures !raised ==>
        && FineOn(View(), cfg, seen + {id})
        && Shortlist(View(), QueryFor(model, cfg, models, now), seen + {id}, candidates', rank')
    {
      hide Decides, LevelFor, ClusterInv, Unsizable, Shortlist, Shortlisted, FineOn, Chokes;
      candidates', rank' := candidates, rank;
      var e := EvaluateOn(id, model, cfg, models, now);
      FineOnMore(View(), cfg, seen, id);
      raised := e.Raised?;
      if !raised {
        ShortlistGrows(View(), QueryFor(model, cfg, models, now), seen, candidates, rank, id, e.candidate);
        var more := Shortlisted(candidates, rank, id, e.candidate);
        candidates', rank' := more.0, more.1;
      }
    }

    /** The best node for one replica: none is of a better level. */
    method ChooseNode(model: ModelKey, cfg: Config, models: set<ModelKey>, now: int) returns (r: Choice)
      requires Valid() && cfg.sized.Bytes?
      ensures r.NoNode? <==> nodes == map[]
      ensures r.NodeRaised? <==> Chokes(View(), cfg)
      ensures r.Best? ==>
        && r.id in nodes && Decides(View().nodes[r.id], QueryFor(model, cfg, models, now), r.candidate)
        && (forall j :: j in nodes ==>
              Rank(r.candidate.level) <= Rank(LevelFor(View().nodes[j], QueryFor(model, cfg, models, now))))
        && Preferred(View(), QueryFor(model, cfg, models, now), r.id)
        && (Roomy(View().nodes[r.id], QueryFor(model, cfg, models, now)) ==> r.candidate.evictions == {})
        && (r.uneven <==> AsksUnevenly(cfg))
    {
      hide Decides, LevelFor, ClusterInv, Chokes, Shortlist, Rank, Preferred, Roomy, AsksUnevenly;
      var raised, candidates, best := BestCandidates(model, cfg, models, now);
      if raised {
        ChokesSomewhere(View(), cfg);
        return NodeRaised;
      }
      assert View().nodes.Keys == nodes.Keys;
      ShortlistMeans(View(), QueryFor(model, cfg, models, now), candidates, best);
      if |candidates| == 0 {
        return NoNode;
      }
      var ids := Listing(candidates.Keys);
      var id := ids[0];
      assert id in ids;
      var uneven := exists j :: j in candidates && candidates[j].uneven;
      UnevenMeans(View(), QueryFor(model, cfg, models, now), cfg, candidates, best);
      BestIsPreferred(View(), QueryFor(model, cfg, models, now), id, candidates[id]);
      return Best(id, candidates[id], uneven);
    }

    /** The replica `k` went to node `id` as `cand` says: no node was of a better
        level, its evictions are each parked or dropped as evicting them would, the
        record there is the one asked for, and nothing else moved. */
    ghost predicate BestOn(c: ClusterState, c': ClusterState, q: Query, cfg: Config, k: Key, id: NodeId, cand: Candidate)
      requires cfg.sized.Bytes?
    {
      && id in c.nodes && Decides(c.nodes[id], q, cand) && cand.level != CantAccommodate
      && (forall j :: j in c.nodes ==> Rank(cand.level) <= Rank(LevelFor(c.nodes[j], q))) && Preferred(c, q, id)
      && id in c'.nodes && c' == With(c, id, c'.nodes[id])
      && PlacedAfter(c.nodes[id], cand, q.exclude, c.issued, q.now, k, RecordFor(c.nodes[id], k, cand, cfg, q.now), c'.nodes[id])
      && (if IsCached(c.nodes[id], q.model) then k in c.nodes[id].warm else k.replica == c.issued)
    }

    function RecordFor(n: NodeState, k: Key, cand: Candidate, cfg: Config, now: int): Deployment
      requires cfg.sized.Bytes?
    {
      NodePlacement.Placed(n, k, cand, cfg.sized.size, cfg.pinned, ActorFor(cfg, |cand.gpus|), now)
    }

    ghost predicate PlacedBest(c: ClusterState, c': ClusterState, q: Query, cfg: Config, k: Key, gone: set<Key>)
      requires cfg.sized.Bytes?
    {
      exists id, cand :: BestOn(c, c', q, cfg, k, id, cand) && gone == cand.evictions
    }

    /** One placement of the call. */
    ghost predicate Step(c: ClusterState, c': ClusterState, m: ModelKey, cfg: Config, models: set<ModelKey>, now: int) {
      cfg.sized.Bytes? && exists k, gone :: PlacedBest(c, c', QueryFor(m, cfg, models, now), cfg, k, gone)
    }

    ghost predicate SomeStep(c: ClusterState, c': ClusterState, configs: map<ModelKey, Config>, models: set<ModelKey>, now: int) {
      exists m :: m in configs && Step(c, c', m, configs[m], models, now)
    }

    /** The states a call goes through, one placement of a config in it at a time. */
    ghost predicate Steps(configs: map<ModelKey, Config>, models: set<ModelKey>, now: int, trace: seq<ClusterState>) {
      && trace != []
      && (|trace| > 1 ==>
            var last := |trace| - 1;
            Steps(configs, models, now, trace[..last]) && SomeStep(trace[last - 1], trace[last], configs, models, now))
    }

    lemma {:induction false} StepsJoin(configs: map<ModelKey, Config>, models: set<ModelKey>, now: int,
                                       a: seq<ClusterState>, b: seq<ClusterState>)
      requires Steps(configs, models, now, a) && Steps(configs, models, now, b) && a[|a| - 1] == b[0]
      ensures b != [] && Steps(configs, models, now, a + b[1..])
      ensures (a + b[1..])[0] == a[0] && (a + b[1..])[|a + b[1..]| - 1] == b[|b| - 1]
      decreases |b|
    {
      hide SomeStep;
      if |b| == 1 {
        assert a + b[1..] == a;
      } else {
        var last := |b| - 1;
        StepsJoin(configs, models, now, a, b[..last]);
        assert (a + b[1..])[..|a + b[1..]| - 1] == a + b[..last][1..];
        assert (a + b[1..])[|a + b[1..]| - 2] == b[last - 1];
      }
    }

    lemma OneStep(configs: map<ModelKey, Config>, models: set<ModelKey>, now: int, trace: seq<ClusterState>, c': ClusterState,
                  m: ModelKey, k: Key, gone: set<Key>)
      requires Steps(configs, models, now, trace) && m in configs && configs[m].sized.Bytes?
      requires PlacedBest(trace[|trace| - 1], c', QueryFor(m, configs[m], models, now), configs[m], k, gone)
      ensures Steps(configs, models, now, trace + [c'])
    {
      hide PlacedBest;
      assert Step(trace[|trace| - 1], c', m, configs[m], models, now);
      assert (trace + [c'])[..|trace|] == trace;
    }

    lemma {:induction false} StepsWiden(m: ModelKey, configs: map<ModelKey, Config>, models: set<ModelKey>, now: int, trace: seq<ClusterState>)
      requires m in configs && Steps(map[m := configs[m]], models, now, trace)
      ensures Steps(configs, models, now, trace)
      decreases |trace|
    {
      hide Step;
      if |trace| > 1 {
        StepsWiden(m, configs, models, now, trace[..|trace| - 1]);
      }
    }

    /** One replica of a model in the call: pick the best node, and place it
        there unless even that one refuses. */
    method PlaceOne(model: ModelKey, cfg: Config, models: set<ModelKey>, placed: nat, now: int) returns (r: Placement)
      requires Valid() && cfg.sized.Bytes? && model in models
      modifies this`issued, nodes.Values
      ensures nodes == old(nodes) && (Valid() <==> !r.CreditedBy?)
      ensures RoomIsRealEverywhere(View()) <==> !r.CreditedBy?
      ensures r.Tripped? <==> Chokes(old(View()), cfg)
      ensures r.Tripped? || r.Stopped? ==> View() == old(View())
      ensures r.PlacedAs? ==>
        && nodes != map[] && r.key.model == model && !Refused(old(View()), QueryFor(model, cfg, models, now))
        && Progress(models, cfg.pinned, now, old(View()), View(), r.evicted, {r.key})
        && PlacedBest(old(View()), View(), QueryFor(model, cfg, models, now), cfg, r.key, r.evicted)
        && !CreditsAll(old(View()), QueryFor(model, cfg, models, now))
      ensures r.CreditedBy? ==>
        && r.key.model == model && CreditsSome(old(View()), QueryFor(model, cfg, models, now))
        && exists gone :: PlacedBest(old(View()), View(), QueryFor(model, cfg, models, now), cfg, r.key, gone)
      ensures r.Stopped? ==>
        match r.error
        case NoGpuNodes => nodes == map[]
        case CannotAccommodate(k, uneven) =>
          && k == placed && nodes != map[] && Refused(View(), QueryFor(model, cfg, models, now))
          && (uneven <==> AsksUnevenly(cfg))
        case _ => false
    {
      hide Decides, LevelFor, Progress, ClusterInv, Rank, BestOn, Credits, Chokes, TakesRoom, RoomIsRealEverywhere,
           Preferred, AsksUnevenly, Roomy;
      ghost var q, c := QueryFor(model, cfg, models, now), View();
      SoundIsReal(c);
      var choice := ChooseNode(model, cfg, models, now);
      match choice
      case NoNode => return Stopped(NoGpuNodes);
      case NodeRaised => return Tripped;
      case Best(id, cand, uneven) =>
        if cand.level == CantAccommodate {
          NoneBetter(View(), q, cand);
          return Stopped(CannotAccommodate(placed, uneven));
        }
        SomeTakes(c, q, id, cand);
        CreditsHere(c, q, id, cand);
        var key := DeployOn(id, cand, model, cfg, models, now);
        assert PlacedBest(c, View(), q, cfg, key, cand.evictions);
        if !TakesRoom(cand.gpus, cfg.sized.size) {
          return CreditedBy(key);
        }
        return PlacedAs(key, cand.evictions);
    }

    method DeployOn(id: NodeId, cand: Candidate, model: ModelKey, cfg: Config, models: set<ModelKey>, now: int)
        returns (key: Key)
      requires Valid() && cfg.sized.Bytes? && model in models && id in nodes
      requires Decides(View().nodes[id], QueryFor(model, cfg, models, now), cand) && cand.level != CantAccommodate
      requires forall j :: j in nodes ==>
        Rank(cand.level) <= Rank(LevelFor(View().nodes[j], QueryFor(model, cfg, models, now)))
      requires Preferred(View(), QueryFor(model, cfg, models, now), id)
      modifies this`issued, nodes.Values
      ensures nodes == old(nodes) && key.model == model && (Valid() <==> TakesRoom(cand.gpus, cfg.sized.size))
      ensures RoomIsRealEverywhere(View()) <==> TakesRoom(cand.gpus, cfg.sized.size)
      ensures TakesRoom(cand.gpus, cfg.sized.size) ==> Progress(models, cfg.pinned, now, old(View()), View(), cand.evictions, {key})
      ensures BestOn(old(View()), View(), QueryFor(model, cfg, models, now), cfg, key, id, cand)
    {
      hide NodeInv, ClusterInv, Moves, Decides, HasRoom, Progress, Reclaimable, IsCached, LevelFor, Rank, PlacedAfter, TakesRoom,
           RoomIsReal, RoomIsRealEverywhere, Preferred;
      ghost var q := QueryFor(model, cfg, models, now);
      ghost var c := View();
      NodesNamed();
      AcceptedHasRoom(c.nodes[id], q, cand);
      KnownIds(c, id);
      key := UpdateNode(id, cand, model, cfg, models, now);
      OnlyThisNode(id, c);
      if TakesRoom(cand.gpus, cfg.sized.size) {
        PlacingProgress(c, id, nodes[id].Value(), q, cand.evictions, key);
        SoundIsReal(With(c, id, nodes[id].Value()));
      } else {
        BrokenLedger(With(c, id, nodes[id].Value()), id);
      }
    }

    lemma SameNodes(vs: map<NodeId, NodeState>)
      requires vs.Keys == nodes.Keys && forall j :: j in nodes ==> nodes[j].Value() == vs[j]
      ensures View().nodes == vs
    {
      var mine := View().nodes;
      assert mine.Keys == vs.Keys;
      assert forall j :: j in mine ==> mine[j] == vs[j];
    }

    /** Nodes that keep their value keep their place in the view. */
    lemma OnlyThisNode(id: NodeId, c: ClusterState)
      requires id in nodes && c.nodes.Keys == nodes.Keys && issued == c.issued + 1
      requires forall j :: j in nodes && j != id ==> nodes[j].Value() == c.nodes[j]
      ensures View() == With(c, id, nodes[id].Value())
    {
      var v, w := View().nodes, With(c, id, nodes[id].Value()).nodes;
      assert v.Keys == w.Keys && v[id] == w[id];
      forall j | j in v && j != id ensures v[j] == w[j] { }
      assert v == w;
    }

    /** The call into the node, and what it leaves of the others. */
    method UpdateNode(id: NodeId, cand: Candidate, model: ModelKey, cfg: Config, models: set<ModelKey>, now: int)
        returns (key: Key)
      requires cfg.sized.Bytes? && model in models && id in nodes && forall j :: j in nodes ==> nodes[j].id == j
      requires NodeInv(nodes[id].Value()) && HasRoom(nodes[id].Value(), cand)
      requires forall k :: k in cand.evictions ==> k.model !in models
      requires Key(model, issued) !in nodes[id].deployments && Key(model, issued) !in nodes[id].cache
      modifies this`issued, nodes[id]
      ensures nodes == old(nodes) && issued == old(issued) + 1
      ensures NodeInv(nodes[id].Value()) <==> RoomIsReal(nodes[id].Value())
      ensures RoomIsReal(nodes[id].Value()) <==> TakesRoom(cand.gpus, cfg.sized.size)
      ensures Moves(models, old(issued), now, old(nodes[id].Value()), nodes[id].Value())
      ensures nodes[id].deployments.Keys == old(nodes[id].deployments).Keys - cand.evictions + {key}
      ensures PlacedAfter(old(nodes[id].Value()), cand, models, old(issued), now, key,
                          RecordFor(old(nodes[id].Value()), key, cand, cfg, now), nodes[id].Value())
      ensures key.model == model && key !in old(nodes[id].deployments)
      ensures if IsCached(old(nodes[id].Value()), model) then key in old(nodes[id].cache)
              else key.replica == old(issued)
    {
      hide NodeInv, Moves, HasRoom, IsCached, PlacedAfter, RoomIsReal, TakesRoom;
      key := nodes[id].Deploy(model, cand, cfg.sized.size, cfg.pinned, models,
                              ActorFor(cfg, |cand.gpus|), issued, now);
      issued := issued + 1;
    }

    /** The replica loop of one model. */
    method PlaceModel(model: ModelKey, cfg: Config, models: set<ModelKey>, now: int)
        returns (r: ModelResult, evicted: set<Key>, ending: Ending, ghost trace: seq<ClusterState>)
      requires Valid() && cfg.sized.Bytes? && model in models
      modifies this`issued, nodes.Values
      ensures nodes == old(nodes) && (Valid() <==> !ending.Credited?)
      ensures RoomIsRealEverywhere(View()) <==> !ending.Credited?
      ensures Steps(map[model := cfg], models, now, trace) && trace[0] == old(View()) && trace[|trace| - 1] == View()
      ensures !ending.Credited? ==>
        && (ending.ZeroCards? <==> Trips(old(View()), cfg))
        && Progress(models, cfg.pinned, now, old(View()), View(), evicted, Elements(r.replicas))
        && (r.replicas == [] ==> View() == old(View()))
        && (r.replicas == [] <==> ending.ZeroCards? || Idles(old(View()), QueryFor(model, cfg, models, now), cfg))
      ensures forall k :: k in r.replicas ==> k.model == model
      ensures ending.Finished? ==>
        && (r.error.None? <==> cfg.replicas >= 1 && |r.replicas| == cfg.replicas)
        && Explained(View(), QueryFor(model, cfg, models, now), cfg, r)
        && (r.replicas != [] ==> !CreditsAll(old(View()), QueryFor(model, cfg, models, now)))
      ensures ending.Credited? ==>
        && cfg.replicas >= 1 && CreditsSome(old(View()), QueryFor(model, cfg, models, now)) && |trace| > 1
        && Progress(models, cfg.pinned, now, old(View()), trace[|trace| - 2], evicted, Elements(r.replicas))
        && (r.replicas == [] ==> trace[|trace| - 2] == old(View()))
    {
      hide Progress, ClusterInv, Refused, PlacedBest, Steps, CreditsAll, CreditsSome, Chokes, RoomIsRealEverywhere, AsksUnevenly,
           Elements;
      ghost var c, q := View(), QueryFor(model, cfg, models, now);
      r, evicted, ending, trace := ModelResult([], None), {}, Finished, [c];
      var i := 0;
      SoundIsReal(c);
      ProgressReflexive(models, cfg.pinned, now, c);
      StartsHere(map[model := cfg], models, now, c);
      NoElements();
      while i < cfg.replicas
        invariant 0 <= i && nodes == old(nodes) && Valid() && RoomIsRealEverywhere(View())
        invariant i > 0 ==> !Chokes(c, cfg) && nodes != map[] && !Refused(c, q) && !CreditsAll(c, q)
        invariant r.error.None? && |r.replicas| == i && (i > 0 ==> i <= cfg.replicas)
        invariant Progress(models, cfg.pinned, now, c, View(), evicted, Elements(r.replicas))
        invariant Steps(map[model := cfg], models, now, trace) && trace != [] && trace[0] == c && trace[|trace| - 1] == View()
        invariant forall k :: k in r.replicas ==> k.model == model
        invariant r.replicas == [] ==> View() == c
        decreases cfg.replicas - i
      {
        ghost var before := View();
        ProgressCredits(models, cfg.pinned, now, c, before, evicted, Elements(r.replicas), q);
        ProgressChokes(models, cfg.pinned, now, c, before, evicted, Elements(r.replicas), cfg);
        var step := PlaceOne(model, cfg, models, i, now);
        match step
        case Tripped =>
          ending := ZeroCards;
          return;
        case Stopped(error) =>
          r := r.(error := Some(error));
          SameEmptiness();
          return;
        case CreditedBy(key) =>
          ghost var gone :| PlacedBest(before, View(), q, cfg, key, gone);
          OneStep(map[model := cfg], models, now, trace, View(), model, key, gone);
          trace, ending := trace + [View()], Credited;
          return;
        case PlacedAs(key, gone) =>
          ProgressComposes(models, cfg.pinned, now, c, before, View(),
                           evicted, Elements(r.replicas), gone, {key});
          OneStep(map[model := cfg], models, now, trace, View(), model, key, gone);
          OneMoreElement(r.replicas, key);
          r := r.(replicas := r.replicas + [key]);
          evicted, trace := evicted + gone, trace + [View()];
          i := i + 1;
      }
      if r.replicas == [] && r.error.None? {
        r := r.(error := Some(NothingPlaced));
      }
    }

    lemma NoElements()
      ensures Elements<Key>([]) == {}
    {
    }

    lemma OneMoreElement(ks: seq<Key>, k: Key)
      ensures Elements(ks + [k]) == Elements(ks) + {k}
    {
    }

    lemma SameEmptiness()
      ensures View().nodes == map[] <==> nodes == map[]
    {
      assert View().nodes.Keys == nodes.Keys;
    }

    lemma StartsHere(configs: map<ModelKey, Config>, models: set<ModelKey>, now: int, c: ClusterState)
      ensures Steps(configs, models, now, [c])
    {
    }

    /** `Cluster.deploy`: biggest models first, each placed as often as asked.
        Unless some booking credits cards, the call raises exactly when there is a
        node and some config comes to zero cards; what was placed by then stays.
        `todo` is the order the configs were looked at in and `reached` how far. Where
        a booking does, the answer is that of the call up to it. */
    method Deploy(configs: map<ModelKey, Config>, now: int)
        returns (r: Response, ending: Ending, ghost todo: seq<Entry>, ghost reached: nat, ghost trace: seq<ClusterState>)
      requires Valid()
      modifies this`issued, nodes.Values
      ensures nodes == old(nodes) && (Valid() <==> !ending.Credited?)
      ensures RoomIsRealEverywhere(View()) <==> !ending.Credited?
      ensures Lists(configs, todo) && Descending(todo) && reached <= |todo|
      ensures Steps(configs, configs.Keys, now, trace) && trace[0] == old(View()) && trace[|trace| - 1] == View()
      ensures !ending.Credited? ==>
        && (ending.ZeroCards? <==> exists m :: m in configs && Trips(old(View()), configs[m]))
        && Progress(configs.Keys, AnyPinned(configs), now, old(View()), View(), r.evictions, Reported(r.results))
        && Blamed(configs, now, old(View()), View(), r.results)
        && (r.change <==> Reported(r.results) != {})
        && (!r.change ==> View() == old(View()))
        && (r.change <==> !AllIdle(configs, now, old(View()), todo[..reached]))
      ensures ending.ZeroCards? ==>
        reached < |todo| && Trips(old(View()), configs[todo[reached].model]) && NoTrip(configs, old(View()), todo[..reached])
      ensures ending.Finished? ==>
        && reached == |todo| && r.results.Keys == configs.Keys && AllAnswered(configs, r.results)
        && AllPlacedFully(configs, now, old(View()), View(), r.results)
      ensures ending.Credited? ==>
        && SomeCredits(configs, now, old(View())) && |trace| > 1
        && Progress(configs.Keys, AnyPinned(configs), now, old(View()), trace[|trace| - 2], r.evictions, Reported(r.results))
        && (r.change <==> Reported(r.results) != {})
      ensures ending.Finished? && nodes != map[] ==> NoneAlwaysCredits(configs, now, old(View()))
    {
      hide Midcall, Explained, Progress, ClusterInv, AnyPinned, Reported, Trips, AllAnswered, Elements, Steps, Idles,
           CreditsSome, CreditsAll, AllIdle, Blamed, AllPlacedFully, SomeCredits, NoneAlwaysCredits, NoTrip, Descending, CallMoves,
           RoomIsRealEverywhere, Lists;
      ghost var c := View();
      var results, order := SizeConfigs(configs);
      todo, reached, trace := order, 0, [c];
      var evictions := {};
      SoundIsReal(c);
      MidcallStarts(configs, now, c, order, results);
      StartsHere(configs, configs.Keys, now, c);
      for i := 0 to |order|
        invariant nodes == old(nodes) && Valid() && RoomIsRealEverywhere(View()) && reached == i
        invariant Midcall(configs, now, c, View(), order, i, results, evictions)
        invariant Steps(configs, configs.Keys, now, trace) && trace != [] && trace[0] == c && trace[|trace| - 1] == View()
      {
        var m := order[i].model;
        ghost var before := View();
        MidcallSees(configs, now, c, before, order, i, results, evictions);
        TripsStay(configs.Keys, now, c, before, configs[m]);
        ghost var more;
        var one, gone, stop;
        one, gone, stop, more := PlaceModel(m, configs[m], configs.Keys, now);
        StepsWiden(m, configs, configs.Keys, now, more);
        StepsJoin(configs, configs.Keys, now, trace, more);
        trace := trace + more[1..];
        if stop.Credited? {
          r, ending := Response(results[m := one], evictions + gone, Reported(results[m := one]) != {}), Credited;
          CreditSeen(configs, now, c, before, m);
          MidcallCredits(configs, now, c, before, more[|more| - 2], order, i, results, evictions, one, gone);
          return;
        }
        if stop.ZeroCards? {
          r, ending := Response(results[m := one], evictions + gone, Reported(results[m := one]) != {}), ZeroCards;
          MidcallRaises(configs, now, c, before, View(), order, i, results, evictions, one, gone);
          return;
        }
        MidcallStep(configs, now, c, before, View(), order, i, results, evictions, one, gone);
        results, evictions, reached := results[m := one], evictions + gone, i + 1;
      }
      r, ending := Response(results, evictions, Reported(results) != {}), Finished;
      MidcallEnds(configs, now, c, View(), order, results, evictions);
    }

    // ------------------------------------------------------------- eviction

    /** Drains one replica: off the cards first, then out of the cache. */
    method Drain(node: Node, k: Key, now: int)
      requires NodeInv(node.Value())
      modifies node
      ensures NodeInv(node.Value()) && Moves({}, issued, now, old(node.Value()), node.Value())
      ensures DrainedOne(old(node.Value()), k, node.Value())
    {
      ghost var n := node.Value();
      var left := if k in node.deployments then 2 else if k in node.cache then 1 else 0;
      MovesReflexive({}, issued, now, n);
      while k in node.deployments || k in node.cache
        invariant NodeInv(node.Value()) && Moves({}, issued, now, n, node.Value())
        invariant node.deployments == n.hot || node.deployments == n.hot - {k}
        invariant left == if k in node.deployments then 2 else if k in node.cache then 1 else 0
        decreases left
      {
        ghost var before := node.Value();
        node.Evict(k, {}, now);
        EvictingMoves(before, k, {}, issued, now, node.Value());
        MovesTransitive({}, issued, issued, now, n, before, node.Value());
        left := if k in node.cache then 1 else 0;
      }
    }

    /** The fan-out over one node. */
    method DrainModel(node: Node, model: ModelKey, now: int) returns (seen: seq<Key>)
      requires NodeInv(node.Value())
      modifies node
      ensures NodeInv(node.Value()) && Moves({}, issued, now, old(node.Value()), node.Value())
      ensures Purged(model, old(node.Value()), node.Value())
      ensures Snapshots(None, model, old(node.Value()), seen)
      ensures seen == [] ==> node.Value() == old(node.Value())
    {
      hide NodeInv, Moves, Purged, Snapshots, Drained, DrainedOne;
      ghost var n := node.Value();
      var todo := Listing(set k | k in node.deployments.Keys + node.cache.Keys && k.model == model);
      seen := [];
      MovesReflexive({}, issued, now, n);
      DrainedStarts(n, todo);
      for i := 0 to |todo|
        invariant NodeInv(node.Value()) && Moves({}, issued, now, n, node.Value())
        invariant Drained(n, node.Value(), todo, i, seen)
      {
        var k := todo[i];
        assert k in todo;
        ghost var before := node.Value();
        ghost var had := seen;
        if k in node.deployments || k in node.cache {
          seen := seen + [k];
          Drain(node, k, now);
          EvictionsCompose(issued, now, n, before, node.Value());
        }
        DrainedStep(n, before, node.Value(), todo, i, had);
      }
      DrainedAll(n, node.Value(), todo, seen, model);
    }

    /** `Cluster.evict` on the nodes it reaches. */
    method EvictOn(node: Node, model: ModelKey, target: Option<Key>, now: int) returns (seen: seq<Key>)
      requires NodeInv(node.Value())
      modifies node
      ensures seen == [] ==> node.Value() == old(node.Value())
      ensures EvictedFrom(target, model, issued, now, old(node.Value()), node.Value())
      ensures Snapshots(target, model, old(node.Value()), seen)
    {
      ghost var n := node.Value();
      MovesReflexive({}, issued, now, n);
      match target
      case None => seen := DrainModel(node, model, now);
      case Some(k) =>
        seen := [];
        if k in node.deployments || k in node.cache {
          seen := [k];
          node.Evict(k, {}, now);
          EvictingMoves(n, k, {}, issued, now, node.Value());
        }
    }

    /** `Cluster.evict`: one named replica, on the first node that holds it, or
        every replica of a model on every node. */
    method Evict(model: ModelKey, which: Option<ReplicaId>, now: int) returns (seen: seq<Key>)
      requires Valid()
      modifies nodes.Values
      ensures nodes == old(nodes) && Valid() && CallMoves({}, now, old(View()), View())
      ensures EvictedAcross(if which.Some? then Some(Key(model, which.value)) else None, model, now, old(View()), View())
      ensures which.None? ==> forall id :: id in old(View()).nodes ==>
        Purged(model, old(View()).nodes[id], View().nodes[id])
      ensures which.None? ==> Seen(None, model, old(View()), old(View()).nodes.Keys, seen)
      ensures which.Some? ==> EvictedNamed(Key(model, which.value), now, old(View()), View(), seen)
      ensures seen == [] ==> View() == old(View())
    {
      hide Sweep, ClusterInv, EvictedAcross, CallMoves, Purged, Seen, EvictedNamed;
      ghost var c := View();
      var target := if which.Some? then Some(Key(model, which.value)) else None;
      ghost var done;
      seen, done := EvictAlong(model, target, now);
      SweptAcross(target, model, now, c, View(), done, seen);
    }

    /** The node loop, left early once a named replica has been found. */
    method EvictAlong(model: ModelKey, target: Option<Key>, now: int) returns (seen: seq<Key>, ghost done: set<NodeId>)
      requires Valid()
      modifies nodes.Values
      ensures Sweep(target, model, now, old(View()), View(), done, seen)
      ensures done == nodes.Keys || (target.Some? && seen != [])
    {
      hide Sweep, ClusterInv, Elements, Distinct;
      ghost var c := View();
      var ids := Listing(nodes.Keys);
      ElementsEnds(ids);
      SweepStarts(target, model, now, c);
      seen, done := [], {};
      var i := 0;
      while i < |ids| && (target.None? || seen == [])
        invariant 0 <= i <= |ids| && done == Elements(ids[..i])
        invariant Sweep(target, model, now, c, View(), done, seen)
      {
        ElementsGrow(ids, i);
        var one := EvictAt(ids[i], model, target, now, c, done, seen);
        seen, done, i := seen + one, done + {ids[i]}, i + 1;
      }
    }

    method EvictAt(id: NodeId, model: ModelKey, target: Option<Key>, now: int,
                   ghost c: ClusterState, ghost done: set<NodeId>, ghost seen: seq<Key>) returns (one: seq<Key>)
      requires ClusterInv(c) && c.nodes.Keys == nodes.Keys && id in nodes && id !in done
      requires Sweep(target, model, now, c, View(), done, seen) && (target.Some? ==> seen == [])
      modifies nodes[id]
      ensures Sweep(target, model, now, c, View(), done + {id}, seen + one)
    {
      hide Sweep, ClusterInv, EvictedFrom, Snapshots, NodeInv, IdsBelow;
      ghost var before := View();
      SweepNamed(target, model, now, c, before, done, seen);
      KnownIds(c, id);
      assert nodes[id].Value() == c.nodes[id] && forall j :: j in nodes ==> before.nodes[j] == nodes[j].Value();
      one := EvictOn(nodes[id], model, target, now);
      SameNodes(before.nodes[id := nodes[id].Value()]);
      SweepStep(target, model, now, c, before, done, seen, id, nodes[id].Value(), one);
    }

    // ------------------------------------------------------ nodes come and go

    /** Registers the nodes Ray newly reports. */
    method AddNodes(alive: map<NodeId, Capacity>)
      modifies this`nodes
      ensures nodes.Keys == old(nodes).Keys + alive.Keys
      ensures forall j :: j in old(nodes) ==> nodes[j] == old(nodes)[j]
      ensures forall j :: j in nodes && j !in old(nodes) ==>
        fresh(nodes[j]) && nodes[j].Value() == Fresh(j, alive[j], minAge)
    {
      hide Fresh, Elements, Distinct, NodePlacement.Node.Value;
      var ids := Listing(alive.Keys);
      ElementsEnds(ids);
      for i := 0 to |ids|
        invariant nodes.Keys == old(nodes).Keys + Elements(ids[..i])
        invariant forall j :: j in old(nodes) ==> nodes[j] == old(nodes)[j]
        invariant forall j :: j in nodes && j !in old(nodes) ==>
          j in alive && fresh(nodes[j]) && nodes[j].Value() == Fresh(j, alive[j], minAge)
      {
        var id := ids[i];
        ElementsGrow(ids, i);
        if id !in nodes {
          var node := NewNode(id, alive[id]);
          nodes := nodes[id := node];
        }
      }
    }

    method NewNode(id: NodeId, cap: Capacity) returns (node: Node)
      ensures fresh(node) && node.Value() == Fresh(id, cap, minAge)
    {
      node := new Node(id, cap.memory, cap.cards, cap.budget, minAge);
    }

    /** Forgets every node outside `alive`. */
    method DropNodes(alive: set<NodeId>)
      modifies this`nodes
      ensures nodes == old(nodes) - (old(nodes).Keys - alive)
    {
      hide Elements, Distinct;
      var gone := Listing(nodes.Keys - alive);
      ElementsEnds(gone);
      for i := 0 to |gone|
        invariant nodes == old(nodes) - Elements(gone[..i])
      {
        ElementsGrow(gone, i);
        MinusTwice(old(nodes), Elements(gone[..i]), {gone[i]});
        nodes := nodes - {gone[i]};
      }
    }

    /** `update_nodes`: a node Ray newly reports starts empty, one it no longer
        reports is forgotten, and one that stays keeps everything it holds. */
    method UpdateNodes(alive: map<NodeId, Capacity>)
      requires Valid() && forall id :: id in alive ==> alive[id].memory > 0 && alive[id].cards > 0
      modifies this`nodes
      ensures Valid() && issued == old(issued)
      ensures View() == Synced(old(View()), alive, minAge)
      ensures forall j :: j in nodes ==> fresh(nodes[j]) || (j in old(nodes) && nodes[j] == old(nodes)[j])
    {
      hide ClusterInv, Fresh;
      ghost var c := View();
      AddNodes(alive);
      DropNodes(alive.Keys);
      SyncedKeeps(c, alive, minAge);
      SameNodes(Synced(c, alive, minAge).nodes);
    }
  }
}
