# Verified models of NDIF's coordination core

NDIF serves large models to many users: a controller places model replicas on GPU
nodes, a tensor-parallel group runs one request over several processes, a sandbox
runs untrusted blocks in another process over a socket, and an API queues requests
and coalesces cache refreshes. This project models the parts of it whose
correctness spans several functions or a whole run, and proves what they rely on.
`dafny verify dfyconfig.toml` checks all of it.

| file | what it models |
|---|---|
| `Ordering.dfy` | sequences, sets, sorting, walking a dictionary in some order |
| `Sizing.dfy` | how many cards a model takes and whether it runs tensor-parallel |
| `Ledger.dfy` | a node's replicas and the bytes charged for them; evictions; what a call may move |
| `Node.dfy` | evaluating, planning evictions, placing and evicting on one node |
| `Cluster.dfy` | choosing nodes, whole deploy calls, eviction on request, nodes coming and going |
| `Controller.dfy` | the diff against the last-applied state, what its operations do to the actors, dropping what failed |
| `ControllerRuns.dfy` | the controller as a state machine: calls, operations, failures, nodes; what holds over every run |
| `ControllerActor.dfy` | the controller's fields and methods, tied to those runs |
| `FaultyRuns.dfy`, `Displaced.dfy` | runs that go wrong, each step as the nodes decide it |
| `ShardGroup.dfy` | rank 0 and its shards: build, READY, GO or stand-down, settling or restarting |
| `ShardHistory.dfy` | what the events of a run say of it: when a request commits, when the group is kept |
| `Pins.dfy` | the `tracer.iter` pin kept in two processes |
| `Barriers.dfy` | barriers counted on the host, with re-entrant release |
| `Coalescing.dfy` | API callers and the dispatcher worker around one lock, stream and channel |
| `Wire.dfy` | framing, tagged codec, packed messages, reads in arbitrary chunks |
| `Fanout.dfy` | several peers behind one channel, and signature-only followers |
| `RequestQueue.dfy` | the request heap and its service order |

The main results, component by component:

* **Placement.** Every reachable ledger is exact. Card counts are the least that
  cover the model, or the least even split. Refusal is exact, accepted plans are lean
  (the lightest replicas of a card, none to spare, on the cards that need fewest) and
  sound in any order, and a replica goes where a WARM copy is and nothing need be
  evicted before anywhere else. A deploy protects what it must, parks or drops what it
  evicts as the node would and reports exactly what it did, and it gives an error only
  when every node refused. A partly placed model has both replicas and an error, so the
  results are stated that way and not as the either-or of the comment at the end of
  `Cluster.deploy`. Two inputs break this, since nothing checks the sign of either: a
  config may ask for a negative number of cards, and its padded size may come out
  negative. A booking can then give cards room instead of taking it. `CreditsIff` says
  exactly when, `RoomStaysRealIff` that a card then, and only then, can come to show
  more room than it has, and `Cluster.Deploy` that no node does unless a booking did;
  `NegativeCountOverfills` and `NegativeSizeOverfills` place twenty and fifteen bytes
  on a card of ten.
* **Controller.** `build` pops every WARM replica it meets from the last-applied
  state without checking that it is there; its comment says it always is. Over every
  run that is safe, provided no deploy raised part way (`NoPopEverMisses`). The code
  does not meet it otherwise: a deploy raises when a config comes to zero cards, which
  a size of zero or just below does, and what it placed by then is never applied.
  `PopMissesIff` says, over every run, exactly which calls then miss;
  `RaisedDeployMakesPopMiss` gives a run, and `MissComesAgain` shows that it goes on. A deploy that raises does no harm exactly
  when every config it dealt with before was refused by every node as the call began,
  or asked for nothing (`Controller.Deploy`). Likewise `_remove_deployment_from_state`
  releases whatever record it is handed: `RemovalKeepsIffHanded` says exactly when that
  is right and `StaleRecordBreaksLedger` gives a run at whose end it is not. The diff
  itself turns old actors into new ones, in any order of its operations, if and only if
  no replica HOT in both has moved; and over every run without a raised deploy the live
  actors are those of the cluster and no card is overfilled, failed operations and
  nodes that leave included (`ActorsFollowTheCluster`). After a raised deploy that need
  not be so even though no pop misses: `RaisedDeployOverfillsACard` gives a run, and
  `ActorsAreAsTold` and `CallLeavesItsActorsIff` say over every run exactly when it is.
  The class records the run it takes, and `Controller.Serve` carries all this to any
  sequence of calls.
* **Tensor-parallel group.** The two halves of the protocol and the channels between
  them are one state machine; every mix of failed builds, raised blocks, late or lost
  replies, failed sends and deaths is a run of it. A request commits if and only if
  every rank built the block and every message got through (`CommitsIff`), which a
  healthy group can always bring about. Every request can be brought to an end, and to
  one that keeps the group as long as nothing has broken (`UnbrokenEndsWell`).
  GO follows READY from everyone for
  that same request, a group that did not settle is given up and its shards are never
  sent another order, and a group is never given up without a cause. That a settled
  group has every shard in its loop is not so: `_await_shards` reports a group settled
  with a shard that died at rest (`SettledWithADeadShard`). It holds exactly when no
  shard has died, and the consequence is worse than one refused request: the replica
  refuses every request from then on and is never restarted, unless its last finished
  request had committed (`StuckForGood`, `UnhealthyIsGivenUpIffCommitted`).
* **Sandbox.** The two copies of the pin refine one variable and every stop a worker
  announces is adopted in order, no worker is ever cut off, barrier rounds are exact
  and every park and pass is counted however releases nest, any sequence of messages
  survives the wire in any chunks, and signature-only followers are accepted exactly
  when payload-sending ones would be.
* **API.** No caller loses its wakeup and each hold of the lock stands for exactly one
  refresh; every step helps a waiting caller or does not set it back, and a caller
  that has been helped often enough has its answer. What it is served was cached or was
  the controller's answer to a refresh of the run. A caller can be told of the failure
  of a refresh that had failed before it subscribed (`FailsForAnEarlierFetch`);
  `AnswersHaveASource` says exactly what it can be told. The heap agrees with the sorted
  service order in every operation.

Code that updates state in place is modelled by classes and methods whose contracts
tie the new state to the old; protocols are state machines over all interleavings of
their steps, with theorems about every run.

## Model

| member | source | states |
|---|---|---|
| Sizing.CeilDivIsLeastCover | src/ndif/services/ray/deployments/controller/cluster/node.py:78-81 | the rounded-up quotient is the least number of cards that cover the size, and no fewer do |
| Sizing.TpDegreeIsLeastDivisor | src/ndif/services/ray/deployments/controller/cluster/evaluator.py:43-60 | the degree is the least divisor of the limit that is at least the count asked about, and there is none exactly when no divisor qualifies |
| Sizing.FindTpDegree | src/ndif/services/ray/deployments/controller/cluster/evaluator.py:43-60 | the search loop returns that degree |
| Sizing.MaxTp | src/ndif/services/ray/deployments/controller/cluster/evaluator.py:245-314 | an override of 0 or a disabled evaluator switches splitting off; otherwise the answer is the override or the checkpoint's own limit, and exceeds neither |
| Sizing.SizingAgreesWithActor | src/ndif/services/ray/deployments/controller/cluster/evaluator.py:336-362 | under one limit an accepted multi-card placement gets the tensor-parallel actor, except exactly when the count was derived and the limit is below it |
| Sizing.DerivedShareFitsCard | src/ndif/services/ray/deployments/controller/cluster/node.py:428-456 | a derived count's per-card share fits an empty card, and the shares cover the model |
| Sizing.NegativeShareIff | src/ndif/services/ray/deployments/controller/cluster/node.py:455-456 | for sizes and counts of either sign, the share of a card is negative exactly when one of the two is negative, not both, and the size is at least as far from zero as the count |
| Sizing.DerivedCountSign | src/ndif/services/ray/deployments/controller/cluster/node.py:428-441 | a derived count is positive exactly for a positive size, and zero exactly for a size from just above minus one card's memory up to zero |
| Sizing.DerivedCountIsExact | src/ndif/services/ray/deployments/controller/cluster/node.py:428-441 | with no count asked for, the cards taken cover the model and one fewer would not; or, when it takes several and can be split into that many, their number is the least divisor of the limit that covers it |
| Sizing.AskedCountIsExact | src/ndif/services/ray/deployments/controller/cluster/node.py:410-427 | an asked-for count is refused as uneven if and only if it is above one, there is a limit, and the limit is below it or not divisible by it; otherwise it is taken as it is |
| Sizing.ShareIsLeast | src/ndif/services/ray/deployments/controller/cluster/node.py:455-456 | the share is the least that covers the model on that many cards, for counts of either sign |
| Sizing.RunsTensorParallelIff | src/ndif/services/ray/deployments/controller/cluster/evaluator.py:336-362 | the tensor-parallel actor is chosen exactly when several cards were taken and the limit is divisible by their number |
| Ledger.EmptyNodeBalances | src/ndif/services/ray/deployments/controller/cluster/node.py:118-133 | a node as registered has an exact ledger |
| Ledger.EvictBalances | src/ndif/services/ray/deployments/controller/cluster/node.py:255-323 | every eviction, parked or dropped outright, keeps each card's free plus charged bytes equal to its memory and the CPU free plus WARM bytes equal to the budget, with nothing negative |
| Ledger.MovesTransitive | src/ndif/services/ray/deployments/controller/cluster/cluster.py:218-314 | what one placement of a call may do to a node composes with what the next may do: protected models stay, only models of the call come in, only replicas HOT before the call are parked |
| Ledger.RemovalBalancesIffCurrent | src/ndif/services/ray/deployments/controller/controller.py:496-515 | dropping a failed record keeps the node's ledger exact if and only if the record charges exactly what is registered under its key |
| NodePlacement.RefusalIsExact | src/ndif/services/ray/deployments/controller/cluster/node.py:443-473 | once the count is settled and the node has that many cards, it refuses if and only if no choice of allowed evictions opens that many cards |
| NodePlacement.BookingCoversModel | src/ndif/services/ray/deployments/controller/cluster/node.py:455-481 | the cards booked, times the share booked on each, cover the model if and only if the count is positive or there is nothing to cover |
| NodePlacement.CreditsIff | src/ndif/services/ray/deployments/controller/cluster/node.py:410-467 | for sizes and counts of either sign, exactly when a placement books a negative share on some card, and exactly when it takes no room on the cards or would take none in the cache |
| NodePlacement.EmptyNodeAccepts | src/ndif/services/ray/deployments/controller/cluster/node.py:428-467 | an empty node with enough cards always takes a derived count |
| NodePlacement.OldNodeMakesRoom | src/ndif/services/ray/deployments/controller/cluster/node.py:325-363 | a node whose every replica is of another model, not pinned, and old enough or the new one pinned, takes any derived count it has the cards for |
| NodePlacement.ChainBalances | src/ndif/services/ray/deployments/controller/cluster/node.py:197-199 | any sequence of evictions keeps the ledger exact and takes exactly those replicas off the cards |
| NodePlacement.PlanIsSoundInAnyOrder | src/ndif/services/ray/deployments/controller/cluster/node.py:338-396 | whatever order an accepted candidate's evictions run in, the allocation after them overdraws no card, also where one evicted replica spans several cards |
| NodePlacement.LandingBalances | src/ndif/services/ray/deployments/controller/cluster/node.py:201-229 | registering a replica, fresh or promoted, keeps free plus charged bytes exact whatever is booked; the room the node shows stays real, no card ever coming to show more than it has whatever leaves it, if and only if the booking takes room, and with it the whole ledger stays exact |
| NodePlacement.RoomStaysRealIff | src/ndif/services/ray/deployments/controller/cluster/node.py:181-229 | after a whole placement some card can come to show more room than it has, once others have left it, if and only if size and count are such that the query credits cards; and the room on cards and in the cache stays real if and only if it credits neither |
| NodePlacement.LandingMoves | src/ndif/services/ray/deployments/controller/cluster/node.py:181-229 | a whole placement is a permitted move of its call |
| NodePlacement.LevelPredictsPromotion | src/ndif/services/ray/deployments/controller/cluster/node.py:197-229 | evictions of a placement leave a WARM copy of the model exactly if there was one when it was evaluated, so a CACHED level always promotes and no other level ever does |
| NodePlacement.ShortestPrefix | src/ndif/services/ray/deployments/controller/cluster/node.py:231-253 | the cheapest-first scan stops at the first prefix that frees enough, and finds none exactly when all together would not |
| NodePlacement.FindCacheEvictions | src/ndif/services/ray/deployments/controller/cluster/node.py:231-253 | CPU room can be made if and only if dropping every allowed WARM replica would make it; the plan drops only allowed ones, cheapest first, and none to spare |
| NodePlacement.FindEvictions | src/ndif/services/ray/deployments/controller/cluster/node.py:338-396 | an eviction plan exists exactly when enough cards can be opened; on each card it takes it evicts the lightest allowed replicas, enough and not one more, nothing on a card that has room, and no card left out needed fewer evictions than one it takes |
| NodePlacement.LeanPlansAgree | src/ndif/services/ray/deployments/controller/cluster/node.py:365-386 | any two ways of opening a card by the lightest replicas, none to spare, take the same number of evictions |
| NodePlacement.FittingCards | src/ndif/services/ray/deployments/controller/cluster/node.py:83-88 | the cards with room, each once, fullest first |
| NodePlacement.Fit | src/ndif/services/ray/deployments/controller/cluster/node.py:455-481 | the second half of an evaluation: free cards if enough fit, else an eviction plan, else a refusal |
| NodePlacement.SliceLeavesOff | src/ndif/services/ray/deployments/controller/cluster/node.py:460-461 | a negative count leaves exactly that many of the fitting cards off the end, or takes none |
| NodePlacement.Node.AllocateCards | src/ndif/services/ray/deployments/controller/cluster/node.py:90-94 | each card is charged what the allocation says |
| NodePlacement.Node.ReleaseCards | src/ndif/services/ray/deployments/controller/cluster/node.py:96-101 | each card gets back what the allocation says |
| NodePlacement.Node.MakeRoom | src/ndif/services/ray/deployments/controller/cluster/node.py:286-304 | room is made by a minimal cheapest-first drop, or nothing is touched |
| NodePlacement.Node.Evict | src/ndif/services/ray/deployments/controller/cluster/node.py:255-323 | a WARM replica is dropped; a HOT one leaves its cards and is parked when its actor can be and CPU room can be made, and is gone otherwise; the ledger stays exact |
| NodePlacement.Node.Evaluate | src/ndif/services/ray/deployments/controller/cluster/node.py:398-481 | raises exactly when the count comes to zero cards or the cards report no memory; otherwise answers with the right level and cards, the fullest that fit, or the leanest evictions, for sizes and counts of either sign |
| NodePlacement.Node.ClearFor | src/ndif/services/ray/deployments/controller/cluster/node.py:197-199 | a candidate's evictions, one after another in some order, each parked or dropped as evicting it alone would, and nothing of an excluded model touched |
| NodePlacement.Node.Deploy | src/ndif/services/ray/deployments/controller/cluster/node.py:181-229 | those evictions and then the replica registered on the booked cards, under a WARM id of the model if there was one and a fresh id otherwise; the ledger stays exact if and only if the room the node shows stays real, which is if and only if the booking takes room |
| NodePlacement.Node.Forget | src/ndif/services/ray/deployments/controller/controller.py:502-515 | the replica under the record's key is dropped from cards and cache, releasing what the record says |
| ClusterPlacement.ProgressComposes | src/ndif/services/ray/deployments/controller/cluster/cluster.py:218-314 | placements of one call add up: what is reported as evicted and placed is exactly what left and joined the cards, and nothing placed is evicted again |
| ClusterPlacement.DeployProtects | src/ndif/services/ray/deployments/controller/cluster/cluster.py:170-320 | a deploy never evicts a pinned replica, a replica of a model in the call or, unless some placement is pinned, one younger than the minimum; WARM copies of those models stay or become HOT |
| ClusterPlacement.YoungLeavesForAPinnedModel | src/ndif/services/ray/deployments/controller/cluster/node.py:325-336 | in a call mixing pinned configs and others, a replica younger than the minimum leaves the cards only for a pinned config of which a replica was placed |
| ClusterPlacement.ProgressCredits | src/ndif/services/ray/deployments/controller/cluster/cluster.py:218-314 | whether a config would credit cards or the cache on some node, or on all, can be told before the call: no placement changes it |
| ClusterPlacement.RaisesIffUnsizable | src/ndif/services/ray/deployments/controller/cluster/node.py:410-456 | evaluating a config on a node raises exactly when it asks for 0 cards, or asks for no number and its size is from just above minus one card's memory up to zero |
| ClusterPlacement.SizeConfigs | src/ndif/services/ray/deployments/controller/cluster/cluster.py:189-216 | sizing failures become errors, the rest are listed once each, by falling size |
| ClusterPlacement.EvictedAcrossMoves | src/ndif/services/ray/deployments/controller/cluster/cluster.py:322-370 | an eviction on request gives no replica a new home and keeps every ledger exact |
| ClusterPlacement.SyncedKeeps | src/ndif/services/ray/deployments/controller/cluster/cluster.py:82-168 | node arrivals and departures keep every ledger exact |
| ClusterPlacement.Cluster.ChooseNode | src/ndif/services/ray/deployments/controller/cluster/cluster.py:229-262 | the chosen node has a WARM copy and enough cards with room if any node has both, else enough cards with room if any has, and then nothing is evicted, else a WARM copy and cards that can be opened if any has, else cards that can be opened if any has; an uneven count is named exactly when one was asked for |
| ClusterPlacement.Cluster.ActorFor | src/ndif/services/ray/deployments/controller/cluster/cluster.py:296-306 | an explicit actor wins; otherwise the tensor-parallel one exactly when there is one, several cards were taken and the limit is divisible by their number |
| ClusterPlacement.Cluster.PlaceOne | src/ndif/services/ray/deployments/controller/cluster/cluster.py:229-314 | one replica goes to a node no other betters, with exactly that candidate's evictions, each parked or dropped as the node would, and its record; an error is only given when every node refuses, and then nothing has changed; ledgers stay exact, and the room shown real, exactly unless the booking credits |
| ClusterPlacement.Cluster.PlaceModel | src/ndif/services/ray/deployments/controller/cluster/cluster.py:218-320 | no error exactly when every requested replica, at least one, was placed; nothing is placed exactly when nothing was asked for or every node refused to begin with; the call raises exactly when the config comes to zero cards on some node |
| ClusterPlacement.Cluster.Deploy | src/ndif/services/ray/deployments/controller/cluster/cluster.py:170-320 | every reported id became HOT, reported evictions are exactly what stopped being HOT, step by step as the best node's own evictions and placement; each result is right and each shortfall was real at some point of the call; unless some booking credits, which is exactly when some node shows room it does not have and needs a config that would do so on some node, it raises exactly when some config comes to zero cards on some node, and has by then placed nothing exactly when every config dealt with was refused everywhere before the call |
| ClusterPlacement.Cluster.DrainModel | src/ndif/services/ray/deployments/controller/cluster/cluster.py:349-368 | nothing of the model is left on the node, every other HOT replica stays as it was, and the answer names every HOT replica of the model and no other model's |
| ClusterPlacement.Cluster.Evict | src/ndif/services/ray/deployments/controller/cluster/cluster.py:322-370 | a named replica is evicted on the one node that holds it, as that node's evict would, every other node stays as it was, and the answer names it exactly when some node held it; without a name nothing of the model is left on any node |
| ClusterPlacement.Cluster.UpdateNodes | src/ndif/services/ray/deployments/controller/cluster/cluster.py:82-168 | a newly reported node starts empty, an unreported one is forgotten, one that stays keeps everything |
| Reconciler.SlotAfterCall | src/ndif/services/ray/deployments/controller/controller.py:355-376 | after any call, a WARM replica was in the last-applied state, a replica HOT in both has the same record, and any other is new |
| Reconciler.BuildIsSafe | src/ndif/services/ray/deployments/controller/controller.py:341-388 | so the unguarded pop finds every WARM replica and no replica has two homes |
| Reconciler.DiffPreservesMeaningIff | src/ndif/services/ray/deployments/controller/controller.py:341-388 | run in any order at all, the delta's operations all succeed, and they turn the actors of the old state into those of the new if and only if no replica HOT in both sits on other cards |
| Reconciler.CardsNeverOverfilled | src/ndif/services/ray/deployments/controller/controller.py:390-467 | once deletes and caches are done, at no point of the restores and creates do the running actors overfill a card |
| Reconciler.CallThenApply | src/ndif/services/ray/deployments/controller/controller.py:390-467 | after any deploy or eviction no pop misses and apply leaves exactly the actors of the new state |
| Reconciler.RemovalKeepsIffHanded | src/ndif/services/ray/deployments/controller/controller.py:496-515 | dropping a failed replica keeps ledgers and applied state in step if and only if the record charges what is registered |
| Reconciler.SyncKeeps | src/ndif/services/ray/deployments/controller/controller.py:158-168 | a node update without an apply keeps them in step |
| ControllerRuns.RunTracks | src/ndif/services/ray/deployments/controller/controller.py:341-388 | in every run, raised deploys and missed pops included, the replicas of the cluster missing from the last-applied state are exactly those a raised deploy placed or a failed build took out and no apply has seen since; every ledger is exact |
| ControllerRuns.PopMissesIff | src/ndif/services/ray/deployments/controller/controller.py:355-364 | in every run, a build's pop misses if and only if one of those unapplied replicas is WARM when it looks |
| ControllerRuns.MissComesAgain | src/ndif/services/ray/deployments/controller/controller.py:355-364 | a missed pop does not mend itself: while that replica stays WARM every later call misses too |
| ControllerRuns.NoPopEverMisses | src/ndif/services/ray/deployments/controller/controller.py:355-364 | in every run of deploys, evictions, node arrivals and departures, operations that fail and late failures, with no deploy raising part way, no pop ever misses, every ledger is exact and the state covers the cluster |
| ControllerRuns.ActorsFollowTheCluster | src/ndif/services/ray/deployments/controller/controller.py:390-515 | in every run without a raised deploy, operations that fail, the kills that follow and the purge of nodes that leave included: no card is overfilled once an apply's deletes and caches are through, and when it is over the live actors are exactly those of the cluster's replicas |
| ControllerRuns.ActorsAreAsTold | src/ndif/services/ray/deployments/controller/controller.py:390-515 | in every run up to a missed pop, raised deploys included: no operation is refused, between calls each actor runs under the record it was last created, parked or restored with, and where the state is the cluster's the actors are too if and only if every HOT replica is on the cards it was last told |
| ControllerRuns.CallLeavesItsActorsIff | src/ndif/services/ray/deployments/controller/controller.py:341-467 | in every run up to a missed pop, from a state where the actors are as the last-applied state has them, a call's whole apply leaves the cluster's own actors if and only if no replica HOT both in that state and in the cluster sits on other cards: both are at hand before the build |
| ControllerRuns.HomeForLife | src/ndif/services/ray/deployments/controller/controller.py:496-515 | in every run a replica is only ever held by the node it was first placed on, so however old a record is it names its replica's node |
| ControllerRuns.ApplyFinishes | src/ndif/services/ray/deployments/controller/controller.py:390-467 | whatever an apply has outstanding can be run to the end |
| ControllerRuns.TripKeepsIffNothingPlaced | src/ndif/services/ray/deployments/controller/controller.py:170-195 | a deploy that raises part way leaves the two sides in step if and only if it had placed nothing |
| FaultyRuns.RaisedDeployMakesPopMiss | src/ndif/services/ray/deployments/controller/controller.py:355-364 | a concrete run, each step as the node decides it, in which such a deploy makes a later pop miss |
| Displaced.RaisedDeployOverfillsACard | src/ndif/services/ray/deployments/controller/controller.py:341-388 | a run, each step as the node decides it, in which a raised deploy parks a replica that the next call restores to another card: no pop misses, both sides are in step, and its actor is left on the old card beside another's, overfilling it |
| FaultyRuns.StaleRecordBreaksLedger | src/ndif/services/ray/deployments/controller/controller.py:469-515 | a run, each step as the node decides it, at whose end a record once applied no longer charges what its replica does, so that its late failure leaves a ledger that is not exact |
| FaultyRuns.NegativeCountOverfills | src/ndif/services/ray/deployments/controller/cluster/node.py:427-467 | a config asking for minus one card leaves a card more room than it has, and twenty bytes are then placed on a card of ten |
| FaultyRuns.NegativeSizeOverfills | src/ndif/services/ray/deployments/controller/cluster/node.py:410-467 | a config whose padded size is minus five does the same with a positive count, fifteen bytes landing on a card of ten, and without a count makes the evaluation raise |
| ControllerActor.Controller.Build | src/ndif/services/ray/deployments/controller/controller.py:341-388 | fails exactly when a WARM replica is not in the last-applied state, having popped some of what it walked; otherwise the state becomes the cluster's contents and the delta is the difference |
| ControllerActor.Controller.RemoveDeployment | src/ndif/services/ray/deployments/controller/controller.py:496-515 | the entry and the registered replica under the record's key are gone, with what the record says released |
| ControllerActor.Controller.RunList | src/ndif/services/ray/deployments/controller/controller.py:395-467 | every operation of a list is run once on the actors, and those that fail cost the replica its actor and its place in state and cluster |
| ControllerActor.Controller.Apply | src/ndif/services/ray/deployments/controller/controller.py:390-467 | a pop misses exactly when an unapplied replica is WARM; otherwise every operation of the difference is run on the actors, deletes and caches before restores and creates, and the state is the cluster's, less the replicas whose operation failed, which are gone from both |
| ControllerActor.Controller.Deploy | src/ndif/services/ray/deployments/controller/controller.py:170-195 | a pop misses exactly when the call changed something and left an unapplied replica WARM; a deploy that raises leaves everything in step exactly when every config it had dealt with was refused everywhere, or asked for nothing, before the call; while that holds of the whole run, state and actors are the cluster's |
| ControllerActor.Controller.Evict | src/ndif/services/ray/deployments/controller/controller.py:323-339 | applied exactly when something was evicted; a named replica is evicted where it was, without a name nothing of the model is left; a pop misses exactly when that leaves an unapplied replica WARM |
| ControllerActor.Controller.UpdateNodes | src/ndif/services/ray/deployments/controller/cluster/cluster.py:82-168 | the actors of nodes that left are killed, nothing is applied, and state and actors stay in step |
| ControllerActor.Controller.Fails | src/ndif/services/ray/deployments/controller/controller.py:469-515 | any record handed back late costs its actor and its replica; the ledgers stay exact if and only if it is still current |
| ControllerActor.Controller.Serve | src/ndif/services/ray/deployments/controller/controller.py:133-515 | any sequence of these calls, each handled once and in order, past deploys that raise, up to one that could credit cards or a record not current: what each adds to the run is what it was asked to do; the controller stays on that run; as long as no raised deploy has placed anything, no pop misses and state and actors are the cluster's |
| ShardGroup.IdleIsLast | src/ndif/services/ray/tp/shard.py:112-168 | once rank 0 has heard IDLE from a shard, that shard is back in its loop or dead and both its channels are empty |
| ShardGroup.StepKeeps | src/ndif/services/ray/tp/host.py:242-417 | every step of rank 0, a shard, a lost send, a late reply or a death keeps the protocol's invariant |
| ShardGroup.SettledGroupIsAtRest | src/ndif/services/ray/tp/model.py:333-395 | in every run, where settled is about to be reported every channel is empty and every shard idle or dead; all are idle if and only if none has died, and after a committed request they all are |
| ShardGroup.SettledWithADeadShard | src/ndif/services/ray/tp/model.py:350-356 | a run in which a group with a dead shard is reported settled and kept |
| ShardGroup.StuckForGood | src/ndif/services/ray/tp/model.py:222-223 | a resting group with a dead shard whose last request did not commit stays so for good: no request ever begins again and it is never given up |
| ShardGroup.UnhealthyIsGivenUpIffCommitted | src/ndif/services/ray/tp/model.py:333-395 | a resting group with a dead shard can still be given up if and only if its last finished request had committed |
| ShardGroup.RestingIsAtRest | src/ndif/services/ray/tp/model.py:312-395 | in every run, a group that is between requests has empty channels and every shard idle or dead, all idle if and only if none has died |
| ShardGroup.GoOnlyWhenAllReady | src/ndif/services/ray/tp/host.py:242-311 | in every run, a shard runs or is about to read GO only for the current request and after every shard answered READY to that same request |
| ShardHistory.CommitsIff | src/ndif/services/ray/tp/model.py:286-299 | in every run a request has committed if and only if every shard built the block and was heard from, rank 0 built it, every order to prepare and every GO was delivered, and arming went through |
| ShardHistory.HealthyCanCommit | src/ndif/services/ray/tp/model.py:225-299 | whatever a healthy group at rest has been through, its next request can be carried to a commit |
| ShardHistory.GoesAheadIff | src/ndif/services/ray/tp/host.py:242-271 | once every answer is in, the request goes on to rank 0's own build, and from there to GO for every shard and a commit, if and only if every shard built the block and was heard from; otherwise it is stood down at once |
| ShardHistory.OtherwiseStoodDown | src/ndif/services/ray/tp/host.py:313-347 | a request that comes back without having committed has told every shard to skip it, unless some send failed |
| ShardHistory.KeptIff | src/ndif/services/ray/tp/model.py:333-395 | after a commit, with every answer in or given up on, the group is kept if and only if none was given up on, no shard is dead, and not: rank 0 came out fine while some shard raised |
| ShardGroup.OrdersAreExpected | src/ndif/services/ray/tp/shard.py:112-168 | in every run no shard in its idle loop ever reads a GO and no prepared one ever reads an order to prepare |
| ShardGroup.NoStaleReply | src/ndif/services/ray/tp/host.py:349-387 | every reply counted in a drain answers the request at hand |
| ShardGroup.UnsettledIsNeverReused | src/ndif/services/ray/tp/model.py:312-417 | whatever happens after a group did not settle, it is given up: its shards are dead and stay untouched, no order is ever sent to them and no request begins |
| ShardHistory.RestartHasACause | src/ndif/services/ray/tp/model.py:333-395 | a replica is given up only if some event of the run broke something, or in its last request rank 0 came out of the block fine while a shard raised in it: a build refused anywhere, a request abandoned before its first order, or a block that raises everywhere, never costs the group |
| ShardHistory.BrokenDeviceCostsTheGroup | src/ndif/services/ray/deployments/modeling/base.py:475-488 | a device found broken after a request that ran, whichever way the block ended, costs the group for good: whatever follows, its shards are stopped |
| ShardHistory.EveryRequestEnds | src/ndif/services/ray/tp/model.py:225-310 | in every run, whatever has been lost or has died, rank 0 can bring the request it is in to its end on its own, without beginning another |
| ShardHistory.UnbrokenEndsWell | src/ndif/services/ray/tp/model.py:225-395 | in every run where nothing has broken so far and no shard has raised while rank 0 came out fine, the request can be brought to an end at which still nothing has broken and the group is kept with every shard alive |
| ShardHistory.AbandonedCostsNothing | src/ndif/services/ray/tp/model.py:225-276 | a request that dies before its first order goes out can be ended with the group kept and every shard alive |
| Pins.StepRefines | src/ndif/services/ray/sandbox/driver.py:130-269 | each step of the split pin is a step, or no step, of a single variable |
| Pins.TwoCopiesAreOne | src/ndif/services/ray/sandbox/nns.py:154-227 | in every run the two copies are one variable, written only by the worker's own moves and by the host serving its model park, and each side sees it whenever it looks |
| Pins.OnlyModelResumesMoveThePin | src/ndif/services/ray/sandbox/nns.py:154-210 | a worker's copy changes only by its own move or by a RESUME answering its own model park, never through a control, barrier or write-back exchange |
| Pins.PinsArePushedForModelParks | src/ndif/services/ray/sandbox/driver.py:239-269 | a pin is pushed only for a worker's real model park, and it is the host's copy |
| Pins.ParksReachTheirProxy | src/ndif/services/ray/sandbox/driver.py:239-269 | the proxy that adopts a PARK is the one whose worker sent it |
| Pins.EveryStopReachesTheHost | src/ndif/services/ray/sandbox/nns.py:154-227 | in every run the host has adopted every stop of every worker, in order and as what it was, but for what is still on its way, and every read it answered is swapped back under that read's own pin before the worker's next stop |
| Pins.NobodyIsCutOff | src/ndif/services/ray/sandbox/nns.py:154-227 | in every run any worker whose code is not over can be brought to run on within eight steps, through other workers' exchanges and write-backs, with nobody moving a pin |
| Pins.ServedPinReachesTheWorker | src/ndif/services/ray/sandbox/driver.py:239-269 | in every run, where the host leaves the pin while serving a model park is where the worker's code finds it when it runs on |
| Pins.HostCopyGoesStale | src/ndif/services/ray/sandbox/driver.py:167-206 | a run in which the host's copy is a step behind at a control park, which is why those resumes keep the worker's pin |
| Barriers.RoundsHaveTheirSize | src/ndif/services/ray/sandbox/driver.py:517-525 | a full round has exactly as many members as the barrier was built for, an open one fewer |
| Barriers.PassNeedsAWholeRound | src/ndif/services/ray/sandbox/driver.py:494-525 | nobody passes a barrier built for n before n distinct workers, itself among them, have arrived there in its round |
| Barriers.RoundsOnlyGrow | src/ndif/services/ray/sandbox/driver.py:517-525 | full rounds are never recounted |
| Barriers.ReturningStartsANewRound | src/ndif/services/ray/sandbox/driver.py:494-525 | a worker that comes back to a barrier it passed is counted in a later round |
| Barriers.ArrivesFull | src/ndif/services/ray/sandbox/driver.py:517-525 | the completing arrival turns exactly the waiting workers into a full round of distinct workers and empties the registry entry |
| Barriers.Driver.BarrierArrival | src/ndif/services/ray/sandbox/driver.py:494-525 | the arrival is counted; whatever a release sets off, callers further up keep those they still have to let go, and this call leaves nobody behind |
| Barriers.Driver.Release | src/ndif/services/ray/sandbox/driver.py:208-221 | a released worker is logged as the next of its round and its next park is taken from its script and adopted, whatever that re-enters |
| Barriers.Driver.Adopt | src/ndif/services/ray/sandbox/driver.py:130-165 | a barrier park is counted at once, any other park just becomes the worker's |
| Barriers.Driver.LetAllGo | src/ndif/services/ray/sandbox/driver.py:517-525 | the workers of a full round are released in the order they came |
| Barriers.Driver.SettleControl | src/ndif/services/ray/sandbox/driver.py:167-206 | control parks are drained until the worker is elsewhere |
| Barriers.Driver.Switch | src/ndif/services/ray/sandbox/driver.py:239-269 | however releases nest, the arrivals and passes logged are exactly those of the parks each worker has had, a worker waits at a barrier exactly when it is registered there, every pass was due, and on return every full round is through |
| Barriers.Driver.Drive | src/ndif/services/ray/sandbox/driver.py:494-525 | over a whole run of resumes in any order: each worker whose turn it is and which is parked on a model location is resumed and goes on to its next stop, no other moves; and all of the above holds at the end |
| Coalescing.StepKeeps | src/ndif/services/api/app.py:227-269 | every Redis command of every caller and of the worker keeps the coalescing invariant |
| Coalescing.NoLostWakeup | src/ndif/services/api/app.py:227-269 | in every interleaving a waiting caller with an empty inbox has a publish still to come, or exactly one winner about to trigger, trigger, or unfinished refresh |
| Coalescing.AtMostOneRefresh | src/ndif/services/api/queue/dispatcher.py:241-275 | triggers and unfinished refreshes together are one while the lock is held and none otherwise |
| Coalescing.GoodNewsIsTrue | src/ndif/services/api/app.py:250-262 | a caller woken with good news always finds the cache filled |
| Coalescing.AnswersHaveASource | src/ndif/services/api/app.py:227-269 | in every interleaving a caller is only served what was cached to begin with or what the controller answered a refresh of the run; it is told unavailable only at a first note, since it subscribed, that a refresh failed, which one did; it times out exactly if it gives up |
| Coalescing.FailsForAnEarlierFetch | src/ndif/services/api/app.py:238-262 | a run in which a caller that subscribes after the only fetch has failed is told that nothing is available |
| Coalescing.RefreshAnswers | src/ndif/services/api/queue/dispatcher.py:241-275 | however callers come and go, a refresh the controller answers fills the cache with just that, one it does not leaves it alone, and a caller waiting for it is served that answer, or told of the failure, or has only that left to read |
| Coalescing.RefreshCanFinish | src/ndif/services/api/queue/dispatcher.py:241-275 | from any state the worker can carry its refresh through on its own, whatever the controller answers |
| Coalescing.CachedIsServed | src/ndif/services/api/app.py:229-231 | with something cached every caller is served it at its first look and no refresh is ever triggered |
| Coalescing.SomeoneCanHelp | src/ndif/services/api/app.py:236-262 | an unanswered caller can always be helped by a step of its own, the worker's or the winner's |
| Coalescing.HelpBringsNearer | src/ndif/services/api/queue/dispatcher.py:241-275 | such a step always brings it nearer its answer |
| Coalescing.NoStepSetsBack | src/ndif/services/api/queue/dispatcher.py:241-275 | no step of anyone's takes a caller further from its answer, and one that does not help leaves the help available |
| Coalescing.HelpAddsUp | src/ndif/services/api/app.py:236-262 | over any run, the steps that helped a caller and what is left of its distance never exceed what it was |
| Coalescing.NobodyWaitsForEver | src/ndif/services/api/app.py:227-269 | in every run, a caller has been answered or has failed once as many steps have helped it as its distance was, which is never more than thirteen |
| Wire.NumberRoundTrip | src/ndif/services/ray/sandbox/protocol.py:143-149 | a length within its width reads back as itself |
| Wire.DecodeEncode | src/ndif/services/ray/sandbox/protocol.py:172-202 | a value decodes to itself: tags keep bytes, text and the rest apart |
| Wire.EncodingsDiffer | src/ndif/services/ray/sandbox/protocol.py:172-179 | different values have different encodings |
| Wire.PackFitsIff | src/ndif/services/ray/sandbox/protocol.py:205-218 | packing fails exactly when a count or a length needs more than 32 bits |
| Wire.UnpackPack | src/ndif/services/ray/sandbox/protocol.py:205-246 | a packed message unpacks to exactly itself, values and keyword values in order |
| Wire.Pack | src/ndif/services/ray/sandbox/protocol.py:205-218 | the packing loops produce the two counted runs of fields |
| Wire.Unpack | src/ndif/services/ray/sandbox/protocol.py:221-246 | the unpacking loops, on any bytes whatever, yield the message or the error of the reference reader |
| Wire.PutAssigns | src/ndif/services/ray/sandbox/protocol.py:236-245 | a keyword read is assigned as into a dictionary: other entries keep place and value, and a key already there gets the new value where it is |
| Wire.UnpackedNamesNothingTwice | src/ndif/services/ray/sandbox/protocol.py:221-246 | whatever bytes come in, the keywords read from them name nothing twice |
| Wire.FrameRoundTrip | src/ndif/services/ray/sandbox/protocol.py:143-149 | a frame reads back as its data, leaving what follows |
| Wire.CutFrameIsNoticed | src/ndif/services/ray/sandbox/protocol.py:147-159 | a stream that ends inside a frame is always noticed |
| Wire.RecvN | src/ndif/services/ray/sandbox/protocol.py:152-159 | exactly the next n bytes, however recv chunks them, or a closed connection when there are fewer |
| Wire.RecvFrame | src/ndif/services/ray/sandbox/protocol.py:147-149 | one whole frame off the stream, or a closed connection |
| Wire.ReceiveAll | src/ndif/services/ray/sandbox/protocol.py:276-291 | the receiving loop yields what reading that many messages off the stream means |
| Wire.SendableIff | src/ndif/services/ray/sandbox/protocol.py:143-218 | a conversation can be sent exactly when each of its messages packs, into fewer bytes than a frame can count |
| Wire.ConversationRoundTrip | src/ndif/services/ray/sandbox/protocol.py:143-246 | any sequence of messages that could be sent is read back as it was, in order |
| Wire.Exchange | src/ndif/services/ray/sandbox/protocol.py:273-291 | sent, delivered in arbitrary chunks and received, the messages are the same |
| PeerFanout.SignatureSurvives | src/ndif/services/ray/sandbox/host.py:120-121 | the receiver reads the same signature off a follower's one-tuple as off the message it stands for |
| PeerFanout.EventsToldApart | src/ndif/services/ray/sandbox/protocol.py:394-405 | two messages, or a follower's form of one, get the same signature exactly when they are of the same event, however each arrives and whatever it carries |
| PeerFanout.Fanout.Recv | src/ndif/services/ray/sandbox/protocol.py:353-387 | succeeds exactly when every peer has a message and all name the same event, whatever order they arrive in; takes one from each and returns the first peer's |
| PeerFanout.Fanout.RecvMany | src/ndif/services/ray/sandbox/protocol.py:353-387 | n receives succeed exactly when for each of the first n events every peer is at the same one; then every peer has been read equally far |
| PeerFanout.FollowersAlignLikePayloads | src/ndif/services/ray/sandbox/host.py:99-121 | over whole runs, signature-only followers are accepted exactly when payload-sending ones would be |
| RequestQueues.ServiceLists | src/ndif/services/api/queue/request_queue.py:84-86 | the service order lists every queued request once, earliest key first |
| RequestQueues.ListingIsUnique | src/ndif/services/api/queue/request_queue.py:84-86 | there is only one such listing |
| RequestQueues.ServingOne | src/ndif/services/api/queue/request_queue.py:73-76 | serving the first request leaves the rest in order |
| RequestQueues.RemovingOne | src/ndif/services/api/queue/request_queue.py:111-119 | taking any one out leaves the rest in order |
| RequestQueues.RequeueRespectsGroups | src/ndif/services/api/queue/request_queue.py:57-71 | a re-queued request precedes every fresh one of its group, and no normal request precedes a priority one |
| RequestQueues.TiersInOrder | src/ndif/services/api/queue/request_queue.py:57-71 | one request precedes another exactly when its key is smaller: a lower rank first, within a rank the earlier enqueued, and of equal times the earlier put |
| RequestQueues.CountIsPlace | src/ndif/services/api/queue/request_queue.py:103-109 | the number of smaller keys in the heap is the place in the service order |
| RequestQueues.SiftDown | src/ndif/services/api/queue/request_queue.py:63-71 | climbing restores the heap and keeps its items |
| RequestQueues.SiftUp | src/ndif/services/api/queue/request_queue.py:111-119 | sinking to a leaf and climbing back makes a subtree a heap and keeps its items |
| RequestQueues.HeapPush | src/ndif/services/api/queue/request_queue.py:63-71 | a heap with the item added |
| RequestQueues.HeapPop | src/ndif/services/api/queue/request_queue.py:73-76 | the request served next, and a heap of the others |
| RequestQueues.Heapify | src/ndif/services/api/queue/request_queue.py:111-119 | a heap of the same items |
| RequestQueues.RequestQueue.Put | src/ndif/services/api/queue/request_queue.py:63-71 | the request takes its place by rank, time and the counter, which goes up by one, and nobody else changes order |
| RequestQueues.RequestQueue.Get | src/ndif/services/api/queue/request_queue.py:73-76 | the first of the service order, which loses exactly that one |
| RequestQueues.RequestQueue.Snapshot | src/ndif/services/api/queue/request_queue.py:84-86 | the requests in service order |
| RequestQueues.RequestQueue.Oldest | src/ndif/services/api/queue/request_queue.py:88-101 | a queued request nobody in either group has waited longer than |
| RequestQueues.RequestQueue.Position | src/ndif/services/api/queue/request_queue.py:103-109 | the 1-based place in the service order, None exactly for an id that is not queued |
| RequestQueues.RequestQueue.Remove | src/ndif/services/api/queue/request_queue.py:111-119 | exactly one entry with the id leaves the line, the others keep their order; nothing happens exactly when there is none |
| RequestQueues.RequestQueue.Clear | src/ndif/services/api/queue/request_queue.py:121-122 | the line is empty |
| RequestQueues.RequestQueue.ServeAll | src/ndif/services/api/queue/request_queue.py:73-86 | getting until empty yields the snapshot in order |

## Left out

What the repository does that the model does not:

- Nested dictionaries: `deployments[model][replica]` is one map from (model, replica); emptied inner dictionaries have no counterpart.
- Replica ids are numbers from a counter instead of random strings, model keys and node ids are integers; only their equality matters.
- Clocks: a call reads the clock once, where the source reads it for each decision; times are integers.
- The evaluator's answers: a config carries its padded size, its splitting limit and its actor class, so the padding arithmetic, the Hub lookups and a limit that changes between two replicas of one call are not modelled.
- GPU indices are 0 to n - 1 and every node has at least one card with some memory; the CPU budget is a whole number of bytes; quotients are rounded up exactly, not after a floating-point division.
- What a call does after a booking that gives room, on the cards or by a negative size: the model ends the call there, with the answer up to that booking and a ledger that is no longer exact.
- Execution timeouts, dtypes and node names in records: no decision of the modelled code reads them.
- Ray actors are names with a state (serving on some cards, or sleeping): a restore or a create counts as done when it is issued and may be given up at once or fail later; an actor that dies of itself is not modelled, as the controller does not notice it.
- What the actors are once a pop has missed: the model then follows the cluster and the state only.
- Late failures that arrive between the operations of one apply: apply does not yield.
- ControllerActor.Controller.Serve: stops at a record that is no longer current, whose removal leaves a ledger that is not exact, at one whose card index the node does not have, and at a booking that gives room.
- Which WARM id is reused, which of several best nodes is taken and the order a dictionary or set is walked in are arbitrary rather than Python's.
- The snapshots an eviction returns: only the keys, not the state of each replica.
- Optimality of evictions over several cards together: plans are proved lean card by card, sound and complete, not smallest as a whole, as the code does not make them so.
- The process that Ray starts after a group was given up, the shard group's start-up, its hour-long idle timeout, timeouts in the middle of a frame, interrupts, and cleanup while rank 0 is still executing.
- PREPARE and SANDBOX are one order, since they take a shard through the same phases; payloads, seeds and the abort checkpoint are not modelled.
- NCCL, torch, process spawning, the runner pool and nnsight's own interleaver: foreign code; serving a model park is an arbitrary change of the host's pin, and a written-back swap is served before another worker is resumed.
- THROW, DONE, STOP and CACHE_HIT messages: they neither move a pin nor count at a barrier.
- Expiring keys, crashes and Redis reconnects around the coalesced refresh, and its second instance for the environment blob, which is the same code.
- UTF-8 and torch serialization: each is assumed undone by its inverse; where a receiver puts tensors is not modelled.
- `Channel` timeouts and `Fanout.send`, which repeats one send.
- The asyncio queue's waiting getters: an empty queue answers with nothing where the source waits; enqueue times are integers.
- Request processors and replicas, providers, metrics, logging, auth, versioning, the command line, the dashboard and cron jobs: input and output plumbing, or only easy properties.
- ClusterPlacement.Cluster.Evict: without a name, does not state which WARM replicas of other models are dropped while HOT ones are parked on their way out, only that what is left was there before; WARM replicas of the model dropped that way are missing from the answer, as in the source.
- RequestQueues.RequestQueue.Position: where two queued requests share an id, says that the place is that of one of them, as the source takes the first in heap order.
- PeerFanout.Fanout.Recv: after a failure does not say which peers were read, since the source raises and the connection is given up.
