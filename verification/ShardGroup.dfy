/** The tensor-parallel group: rank 0 and its shards over one pair of channels
    each, through build, GO or stand-down, and settling (`tp/host.py`,
    `tp/model.py`, `tp/shard.py`). Every interleaving of rank 0, the shards,
    replies that are late or never come, sends that fail and shards that die is a
    sequence of events. */
module ShardGroup {
  import opened Ordering

  /** What rank 0 sends; PREPARE and SANDBOX take a shard through the same
      phases. The number is the request it was sent for: a record for the proof,
      no decision reads it. */
  datatype Order = Prepare(request: nat) | Go(request: nat) | Skip(request: nat)

  /** What a shard sends, numbered by the order it answers. */
  datatype Reply = Ready(request: nat) | Error(request: nat) | Done(request: nat) | Idle(request: nat)

  datatype Mode = AtIdle | Building(request: nat) | Prepared(request: nat) | InBlock(request: nat) | Dead

  /** The orders a shard has been sent in this request, by their initials. */
  datatype Told = Nothing | P | S | PS | PG | PGS

  /** A shard, the two channels to it, and a record of this request's traffic:
      what it has been told and what rank 0 has heard from it. */
  datatype Shard = Shard(mode: Mode, down: seq<Order>, up: seq<Reply>, told: Told, heard: seq<Reply>)

  datatype Phase =
    | Resting                                            // between requests
    | Sending(next: nat)                                 // PREPARE to each shard
    | Gathering(waiting: set<nat>, failed: bool)         // one answer from each
    | OwnBuild                                           // rank 0 builds the same block
    | Going(next: nat)                                   // GO to each shard
    | Arming                                             // the last thing before committed
    | InForward                                          // committed
    | Releasing(next: nat)                               // SKIP to each shard
    | Awaiting(waiting: set<nat>, lost: bool)            // one answer from each
    | Returned(ran: bool)                                // execute is back, cleanup is not
    | Collecting(waiting: set<nat>, lost: bool, raised: bool)

  /** `present` is whether rank 0 still has a group: restarting the replica stops
      every shard and forgets it. `faulty` records whether anything broke so far (a
      reply or a send lost, a shard dead, a commit interrupted, rank 0's own device),
      `diverged` whether the group was given up because a shard raised alone. */
  datatype Group = Group(request: nat, phase: Phase, committed: bool, stoodDown: bool, raisedHere: bool,
                         present: bool, shards: seq<Shard>, faulty: bool, diverged: bool)

  datatype Event =
    // a shard
    | Takes(i: nat) | Builds(i: nat, ok: bool) | Finishes(i: nat, ok: bool) | Dies(i: nat)
    // rank 0
    | Begins | Refuses | Abandons | Sends(delivered: bool) | Hears(i: nat) | GivesUpOn(i: nat) | GivesUp
    | Gathered | BuildsOwn(ok: bool) | Arms(ok: bool) | Leaves(ok: bool) | Settles | Poisoned

  // ------------------------------------------------------------------- the steps

  predicate Healthy(s: Group) {
    s.shards != [] && forall i :: 0 <= i < |s.shards| ==> !s.shards[i].mode.Dead?
  }

  function Reach(told: Told, o: Order): Told {
    match o
    case Prepare(_) => P
    case Go(_) => PG
    case Skip(_) => if told == Nothing then S else if told == P then PS else if told == PG then PGS else told
  }

  /** A dead shard's socket swallows what is sent to it. */
  function Given(sh: Shard, o: Order): Shard {
    sh.(told := Reach(sh.told, o), down := if sh.mode.Dead? then [] else sh.down + [o])
  }

  /** The shard's loop reading its next order. */
  function Took(sh: Shard): Shard
    requires sh.down != [] && (sh.mode.AtIdle? || sh.mode.Prepared?)
  {
    var o, rest := sh.down[0], sh.down[1..];
    if sh.mode.AtIdle? then
      match o
      case Prepare(r) => sh.(mode := Building(r), down := rest)
      case Skip(r) => sh.(down := rest, up := sh.up + [Idle(r)])
      case Go(_) => sh.(down := rest)
    else
      match o
      case Go(_) => sh.(mode := InBlock(sh.mode.request), down := rest)
      case Skip(r) => sh.(mode := AtIdle, down := rest, up := sh.up + [Idle(r)])
      case Prepare(r) => sh.(mode := AtIdle, down := rest, up := sh.up + [Idle(r)])
  }

  function Built(sh: Shard, ok: bool): Shard
    requires sh.mode.Building?
  {
    if ok then sh.(mode := Prepared(sh.mode.request), up := sh.up + [Ready(sh.mode.request)])
    else sh.(mode := AtIdle, up := sh.up + [Error(sh.mode.request)])
  }

  function Finished(sh: Shard, ok: bool): Shard
    requires sh.mode.InBlock?
  {
    sh.(mode := AtIdle, up := sh.up + [if ok then Done(sh.mode.request) else Error(sh.mode.request)])
  }

  function Heard(sh: Shard): Shard
    requires sh.up != []
  {
    sh.(up := sh.up[1..], heard := sh.heard + [sh.up[0]])
  }

  /** The record of a request starts anew. */
  function Rested(sh: Shard): Shard {
    sh.(told := Nothing, heard := [])
  }

  function Waiting(p: Phase): set<nat> {
    match p
    case Gathering(w, _) => w
    case Awaiting(w, _) => w
    case Collecting(w, _, _) => w
    case _ => {}
  }

  /** `_await_shards`, once it has what it is going to get. */
  predicate Settled(s: Group) {
    if !s.present then true
    else if s.phase.Collecting?
    then !s.phase.lost && !(s.phase.raised && !s.raisedHere) && Healthy(s)
    else s.stoodDown
  }

  predicate Enabled(s: Group, e: Event) {
    match e
    case Takes(i) => i < |s.shards| && s.shards[i].down != [] && (s.shards[i].mode.AtIdle? || s.shards[i].mode.Prepared?)
    case Builds(i, _) => i < |s.shards| && s.shards[i].mode.Building?
    case Finishes(i, _) => i < |s.shards| && s.shards[i].mode.InBlock?
    case Dies(i) => i < |s.shards| && !s.shards[i].mode.Dead?
    case Begins => s.phase.Resting? && s.present && Healthy(s)
    case Refuses => s.phase.Resting? && !(s.present && Healthy(s))
    case Abandons => s.phase == Sending(0)
    case Sends(_) => (s.phase.Sending? || s.phase.Going? || s.phase.Releasing?) && s.phase.next < |s.shards|
    case Hears(i) => i in Waiting(s.phase) && i < |s.shards| && s.shards[i].up != []
    case GivesUpOn(i) => s.phase.Gathering? && i in s.phase.waiting
    case GivesUp => (s.phase.Awaiting? || s.phase.Collecting?) && s.phase.waiting != {}
    case Gathered =>
      || (s.phase.Gathering? && s.phase.waiting == {})
      || (s.phase.Awaiting? && s.phase.waiting == {})
      || ((s.phase.Sending? || s.phase.Going? || s.phase.Releasing?) && s.phase.next == |s.shards|)
    case BuildsOwn(_) => s.phase.OwnBuild?
    case Arms(_) => s.phase.Arming?
    case Leaves(_) => s.phase.InForward?
    case Settles => s.phase.Returned? || (s.phase.Collecting? && s.phase.waiting == {})
    case Poisoned => s.phase == Returned(true)
  }

  /** Rank 0 hearing one reply in the middle of a drain. */
  function HearsOne(p: Phase, i: nat, m: Reply): Phase {
    match p
    case Gathering(w, failed) => Gathering(w - {i}, failed || !m.Ready?)
    case Awaiting(w, lost) => Awaiting(w - {i}, lost || !m.Idle?)
    case Collecting(w, lost, raised) => Collecting(w - {i}, lost, raised || !m.Done?)
    case _ => p
  }

  /** One send of the loop rank 0 is in. A failed PREPARE or GO ends the loop and
      stands the group down; a failed SKIP is passed over. */
  function SendsOne(s: Group, delivered: bool): Group
    requires (s.phase.Sending? || s.phase.Going? || s.phase.Releasing?) && s.phase.next < |s.shards|
  {
    var i := s.phase.next;
    var o := OrderOf(s);
    var p := match s.phase
      case Sending(_) => if delivered then Sending(i + 1) else Releasing(0)
      case Going(_) => if delivered then Going(i + 1) else Releasing(0)
      case _ => Releasing(i + 1);
    s.(shards := if delivered then s.shards[i := Given(s.shards[i], o)] else s.shards,
       phase := p, faulty := s.faulty || !delivered)
  }

  function LoopEnds(s: Group): Group {
    match s.phase
    case Sending(_) => s.(phase := Gathering(UpTo(|s.shards|), false))
    case Gathering(_, failed) => s.(phase := if failed then Releasing(0) else OwnBuild)
    case Going(_) => s.(phase := Arming)
    case Releasing(_) => s.(phase := Awaiting(UpTo(|s.shards|), false))
    case Awaiting(_, lost) => s.(phase := Returned(true), stoodDown := s.stoodDown && !lost)
    case _ => s
  }

  /** `restart`: every shard is stopped and the group is gone. */
  function Restarted(s: Group): Group {
    s.(phase := Resting, present := false,
       shards := seq(|s.shards|, i requires 0 <= i < |s.shards| => s.shards[i].(mode := Dead, down := [], up := [])))
  }

  function SettleOne(s: Group): Group {
    if !s.present then s.(phase := Resting)
    else if s.phase.Returned? && s.committed then s.(phase := Collecting(UpTo(|s.shards|), false, false))
    else if Settled(s) then
      s.(phase := Resting, shards := seq(|s.shards|, i requires 0 <= i < |s.shards| => Rested(s.shards[i])))
    else
      Restarted(s.(diverged := s.phase.Collecting? && !s.phase.lost && s.phase.raised && !s.raisedHere))
  }

  function HearStep(s: Group, i: nat): Group
    requires i < |s.shards| && s.shards[i].up != []
  {
    s.(shards := s.shards[i := Heard(s.shards[i])], phase := HearsOne(s.phase, i, s.shards[i].up[0]))
  }

  function Next(s: Group, e: Event): Group
    requires Enabled(s, e)
  {
    match e
    case Takes(i) => s.(shards := s.shards[i := Took(s.shards[i])])
    case Builds(i, ok) => s.(shards := s.shards[i := Built(s.shards[i], ok)])
    case Finishes(i, ok) => s.(shards := s.shards[i := Finished(s.shards[i], ok)])
    case Dies(i) => s.(shards := s.shards[i := s.shards[i].(mode := Dead, down := [])], faulty := true)
    case Begins =>
      s.(request := s.request + 1, phase := Sending(0), committed := false, stoodDown := true, raisedHere := false)
    case Refuses => s.(phase := Returned(false))
    case Abandons => s.(phase := Releasing(0))
    case Sends(delivered) => SendsOne(s, delivered)
    case Hears(i) => HearStep(s, i)
    case GivesUpOn(i) => s.(phase := Gathering(s.phase.waiting - {i}, true), faulty := true)
    case GivesUp =>
      s.(phase := if s.phase.Awaiting? then Awaiting({}, true) else Collecting({}, true, s.phase.raised), faulty := true)
    case Gathered => LoopEnds(s)
    case BuildsOwn(ok) => s.(phase := if ok then Going(0) else Releasing(0))
    case Arms(ok) =>
      if ok then s.(phase := InForward, committed := true) else s.(phase := Releasing(0), faulty := true)
    case Leaves(ok) => s.(phase := Returned(true), raisedHere := s.raisedHere || !ok)
    case Settles => SettleOne(s)
    case Poisoned => Restarted(s.(faulty := true))
  }

  /** A group as it comes up, every shard in its idle loop. */
  function Up(shards: nat): Group {
    Group(0, Resting, false, true, false, true, seq(shards, _ => Shard(AtIdle, [], [], Nothing, [])), false, false)
  }

  ghost predicate IsRun(shards: nat, events: seq<Event>) {
    events == [] ||
    (var last := |events| - 1;
     IsRun(shards, events[..last]) && Enabled(After(shards, events[..last]), events[last]))
  }

  ghost function After(shards: nat, events: seq<Event>): Group {
    if events == [] then Up(shards)
    else
      var s := After(shards, events[..|events| - 1]);
      if Enabled(s, events[|events| - 1]) then Next(s, events[|events| - 1]) else s
  }

  // --------------------------------------------------------------- the invariant

  /** What a shard can have said, given what it was told. */
  predicate Says(r: nat, told: Told, out: seq<Reply>) {
    match told
    case Nothing => out == []
    case P => out == [] || out == [Ready(r)] || out == [Error(r)]
    case S => out == [] || out == [Idle(r)]
    case PS => out == [] || out == [Ready(r)] || out == [Error(r)] || out == [Ready(r), Idle(r)] || out == [Error(r), Idle(r)]
    case PG => out == [Ready(r)] || out == [Ready(r), Done(r)] || out == [Ready(r), Error(r)]
    case PGS =>
      || out == [Ready(r)] || out == [Ready(r), Done(r)] || out == [Ready(r), Error(r)]
      || out == [Ready(r), Done(r), Idle(r)] || out == [Ready(r), Error(r), Idle(r)]
  }

  /** Where a live shard is, given what it was told and what it said. */
  predicate Stands(r: nat, sh: Shard, out: seq<Reply>) {
    match sh.told
    case Nothing => sh.mode == AtIdle && sh.down == []
    case P =>
      || (sh.mode == AtIdle && sh.down == [Prepare(r)] && out == [])
      || (sh.mode == Building(r) && sh.down == [] && out == [])
      || (sh.mode == Prepared(r) && sh.down == [] && out == [Ready(r)])
      || (sh.mode == AtIdle && sh.down == [] && out == [Error(r)])
    case S =>
      || (sh.mode == AtIdle && sh.down == [Skip(r)] && out == [])
      || (sh.mode == AtIdle && sh.down == [] && out == [Idle(r)])
    case PS =>
      || (sh.mode == AtIdle && sh.down == [Prepare(r), Skip(r)] && out == [])
      || (sh.mode == Building(r) && sh.down == [Skip(r)] && out == [])
      || (sh.mode == Prepared(r) && sh.down == [Skip(r)] && out == [Ready(r)])
      || (sh.mode == AtIdle && sh.down == [Skip(r)] && out == [Error(r)])
      || (sh.mode == AtIdle && sh.down == [] && |out| == 2)
    case PG =>
      || (sh.mode == Prepared(r) && sh.down == [Go(r)] && |out| == 1)
      || (sh.mode == InBlock(r) && sh.down == [] && |out| == 1)
      || (sh.mode == AtIdle && sh.down == [] && |out| == 2)
    case PGS =>
      || (sh.mode == Prepared(r) && sh.down == [Go(r), Skip(r)] && |out| == 1)
      || (sh.mode == InBlock(r) && sh.down == [Skip(r)] && |out| == 1)
      || (sh.mode == AtIdle && sh.down == [Skip(r)] && |out| == 2)
      || (sh.mode == AtIdle && sh.down == [] && |out| == 3)
  }

  predicate Fits(r: nat, sh: Shard) {
    && Says(r, sh.told, sh.heard + sh.up)
    && (if sh.mode.Dead? then sh.down == [] else Stands(r, sh, sh.heard + sh.up))
  }

  predicate ToldIdle(r: nat, sh: Shard) {
    sh.heard != [] && sh.heard[|sh.heard| - 1] == Idle(r)
  }

  /** Where rank 0 is with shard `i`. */
  predicate Deals(s: Group, i: nat)
    requires i < |s.shards|
  {
    var r, sh := s.request, s.shards[i];
    match s.phase
    case Resting => sh.told == Nothing
    case Sending(j) => sh.heard == [] && sh.told == (if i < j then P else Nothing)
    case Gathering(w, failed) =>
      && sh.told == P && (i in w ==> sh.heard == []) && (i !in w && !failed ==> sh.heard == [Ready(r)])
      && |sh.heard| <= 1
    case OwnBuild => sh.told == P && sh.heard == [Ready(r)]
    case Going(j) => sh.heard == [Ready(r)] && sh.told == (if i < j then PG else P)
    case Arming => sh.heard == [Ready(r)] && sh.told == PG
    case InForward => sh.heard == [Ready(r)] && sh.told == PG
    case Releasing(j) => |sh.heard| <= 1 && (i >= j ==> sh.told in {Nothing, P, PG})
    case Awaiting(w, lost) => i in w || lost || ToldIdle(r, sh)
    case Returned(_) =>
      if s.committed then sh.told == Nothing || (sh.told == PG && sh.heard == [Ready(r)])
      else sh.told == Nothing || !s.stoodDown || ToldIdle(r, sh)
    case Collecting(w, lost, _) =>
      || lost || (i in w && sh.told == Nothing) || (sh.told == PG && |sh.heard| == (if i in w then 1 else 2))
  }

  /** A shard told GO means every shard answered READY to this very request. */
  predicate Backed(s: Group) {
    (exists i :: 0 <= i < |s.shards| && (s.shards[i].told == PG || s.shards[i].told == PGS)) ==>
      forall k :: 0 <= k < |s.shards| ==> s.shards[k].heard != [] && s.shards[k].heard[0] == Ready(s.request)
  }

  predicate Flags(s: Group) {
    && (s.phase.Resting? || s.phase.Returned? ||
        (s.committed <==> s.phase.InForward? || s.phase.Collecting?))
    && (forall i :: i in Waiting(s.phase) ==> i < |s.shards|)
    && (s.phase.Sending? || s.phase.Going? || s.phase.Releasing? ==> s.phase.next <= |s.shards|)
    && (s.phase.Resting? || s.phase == Returned(false) ==> s.committed || s.stoodDown)
    && (s.phase.Resting? || s.phase.Returned? || s.phase.Collecting? || (s.stoodDown && !s.raisedHere))
  }

  /** While there is a group. */
  predicate Inv(s: Group) {
    && s.present && s.shards != [] && Flags(s) && Backed(s)
    && forall i :: 0 <= i < |s.shards| ==> Fits(s.request, s.shards[i]) && Deals(s, i)
  }

  /** Once it is gone: every request is refused, and no shard is left. */
  predicate Gone(s: Group) {
    && !s.present && s.shards != [] && (s.phase.Resting? || s.phase == Returned(false))
    && forall i :: 0 <= i < |s.shards| ==> s.shards[i].mode.Dead? && s.shards[i].down == [] && s.shards[i].up == []
  }

  // ------------------------------------------------------------ one shard's steps

  /** The order a shard reads next, given where it stands. */
  lemma NextOrder(r: nat, sh: Shard)
    requires Fits(r, sh) && sh.down != [] && (sh.mode.AtIdle? || sh.mode.Prepared?)
    ensures sh.down[0].request == r
    ensures sh.mode.Prepared? ==> !sh.down[0].Prepare? && sh.mode == Prepared(r)
    ensures sh.mode.AtIdle? ==> !sh.down[0].Go?
  {
    hide Says;
  }

  lemma TookFits(r: nat, sh: Shard)
    requires Fits(r, sh) && sh.down != [] && (sh.mode.AtIdle? || sh.mode.Prepared?)
    ensures Fits(r, Took(sh)) && Took(sh).told == sh.told && Took(sh).heard == sh.heard
  {
    NextOrder(r, sh);
    var out := sh.heard + sh.up;
    assert sh.heard + (sh.up + [Idle(r)]) == out + [Idle(r)];
    if sh.mode.Prepared? {
      assert sh.told == PS || sh.told == PG || sh.told == PGS;
    } else {
      assert sh.told != PG && sh.told != Nothing;
    }
  }

  lemma BuiltFits(r: nat, sh: Shard, ok: bool)
    requires Fits(r, sh) && sh.mode.Building?
    ensures Fits(r, Built(sh, ok)) && Built(sh, ok).told == sh.told && Built(sh, ok).heard == sh.heard
  {
    var out := sh.heard + sh.up;
    assert forall m :: sh.heard + (sh.up + [m]) == out + [m];
  }

  lemma FinishedFits(r: nat, sh: Shard, ok: bool)
    requires Fits(r, sh) && sh.mode.InBlock?
    ensures Fits(r, Finished(sh, ok)) && Finished(sh, ok).told == sh.told && Finished(sh, ok).heard == sh.heard
  {
    var out := sh.heard + sh.up;
    assert forall m :: sh.heard + (sh.up + [m]) == out + [m];
  }

  lemma HeardFits(r: nat, sh: Shard)
    requires Fits(r, sh) && sh.up != []
    ensures Fits(r, Heard(sh))
  {
    assert Heard(sh).heard + Heard(sh).up == sh.heard + sh.up;
  }

  lemma GivenFits(r: nat, sh: Shard, o: Order)
    requires Fits(r, sh) && o.request == r
    requires o.Prepare? ==> sh.told == Nothing
    requires o.Go? ==> sh.told == P && sh.heard == [Ready(r)]
    requires o.Skip? ==> sh.told == Nothing || sh.told == P || sh.told == PG
    ensures Fits(r, Given(sh, o))
  {
    var out := sh.heard + sh.up;
    assert o.Go? ==> out[0] == Ready(r);
  }

  /** IDLE is the last thing a shard says: once heard, it is back in its loop and
      both its channels are empty. */
  lemma IdleIsLast(r: nat, sh: Shard)
    requires Fits(r, sh) && ToldIdle(r, sh)
    ensures sh.up == [] && sh.down == [] && (sh.mode.AtIdle? || sh.mode.Dead?)
  {
    var out := sh.heard + sh.up;
    assert out[|sh.heard| - 1] == Idle(r);
    assert |out| == |sh.heard| + |sh.up|;
  }

  /** So is what it says when its block ends. */
  lemma DoneIsLast(r: nat, sh: Shard)
    requires Fits(r, sh) && sh.told == PG && |sh.heard| == 2
    ensures sh.up == [] && sh.down == [] && (sh.mode.AtIdle? || sh.mode.Dead?)
  {
    assert |sh.heard + sh.up| == 2 + |sh.up|;
  }

  // ---------------------------------------------------------------- every step

  /** A step of one shard that leaves the record of the request alone. */
  lemma ShardStepKeeps(s: Group, i: nat, sh: Shard, faulty: bool)
    requires Inv(s) && i < |s.shards| && Fits(s.request, sh)
    requires sh.told == s.shards[i].told && sh.heard == s.shards[i].heard
    ensures Inv(s.(shards := s.shards[i := sh], faulty := faulty))
  {
    hide Fits;
    var s' := s.(shards := s.shards[i := sh], faulty := faulty);
    forall k | 0 <= k < |s'.shards|
      ensures Fits(s'.request, s'.shards[k]) && Deals(s', k)
      ensures s'.shards[k].told == s.shards[k].told && s'.shards[k].heard == s.shards[k].heard
    {
      assert Deals(s, k);
    }
  }

  lemma ShardKeeps(s: Group, e: Event)
    requires Inv(s) && Enabled(s, e) && (e.Takes? || e.Builds? || e.Finishes? || e.Dies?)
    ensures Inv(Next(s, e))
  {
    hide Inv;
    assert Fits(s.request, s.shards[e.i]) by { InvMeans(s, e.i); }
    var sh := s.shards[e.i];
    match e
    case Takes(i) => TookFits(s.request, sh); ShardStepKeeps(s, i, Took(sh), s.faulty);
    case Builds(i, ok) => BuiltFits(s.request, sh, ok); ShardStepKeeps(s, i, Built(sh, ok), s.faulty);
    case Finishes(i, ok) => FinishedFits(s.request, sh, ok); ShardStepKeeps(s, i, Finished(sh, ok), s.faulty);
    case Dies(i) => ShardStepKeeps(s, i, sh.(mode := Dead, down := []), true);
  }

  lemma InvMeans(s: Group, i: nat)
    requires Inv(s) && i < |s.shards|
    ensures Fits(s.request, s.shards[i]) && Deals(s, i)
  {
  }

  lemma SendFlags(s: Group, delivered: bool)
    requires Inv(s) && Enabled(s, Sends(delivered))
    ensures Flags(SendsOne(s, delivered)) && Backed(SendsOne(s, delivered))
  {
    hide Fits;
    var s' := SendsOne(s, delivered);
    assert forall k :: 0 <= k < |s.shards| ==> s'.shards[k].heard == s.shards[k].heard && Deals(s, k);
  }

  function OrderOf(s: Group): Order {
    if s.phase.Sending? then Prepare(s.request) else if s.phase.Going? then Go(s.request) else Skip(s.request)
  }

  lemma SendFits(s: Group, delivered: bool, k: nat)
    requires Inv(s) && Enabled(s, Sends(delivered)) && k < |s.shards|
    ensures Fits(s.request, SendsOne(s, delivered).shards[k])
  {
    hide Says, Stands, Backed, Flags, Given;
    InvMeans(s, k);
    if delivered && k == s.phase.next {
      GivenFits(s.request, s.shards[k], OrderOf(s));
    }
  }

  lemma SendDeals(s: Group, delivered: bool, k: nat)
    requires Inv(s) && Enabled(s, Sends(delivered)) && k < |s.shards|
    ensures Deals(SendsOne(s, delivered), k)
  {
    hide Fits, Backed;
    InvMeans(s, k);
  }

  lemma SendKeeps(s: Group, delivered: bool)
    requires Inv(s) && Enabled(s, Sends(delivered))
    ensures Inv(SendsOne(s, delivered))
  {
    hide Fits, Deals, Flags, Backed;
    var s' := SendsOne(s, delivered);
    SendFlags(s, delivered);
    forall k | 0 <= k < |s'.shards| ensures Fits(s'.request, s'.shards[k]) && Deals(s', k) {
      SendFits(s, delivered, k);
      SendDeals(s, delivered, k);
    }
  }

  lemma HearFlags(s: Group, i: nat)
    requires Inv(s) && Enabled(s, Hears(i))
    ensures Flags(HearStep(s, i)) && Backed(HearStep(s, i))
  {
    hide Fits, Deals;
    var s' := HearStep(s, i);
    assert forall k :: 0 <= k < |s.shards| ==>
      s'.shards[k].told == s.shards[k].told && s.shards[k].heard <= s'.shards[k].heard;
    assert forall k :: k in Waiting(s'.phase) ==> k in Waiting(s.phase);
  }

  lemma HearFits(s: Group, i: nat, k: nat)
    requires Inv(s) && Enabled(s, Hears(i)) && k < |s.shards|
    ensures Fits(s.request, HearStep(s, i).shards[k])
  {
    hide Fits, Backed, Flags, Deals, HearsOne;
    InvMeans(s, k);
    if k == i {
      HeardFits(s.request, s.shards[i]);
    }
  }

  lemma HearDeals(s: Group, i: nat, k: nat)
    requires Inv(s) && Enabled(s, Hears(i)) && k < |s.shards|
    ensures Deals(HearStep(s, i), k)
  {
    hide Fits, Backed, Flags;
    InvMeans(s, k);
    if k == i {
      FirstHeard(s.request, s.shards[i]);
    }
  }

  lemma HearKeeps(s: Group, i: nat)
    requires Inv(s) && Enabled(s, Hears(i))
    ensures Inv(HearStep(s, i))
  {
    hide Fits, Deals, Flags, Backed;
    var s' := HearStep(s, i);
    HearFlags(s, i);
    forall k | 0 <= k < |s'.shards| ensures Fits(s'.request, s'.shards[k]) && Deals(s', k) {
      HearFits(s, i, k);
      HearDeals(s, i, k);
    }
  }

  /** A reply always belongs to the request it is heard in. */
  lemma FirstHeard(r: nat, sh: Shard)
    requires Fits(r, sh) && sh.up != []
    ensures sh.up[0].request == r && sh.told != Nothing
  {
    var out := sh.heard + sh.up;
    assert out[|sh.heard|] == sh.up[0];
  }

  lemma LoopFlags(s: Group)
    requires Flags(s)
    ensures Flags(LoopEnds(s))
  {
  }

  lemma BackedStays(s: Group, s': Group)
    requires Backed(s) && s'.shards == s.shards && s'.request == s.request
    ensures Backed(s')
  {
  }

  lemma LoopDeals(s: Group, k: nat)
    requires Inv(s) && Enabled(s, Gathered) && k < |s.shards|
    ensures Deals(LoopEnds(s), k)
  {
    hide Fits, Backed, UpTo;
    InvMeans(s, k);
  }

  /** The end of a loop or a drain of rank 0. */
  lemma LoopKeeps(s: Group)
    requires Inv(s) && Enabled(s, Gathered)
    ensures Inv(LoopEnds(s))
  {
    hide Fits, Deals, Flags, Backed, UpTo;
    LoopFlags(s);
    BackedStays(s, LoopEnds(s));
    forall k | 0 <= k < |s.shards| ensures Deals(LoopEnds(s), k) {
      LoopDeals(s, k);
    }
  }

  lemma BeginKeeps(s: Group)
    requires Inv(s) && Enabled(s, Begins)
    ensures Inv(Next(s, Begins))
  {
    var s' := Next(s, Begins);
    forall k | 0 <= k < |s'.shards| ensures Fits(s'.request, s'.shards[k]) && Deals(s', k) {
      assert Deals(s, k) && Fits(s.request, s.shards[k]);
    }
  }

  predicate RankZeroOnly(e: Event) {
    e.Refuses? || e.Abandons? || e.GivesUpOn? || e.GivesUp? || e.BuildsOwn? || e.Arms? || e.Leaves?
  }

  lemma RankZeroFlags(s: Group, e: Event)
    requires Inv(s) && Enabled(s, e) && RankZeroOnly(e)
    ensures Flags(Next(s, e))
  {
    hide Fits, Deals, Backed, Healthy;
    assert forall i :: i in Waiting(Next(s, e).phase) ==> i in Waiting(s.phase);
  }

  lemma RankZeroDeals(s: Group, e: Event, k: nat)
    requires Inv(s) && Enabled(s, e) && RankZeroOnly(e) && k < |s.shards|
    ensures Deals(Next(s, e), k)
  {
    hide Fits, Backed, Healthy;
    InvMeans(s, k);
  }

  lemma RankZeroKeeps(s: Group, e: Event)
    requires Inv(s) && Enabled(s, e) && RankZeroOnly(e)
    ensures Inv(Next(s, e))
  {
    hide Fits, Deals, Flags, Backed, Healthy;
    var s' := Next(s, e);
    RankZeroFlags(s, e);
    BackedStays(s, s');
    forall k | 0 <= k < |s'.shards| ensures Deals(s', k) {
      RankZeroDeals(s, e, k);
    }
  }

  /** A settled group is at rest: both channels of every shard are empty, and
      every shard is in its idle loop or dead. After a committed request, none is
      dead either. */
  predicate AtRest(sh: Shard) {
    sh.up == [] && sh.down == [] && (sh.mode.AtIdle? || sh.mode.Dead?)
  }

  lemma SettledIsAtRest(s: Group, i: nat)
    requires Inv(s) && Enabled(s, Settles) && !(s.phase.Returned? && s.committed) && Settled(s) && i < |s.shards|
    ensures AtRest(s.shards[i]) && (s.phase.Collecting? ==> s.shards[i].mode.AtIdle?)
  {
    InvMeans(s, i);
    var sh := s.shards[i];
    if ToldIdle(s.request, sh) {
      IdleIsLast(s.request, sh);
    } else if sh.told == PG && |sh.heard| == 2 {
      DoneIsLast(s.request, sh);
    }
  }

  lemma SettleFlags(s: Group)
    requires Inv(s) && Enabled(s, Settles) && SettleOne(s).present
    ensures Flags(SettleOne(s)) && Backed(SettleOne(s))
  {
    hide Fits, Deals, UpTo, Healthy;
  }

  lemma SettleFits(s: Group, k: nat)
    requires Inv(s) && Enabled(s, Settles) && SettleOne(s).present && k < |s.shards|
    ensures Fits(s.request, SettleOne(s).shards[k]) && Deals(SettleOne(s), k)
  {
    hide Says, Stands, UpTo, Backed;
    InvMeans(s, k);
    if SettleOne(s).phase.Resting? {
      SettledIsAtRest(s, k);
      RestFits(s.request, s.shards[k]);
    }
  }

  lemma SettleKeeps(s: Group)
    requires Inv(s) && Enabled(s, Settles)
    ensures Inv(SettleOne(s)) || Gone(SettleOne(s))
  {
    hide Fits, Deals, Flags, Backed, UpTo, Settled;
    var s' := SettleOne(s);
    if s'.present {
      SettleFlags(s);
      forall k | 0 <= k < |s'.shards| ensures Fits(s'.request, s'.shards[k]) && Deals(s', k) {
        SettleFits(s, k);
      }
    }
  }

  lemma RestFits(r: nat, sh: Shard)
    requires AtRest(sh)
    ensures Fits(r, Rested(sh)) && Rested(sh).told == Nothing
  {
  }

  /** With or without a group. */
  predicate GroupInv(s: Group) {
    Inv(s) || Gone(s)
  }

  /** A group that is gone stays so, and nothing is sent to what were its shards. */
  lemma GoneStays(s: Group, e: Event)
    requires Gone(s) && Enabled(s, e)
    ensures Gone(Next(s, e)) && Next(s, e).shards == s.shards && Next(s, e).request == s.request
    ensures Next(s, e).faulty == s.faulty && Next(s, e).diverged == s.diverged
  {
  }

  lemma StepKeeps(s: Group, e: Event)
    requires GroupInv(s) && Enabled(s, e)
    ensures GroupInv(Next(s, e))
  {
    hide Inv, Gone;
    if Gone(s) {
      GoneStays(s, e);
    } else {
      match e
      case Takes(_) => ShardKeeps(s, e);
      case Builds(_, _) => ShardKeeps(s, e);
      case Finishes(_, _) => ShardKeeps(s, e);
      case Dies(_) => ShardKeeps(s, e);
      case Begins => BeginKeeps(s);
      case Sends(delivered) => SendKeeps(s, delivered);
      case Hears(i) => HearKeeps(s, i);
      case Gathered => LoopKeeps(s);
      case Settles => SettleKeeps(s);
      case Poisoned =>
        HasShards(s);
        RestartedIsGone(s.(faulty := true));
      case _ => RankZeroKeeps(s, e);
    }
  }

  lemma RestartedIsGone(s: Group)
    requires s.shards != []
    ensures Gone(Restarted(s))
  {
  }

  lemma HasShards(s: Group)
    requires Inv(s)
    ensures s.shards != []
  {
  }

  lemma UpInv(shards: nat)
    requires shards > 0
    ensures Inv(Up(shards))
  {
  }

  lemma {:induction false} RunKeeps(shards: nat, events: seq<Event>)
    requires shards > 0 && IsRun(shards, events)
    ensures GroupInv(After(shards, events))
  {
    hide Inv, Gone, Next, Enabled, GroupInv;
    if events == [] {
      UpInv(shards);
      assert GroupInv(Up(shards)) by { GroupHolds(Up(shards)); }
    } else {
      var last := |events| - 1;
      RunKeeps(shards, events[..last]);
      StepKeeps(After(shards, events[..last]), events[last]);
    }
  }

  lemma GroupHolds(s: Group)
    requires Inv(s)
    ensures GroupInv(s)
  {
  }

  // --------------------------------------------------------------- what runs keep

  predicate AllIdle(s: Group) {
    forall i :: 0 <= i < |s.shards| ==> s.shards[i].mode.AtIdle?
  }

  lemma IdleIffHealthy(s: Group)
    requires s.shards != [] && forall i :: 0 <= i < |s.shards| ==> AtRest(s.shards[i])
    ensures AllIdle(s) <==> Healthy(s)
  {
  }

  /** After any request whose execute returned, whatever failed, raised, was late
      or was only partly sent: between requests every channel is empty, and every
      shard is in its idle loop if and only if the group is healthy. */
  lemma RestingIsAtRest(shards: nat, events: seq<Event>)
    requires shards > 0 && IsRun(shards, events) && After(shards, events).phase.Resting?
    ensures var s := After(shards, events);
      (forall i :: 0 <= i < |s.shards| ==> AtRest(s.shards[i])) && (AllIdle(s) <==> Healthy(s))
  {
    hide After, IsRun, AllIdle, Healthy;
    var s := After(shards, events);
    RunKeeps(shards, events);
    forall i | 0 <= i < |s.shards| ensures AtRest(s.shards[i]) {
      if s.present {
        InvMeans(s, i);
      }
    }
    IdleIffHealthy(s);
  }

  /** So too where `_await_shards` is about to report settled; and after a committed
      request the group is healthy, so every shard is alive and in its idle loop. */
  lemma SettledGroupIsAtRest(shards: nat, events: seq<Event>)
    requires shards > 0 && IsRun(shards, events) && Enabled(After(shards, events), Settles)
    requires var s := After(shards, events); s.present && !(s.phase.Returned? && s.committed) && Settled(s)
    ensures var s := After(shards, events);
      && (forall i :: 0 <= i < |s.shards| ==> AtRest(s.shards[i]))
      && (AllIdle(s) <==> Healthy(s)) && (s.phase.Collecting? ==> AllIdle(s))
  {
    hide After, IsRun, AllIdle, Healthy;
    var s := After(shards, events);
    RunKeeps(shards, events);
    forall i | 0 <= i < |s.shards| ensures AtRest(s.shards[i]) {
      SettledIsAtRest(s, i);
    }
    IdleIffHealthy(s);
  }

  /** A group can be reported settled with a shard dead: one that died at rest makes
      the next request refuse to start, and cleanup then finds that the last request
      stood the group down. */
  lemma SettledWithADeadShard()
    ensures var s := After(1, [Dies(0), Refuses]);
      && IsRun(1, [Dies(0), Refuses]) && Enabled(s, Settles) && s.present && Settled(s)
      && s.shards[0].mode == Dead && Next(s, Settles).phase.Resting? && Next(s, Settles).present
  {
    var events := [Dies(0), Refuses];
    assert events[..1] == [Dies(0)] && events[..1][..0] == [];
    assert After(1, []) == Up(1) && IsRun(1, []);
    assert After(1, [Dies(0)]) == Next(Up(1), Dies(0)) && IsRun(1, [Dies(0)]) by {
      assert [Dies(0)][..0] == [];
    }
    assert !Healthy(After(1, [Dies(0)])) by {
      assert After(1, [Dies(0)]).shards[0].mode == Dead;
    }
  }

  // ------------------------------------------------ giving up an unhealthy group

  /** Unhealthy, at rest, and the last request that ran never committed. */
  predicate Stuck(s: Group) {
    && s.present && !s.committed && s.stoodDown && !Healthy(s) && (s.phase.Resting? || s.phase == Returned(false))
  }

  /** The only steps left are a refusal, its cleanup, and more deaths. */
  lemma StuckSteps(s: Group, e: Event)
    requires Inv(s) && Stuck(s) && Enabled(s, e)
    ensures e.Dies? || e.Refuses? || e.Settles?
  {
    hide Says, Backed, Flags, Healthy;
    if e.Takes? || e.Builds? || e.Finishes? {
      InvMeans(s, e.i);
      if ToldIdle(s.request, s.shards[e.i]) {
        IdleIsLast(s.request, s.shards[e.i]);
      }
    }
  }

  lemma StuckStays(s: Group, e: Event)
    requires Inv(s) && Stuck(s) && Enabled(s, e)
    ensures Stuck(Next(s, e)) && Next(s, e).request == s.request
  {
    hide Fits, Backed, Flags, Deals;
    StuckSteps(s, e);
    var k :| 0 <= k < |s.shards| && s.shards[k].mode.Dead?;
    assert Next(s, e).shards[k].mode.Dead?;
  }

  lemma {:induction false} StuckForGood(shards: nat, events: seq<Event>, more: seq<Event>)
    requires shards > 0 && IsRun(shards, events + more) && Stuck(After(shards, events))
    ensures Stuck(After(shards, events + more)) && After(shards, events + more).request == After(shards, events).request
  {
    hide Stuck, Inv, Gone, Next, Enabled;
    if more == [] {
      assert events + more == events;
    } else {
      var last := |more| - 1;
      var before := events + more[..last];
      assert (events + more)[..|events + more| - 1] == before && (events + more)[|events + more| - 1] == more[last];
      StuckForGood(shards, events, more[..last]);
      RunKeeps(shards, before);
      StuckIsPresent(After(shards, before));
      StuckStays(After(shards, before), more[last]);
    }
  }

  lemma StuckIsPresent(s: Group)
    requires Stuck(s) && GroupInv(s)
    ensures Inv(s) && s.present
  {
  }

  lemma RunGrows(shards: nat, events: seq<Event>, e: Event)
    requires IsRun(shards, events) && Enabled(After(shards, events), e)
    ensures IsRun(shards, events + [e]) && After(shards, events + [e]) == Next(After(shards, events), e)
  {
    assert (events + [e])[..|events|] == events;
  }

  /** How a group whose last request committed is given up once it is unhealthy. */
  lemma CommittedIsGivenUp(shards: nat, events: seq<Event>)
    requires shards > 0 && IsRun(shards, events)
    requires var s := After(shards, events); s.present && s.phase.Resting? && s.committed && !Healthy(s)
    ensures var more := [Refuses, Settles, GivesUp, Settles];
      IsRun(shards, events + more) && !After(shards, events + more).present
  {
    hide IsRun, After, Healthy;
    RunKeeps(shards, events);
    var s := After(shards, events);
    assert UpTo(|s.shards|) != {} by { assert 0 in UpTo(|s.shards|); }
    RunGrows(shards, events, Refuses);
    RunGrows(shards, events + [Refuses], Settles);
    RunGrows(shards, events + [Refuses] + [Settles], GivesUp);
    RunGrows(shards, events + [Refuses] + [Settles] + [GivesUp], Settles);
    assert events + [Refuses] + [Settles] + [GivesUp] + [Settles] == events + [Refuses, Settles, GivesUp, Settles];
  }

  /** An unhealthy group at rest can ever be given up if and only if the last request
      that ran on it committed. Otherwise every later request is refused, each time
      reported settled, and the replica serves nothing more. */
  lemma UnhealthyIsGivenUpIffCommitted(shards: nat, events: seq<Event>)
    requires shards > 0 && IsRun(shards, events)
    requires var s := After(shards, events); s.present && s.phase.Resting? && !Healthy(s)
    ensures (exists more :: IsRun(shards, events + more) && !After(shards, events + more).present)
            <==> After(shards, events).committed
  {
    hide IsRun, After;
    RunKeeps(shards, events);
    var s := After(shards, events);
    if s.committed {
      CommittedIsGivenUp(shards, events);
    } else {
      assert Stuck(s);
      forall more | IsRun(shards, events + more) ensures After(shards, events + more).present {
        StuckForGood(shards, events, more);
      }
    }
  }

  /** No shard is ever given an order it does not expect: in its idle loop it never
      reads a GO, and once prepared it never reads an order to prepare. */
  lemma OrdersAreExpected(shards: nat, events: seq<Event>, i: nat)
    requires shards > 0 && IsRun(shards, events) && i < |After(shards, events).shards|
    ensures var sh := After(shards, events).shards[i];
      && (sh.down != [] && sh.mode.AtIdle? ==> !sh.down[0].Go?)
      && (sh.down != [] && sh.mode.Prepared? ==> !sh.down[0].Prepare?)
  {
    hide After, IsRun;
    RunKeeps(shards, events);
    var s := After(shards, events);
    if Inv(s) {
      InvMeans(s, i);
    }
    hide Inv;
  }

  /** No shard is in a forward pass, or about to read a GO, except for the current
      request and after every shard answered READY to that same request. */
  lemma GoOnlyWhenAllReady(shards: nat, events: seq<Event>, i: nat, o: Order)
    requires shards > 0 && IsRun(shards, events) && i < |After(shards, events).shards|
    requires var sh := After(shards, events).shards[i];
             (o in sh.down && o.Go?) || (o.Go? && sh.mode == InBlock(o.request))
    ensures var s := After(shards, events);
      o.request == s.request &&
      forall k :: 0 <= k < |s.shards| ==> s.shards[k].heard != [] && s.shards[k].heard[0] == Ready(s.request)
  {
    hide After, IsRun;
    var s := After(shards, events);
    RunKeeps(shards, events);
    assert s.present;
    InvMeans(s, i);
    GoWasTold(s.request, s.shards[i], o);
    hide Fits, Deals;
  }

  lemma GoWasTold(r: nat, sh: Shard, o: Order)
    requires Fits(r, sh) && o.Go? && (o in sh.down || sh.mode == InBlock(o.request))
    ensures o.request == r && (sh.told == PG || sh.told == PGS)
  {
  }

  /** What rank 0 counts in a drain is always an answer to the request at hand. */
  lemma NoStaleReply(shards: nat, events: seq<Event>, i: nat)
    requires shards > 0 && IsRun(shards, events) && i < |After(shards, events).shards|
    ensures var s := After(shards, events); Enabled(s, Hears(i)) ==> s.shards[i].up[0].request == s.request
  {
    hide After, IsRun;
    RunKeeps(shards, events);
    if After(shards, events).shards[i].up != [] {
      InvMeans(After(shards, events), i);
      FirstHeard(After(shards, events).request, After(shards, events).shards[i]);
    }
  }

  /** A group given up is not used again: no order ever reaches what were its
      shards, all of which are stopped. */
  lemma {:induction false} GivenUpForGood(shards: nat, events: seq<Event>, more: seq<Event>)
    requires shards > 0 && IsRun(shards, events + more) && !After(shards, events).present
    requires IsRun(shards, events)
    ensures !After(shards, events + more).present && After(shards, events + more).shards == After(shards, events).shards
    ensures After(shards, events + more).request == After(shards, events).request
    ensures forall i :: 0 <= i < |After(shards, events).shards| ==> After(shards, events).shards[i].mode.Dead?
  {
    hide Next, Enabled;
    RunKeeps(shards, events);
    if more == [] {
      assert events + more == events;
    } else {
      var last := |more| - 1;
      var before := events + more[..last];
      assert (events + more)[..|events + more| - 1] == before && (events + more)[|events + more| - 1] == more[last];
      GivenUpForGood(shards, events, more[..last]);
      RunKeeps(shards, before);
      GoneStays(After(shards, before), more[last]);
    }
  }

  /** A group that did not settle is never used again, whatever happens after: the
      settling gives it up, its shards are stopped, later requests are refused and no
      order ever reaches what were its shards. */
  lemma UnsettledIsNeverReused(shards: nat, events: seq<Event>, more: seq<Event>)
    requires shards > 0 && IsRun(shards, events + [Settles] + more)
    requires var s := After(shards, events); s.present && !(s.phase.Returned? && s.committed) && !Settled(s)
    ensures var gone, s := After(shards, events + [Settles]), After(shards, events + [Settles] + more);
      && !s.present && s.request == gone.request && s.shards == gone.shards
      && forall i :: 0 <= i < |s.shards| ==> s.shards[i].mode.Dead?
  {
    RunStarts(shards, events + [Settles], more);
    LosesTheGroup(shards, events);
    GivenUpForGood(shards, events + [Settles], more);
    hide After, IsRun;
  }

  lemma LosesTheGroup(shards: nat, events: seq<Event>)
    requires shards > 0 && IsRun(shards, events + [Settles])
    requires var s := After(shards, events); s.present && !(s.phase.Returned? && s.committed) && !Settled(s)
    ensures !After(shards, events + [Settles]).present
  {
    assert (events + [Settles])[..|events|] == events;
    hide Settled;
  }

  lemma {:induction false} RunStarts(shards: nat, events: seq<Event>, more: seq<Event>)
    requires IsRun(shards, events + more)
    ensures IsRun(shards, events)
    decreases |more|
  {
    hide Enabled, After;
    if more == [] {
      assert events + more == events;
    } else {
      assert (events + more)[..|events + more| - 1] == events + more[..|more| - 1];
      RunStarts(shards, events, more[..|more| - 1]);
    }
  }

  // ------------------------------------------------------ no restart without cause

  /** Where rank 0 is with shard `i` while nothing has broken. */
  predicate Smooth(s: Group, i: nat)
    requires i < |s.shards|
  {
    var sh := s.shards[i];
    && !sh.mode.Dead?
    && match s.phase
       case Gathering(w, _) => i in w || |sh.heard| == 1
       case Releasing(j) =>
         || (|sh.heard| == 1 && sh.told == (if i < j then PS else P))
         || (sh.heard == [] && sh.told == (if i < j then S else Nothing))
       case Awaiting(w, lost) =>
         !lost && if sh.told == PS then |sh.heard| == (if i in w then 1 else 2)
                  else sh.told == S && |sh.heard| == (if i in w then 0 else 1)
       case Returned(_) => if s.committed then sh.told == PG else s.stoodDown
       case Collecting(w, lost, _) => !lost && sh.told == PG
       case _ => true
  }

  /** While nothing has broken the group is as it should be, or was given up because
      a shard raised where rank 0 did not. */
  predicate SmoothSoFar(s: Group) {
    !s.faulty ==> if s.present then forall i :: 0 <= i < |s.shards| ==> Smooth(s, i) else s.diverged
  }

  lemma AllAlive(s: Group)
    requires s.present && s.shards != [] && SmoothSoFar(s)
    ensures !s.faulty ==> Healthy(s)
  {
    if !s.faulty {
      forall i | 0 <= i < |s.shards| ensures !s.shards[i].mode.Dead? {
        assert Smooth(s, i);
      }
    }
  }

  lemma UpIsSmooth(shards: nat)
    ensures SmoothSoFar(Up(shards))
  {
  }

  lemma SmoothShard(s: Group, e: Event)
    requires Inv(s) && SmoothSoFar(s) && Enabled(s, e) && (e.Takes? || e.Builds? || e.Finishes? || e.Dies?)
    ensures SmoothSoFar(Next(s, e))
  {
    hide Fits, Deals, Backed, Flags;
    var s' := Next(s, e);
    if !s'.faulty {
      forall i | 0 <= i < |s'.shards| ensures Smooth(s', i) {
        assert Smooth(s, i);
      }
    }
  }

  lemma SmoothSend(s: Group, delivered: bool)
    requires Inv(s) && SmoothSoFar(s) && Enabled(s, Sends(delivered))
    ensures SmoothSoFar(SendsOne(s, delivered))
  {
    hide Fits, Backed, Flags;
    var s' := SendsOne(s, delivered);
    if !s'.faulty {
      forall i | 0 <= i < |s'.shards| ensures Smooth(s', i) {
        assert Smooth(s, i);
      }
    }
  }

  /** After a SKIP to a shard that has answered, what comes next is IDLE. */
  lemma NextIsIdle(r: nat, sh: Shard)
    requires Fits(r, sh) && sh.up != []
    requires (sh.told == PS && |sh.heard| == 1) || (sh.told == S && sh.heard == [])
    ensures sh.up[0] == Idle(r)
  {
    var out := sh.heard + sh.up;
    assert out[|sh.heard|] == sh.up[0];
  }

  lemma SmoothHear(s: Group, i: nat)
    requires Inv(s) && SmoothSoFar(s) && Enabled(s, Hears(i))
    ensures SmoothSoFar(Next(s, Hears(i)))
  {
    var s' := Next(s, Hears(i));
    InvMeans(s, i);
    if s.phase.Awaiting? && !s.faulty {
      assert Smooth(s, i);
      NextIsIdle(s.request, s.shards[i]);
    }
    hide Fits, Backed, Flags;
    if !s'.faulty {
      forall k | 0 <= k < |s'.shards| ensures Smooth(s', k) {
        assert Smooth(s, k) && Deals(s, k);
      }
    }
  }

  lemma SmoothLoopOne(s: Group, i: nat)
    requires Inv(s) && Enabled(s, Gathered) && i < |s.shards| && Smooth(s, i)
    ensures Smooth(LoopEnds(s), i)
  {
    hide Fits, Backed, Healthy;
    InvMeans(s, i);
  }

  lemma SmoothLoop(s: Group)
    requires Inv(s) && SmoothSoFar(s) && Enabled(s, Gathered)
    ensures SmoothSoFar(LoopEnds(s))
  {
    hide Fits, Backed, Healthy, UpTo, Smooth, Deals;
    var s' := LoopEnds(s);
    if !s'.faulty {
      forall i | 0 <= i < |s'.shards| ensures Smooth(s', i) {
        SmoothLoopOne(s, i);
      }
    }
  }

  lemma SmoothRest(s: Group, e: Event)
    requires Inv(s) && SmoothSoFar(s) && Enabled(s, e)
    requires e.Begins? || e.Refuses? || e.Abandons? || e.GivesUpOn? || e.GivesUp? || e.BuildsOwn? || e.Arms? || e.Leaves?
    ensures SmoothSoFar(Next(s, e))
  {
    hide Fits, Backed, Healthy, UpTo;
    AllAlive(s);
    var s' := Next(s, e);
    if !s'.faulty {
      forall i | 0 <= i < |s'.shards| ensures Smooth(s', i) {
        assert Smooth(s, i) && Deals(s, i);
      }
    }
  }

  lemma SmoothSettle(s: Group)
    requires Inv(s) && SmoothSoFar(s) && Enabled(s, Settles)
    ensures SmoothSoFar(SettleOne(s))
  {
    hide Fits, Backed, Flags, Deals, Healthy, UpTo;
    AllAlive(s);
    var s' := SettleOne(s);
    if !s'.faulty {
      assert Smooth(s, 0);
      if s'.present {
        forall i | 0 <= i < |s'.shards| ensures Smooth(s', i) {
          assert Smooth(s, i);
        }
      }
    }
  }

  lemma StepIsSmooth(s: Group, e: Event)
    requires GroupInv(s) && SmoothSoFar(s) && Enabled(s, e)
    ensures SmoothSoFar(Next(s, e))
  {
    hide Inv, Gone, SmoothSoFar;
    if Gone(s) {
      GoneIsSmooth(s, e);
    } else {
      match e
      case Takes(_) => SmoothShard(s, e);
      case Builds(_, _) => SmoothShard(s, e);
      case Finishes(_, _) => SmoothShard(s, e);
      case Dies(_) => SmoothShard(s, e);
      case Sends(delivered) => SmoothSend(s, delivered);
      case Hears(i) => SmoothHear(s, i);
      case Settles => SmoothSettle(s);
      case Gathered => SmoothLoop(s);
      case Poisoned => FaultIsSmooth(Next(s, e));
      case _ => SmoothRest(s, e);
    }
  }

  lemma GoneIsSmooth(s: Group, e: Event)
    requires Gone(s) && SmoothSoFar(s) && Enabled(s, e)
    ensures SmoothSoFar(Next(s, e))
  {
    GoneStays(s, e);
    hide Next, Enabled;
  }

  lemma FaultIsSmooth(s: Group)
    requires s.faulty
    ensures SmoothSoFar(s)
  {
  }

  lemma {:induction false} RunIsSmooth(shards: nat, events: seq<Event>)
    requires shards > 0 && IsRun(shards, events)
    ensures SmoothSoFar(After(shards, events))
  {
    hide Inv, Gone, GroupInv, Next, Enabled, SmoothSoFar;
    if events == [] {
      UpIsSmooth(shards);
    } else {
      var last := |events| - 1;
      RunKeeps(shards, events[..last]);
      RunIsSmooth(shards, events[..last]);
      StepIsSmooth(After(shards, events[..last]), events[last]);
    }
  }

  /** A replica is only ever given up for a cause: something broke, or a shard
      raised where rank 0 did not. A build refused on any rank, or a block that
      raises on every rank, never costs the group. */
  lemma GivenUpForAReason(shards: nat, events: seq<Event>)
    requires shards > 0 && IsRun(shards, events) && !After(shards, events).present
    ensures After(shards, events).faulty || After(shards, events).diverged
  {
    hide After, IsRun;
    RunIsSmooth(shards, events);
  }
}
