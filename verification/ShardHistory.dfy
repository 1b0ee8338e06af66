/** What the events of a run say about the tensor-parallel group: when a request
    commits, when it is stood down, and when the group is kept (`tp/host.py`,
    `tp/model.py`). */
module ShardHistory {
  import opened Ordering
  import opened ShardGroup

  // ------------------------------------------------------------------ the history

  /** The events since rank 0 last began a request. */
  function Current(events: seq<Event>): seq<Event> {
    if events == [] then []
    else
      var last := |events| - 1;
      if events[last].Begins? then [] else Current(events[..last]) + [events[last]]
  }

  /** How many orders went out. */
  function Sent(cur: seq<Event>): nat {
    if cur == [] then 0
    else Sent(cur[..|cur| - 1]) + if cur[|cur| - 1] == Sends(true) then 1 else 0
  }

  lemma SentMore(cur: seq<Event>, e: Event)
    ensures Sent(cur + [e]) == Sent(cur) + if e == Sends(true) then 1 else 0
  {
    assert (cur + [e])[..|cur|] == cur;
  }

  /** Every shard built the block, and rank 0 heard from it. */
  predicate AllReady(n: nat, cur: seq<Event>) {
    forall i :: 0 <= i < n ==> Builds(i, true) in cur && Hears(i) in cur
  }

  /** Everything a commit takes: every shard built and was heard, rank 0 built, the
      order to prepare and GO reached every shard, and arming went through. */
  predicate Went(n: nat, cur: seq<Event>) {
    && AllReady(n, cur) && BuildsOwn(true) in cur && Sent(cur) == 2 * n && Sends(false) !in cur && Arms(true) in cur
  }

  /** Rank 0 came out of the block, one way or the other. */
  predicate Left(s: Group, cur: seq<Event>) {
    && (s.raisedHere <==> Leaves(false) in cur) && (Leaves(true) in cur <==> Leaves(false) !in cur)
  }

  /** Nothing past the gathering has happened. */
  predicate Early(cur: seq<Event>) {
    forall e :: e in cur ==> !e.BuildsOwn? && !e.Arms? && !e.Leaves? && e != GivesUp && e != Sends(false)
  }

  /** Nothing past the commit has happened. */
  predicate Before(cur: seq<Event>) {
    Leaves(true) !in cur && Leaves(false) !in cur && GivesUp !in cur && Sends(false) !in cur && Arms(true) !in cur
  }

  /** What one shard has said is what it has done. */
  predicate ShardTells(r: nat, i: nat, sh: Shard, cur: seq<Event>) {
    var out := sh.heard + sh.up;
    && (Builds(i, true) in cur <==> out != [] && out[0] == Ready(r))
    && (Builds(i, false) in cur <==> out != [] && out[0] == Error(r))
    && (Finishes(i, true) in cur <==> |out| >= 2 && out[1] == Done(r))
    && (Finishes(i, false) in cur <==> |out| >= 2 && out[1] == Error(r))
    && (Hears(i) in cur <==> sh.heard != [])
  }

  /** A shard rank 0 has been told is not ready. */
  predicate NotReady(s: Group, i: nat, cur: seq<Event>)
    requires i < |s.shards|
  {
    GivesUpOn(i) in cur || (s.shards[i].heard != [] && !s.shards[i].heard[0].Ready?)
  }

  /** A shard that raised in the block, as far as rank 0 has heard. */
  predicate HeardRaise(s: Group, i: nat)
    requires i < |s.shards|
  {
    |s.shards[i].heard| >= 2 && !s.shards[i].heard[1].Done?
  }

  /** SKIP was sent to the shard, or some send failed. */
  predicate Skipped(s: Group, i: nat, cur: seq<Event>)
    requires i < |s.shards|
  {
    s.shards[i].told in {S, PS, PGS} || Sends(false) in cur
  }

  predicate AllSkipped(s: Group, upTo: nat, cur: seq<Event>) {
    forall i :: 0 <= i < upTo && i < |s.shards| ==> Skipped(s, i, cur)
  }

  /** Where rank 0 is says what has happened. */
  predicate PhaseTells(s: Group, cur: seq<Event>) {
    var n := |s.shards|;
    match s.phase
    case Resting => true
    case Sending(j) => Early(cur) && Sent(cur) == j && forall i :: 0 <= i < n ==> GivesUpOn(i) !in cur && s.shards[i].heard == []
    case Gathering(w, failed) =>
      && Early(cur) && Sent(cur) == n
      && (failed <==> exists i :: 0 <= i < n && NotReady(s, i, cur))
      && forall i :: 0 <= i < n ==>
           if i in w then s.shards[i].heard == [] && GivesUpOn(i) !in cur else (s.shards[i].heard == [] <==> GivesUpOn(i) in cur)
    case OwnBuild => Early(cur) && AllReady(n, cur) && Sent(cur) == n
    case Going(j) => Before(cur) && AllReady(n, cur) && BuildsOwn(true) in cur && Sent(cur) == n + j
    case Arming => Before(cur) && AllReady(n, cur) && BuildsOwn(true) in cur && Sent(cur) == 2 * n
    case InForward => Leaves(true) !in cur && Leaves(false) !in cur && GivesUp !in cur
    case Releasing(j) => AllSkipped(s, j, cur)
    case Awaiting(_, _) => AllSkipped(s, n, cur)
    case Returned(_) => if s.committed then Left(s, cur) && GivesUp !in cur else AllSkipped(s, n, cur)
    case Collecting(_, lost, raised) =>
      && Left(s, cur) && (lost <==> GivesUp in cur) && (lost ==> s.phase.waiting == {})
      && (raised <==> exists i :: 0 <= i < n && HeardRaise(s, i))
  }

  /** A request is under way, not a refusal. */
  predicate Open(s: Group, cur: seq<Event>) {
    s.present && !s.phase.Resting? && Refuses !in cur
  }

  predicate Tells(s: Group, cur: seq<Event>) {
    && (s.committed <==> Went(|s.shards|, cur)) && (s.committed <==> Arms(true) in cur)
    && (Refuses in cur ==> s.phase.Resting? || s.phase.Returned? || s.phase.Collecting?)
    && (Open(s, cur) ==> PhaseTells(s, cur) && forall i :: 0 <= i < |s.shards| ==> ShardTells(s.request, i, s.shards[i], cur))
  }

  // --------------------------------------------------------------------- its steps

  lemma OneMore(cur: seq<Event>, e: Event)
    ensures forall x :: x in cur + [e] <==> x in cur || x == e
  {
  }

  predicate Harmless(e: Event) {
    !e.BuildsOwn? && !e.Arms? && !e.Leaves? && e != GivesUp && !e.Sends?
  }

  /** Such an event leaves these as they were. */
  lemma HarmlessStays(n: nat, cur: seq<Event>, e: Event)
    requires Harmless(e)
    ensures (Early(cur) ==> Early(cur + [e])) && (Before(cur) ==> Before(cur + [e])) && Sent(cur + [e]) == Sent(cur)
    ensures AllReady(n, cur) ==> AllReady(n, cur + [e])
  {
    OneMore(cur, e);
    SentMore(cur, e);
    hide Sent;
  }

  lemma NotRefused(cur: seq<Event>, e: Event)
    requires !e.Refuses?
    ensures Refuses in cur + [e] <==> Refuses in cur
  {
    OneMore(cur, e);
  }

  /** How far a shard's answers have got, from where it is. */
  lemma SaidSoFar(r: nat, sh: Shard)
    requires Fits(r, sh) && !sh.mode.Dead?
    ensures sh.mode.Building? ==> sh.mode.request == r && sh.heard + sh.up == []
    ensures sh.mode.InBlock? ==> sh.mode.request == r && |sh.heard + sh.up| == 1
    ensures sh.down != [] && (sh.mode.AtIdle? || sh.mode.Prepared?) ==>
              Took(sh).heard + Took(sh).up == sh.heard + sh.up || Took(sh).heard + Took(sh).up == sh.heard + sh.up + [Idle(r)]
  {
    if sh.down != [] && (sh.mode.AtIdle? || sh.mode.Prepared?) && Took(sh).up != sh.up {
      assert Took(sh).up == sh.up + [Idle(r)];
      assert sh.heard + (sh.up + [Idle(r)]) == sh.heard + sh.up + [Idle(r)];
    }
  }

  /** A shard's own step, which leaves what rank 0 has heard and said alone. */
  lemma TakesTells(r: nat, i: nat, sh: Shard, cur: seq<Event>)
    requires Fits(r, sh) && ShardTells(r, i, sh, cur) && sh.down != [] && (sh.mode.AtIdle? || sh.mode.Prepared?)
    ensures ShardTells(r, i, Took(sh), cur + [Takes(i)]) && Took(sh).heard == sh.heard && Took(sh).told == sh.told
  {
    SaidSoFar(r, sh);
    OneMore(cur, Takes(i));
    hide Fits;
  }

  lemma BuildsTells(r: nat, i: nat, sh: Shard, cur: seq<Event>, ok: bool)
    requires Fits(r, sh) && ShardTells(r, i, sh, cur) && sh.mode.Building?
    ensures ShardTells(r, i, Built(sh, ok), cur + [Builds(i, ok)])
    ensures Built(sh, ok).heard == sh.heard && Built(sh, ok).told == sh.told
  {
    SaidSoFar(r, sh);
    OneMore(cur, Builds(i, ok));
    hide Fits;
  }

  lemma FinishesTells(r: nat, i: nat, sh: Shard, cur: seq<Event>, ok: bool)
    requires Fits(r, sh) && ShardTells(r, i, sh, cur) && sh.mode.InBlock?
    ensures ShardTells(r, i, Finished(sh, ok), cur + [Finishes(i, ok)])
    ensures Finished(sh, ok).heard == sh.heard && Finished(sh, ok).told == sh.told
  {
    SaidSoFar(r, sh);
    OneMore(cur, Finishes(i, ok));
    hide Fits;
    var out := sh.heard + sh.up;
    assert Finished(sh, ok).heard + Finished(sh, ok).up == out + [if ok then Done(r) else Error(r)];
  }

  lemma ShardTellsStep(s: Group, cur: seq<Event>, e: Event)
    requires Inv(s) && ShardsOwn(e) && Enabled(s, e) && ShardTells(s.request, e.i, s.shards[e.i], cur)
    ensures var sh, sh' := s.shards[e.i], Next(s, e).shards[e.i];
      ShardTells(s.request, e.i, sh', cur + [e]) && sh'.heard == sh.heard && sh'.told == sh.told
  {
    hide Fits, Deals, Backed, Flags, ShardTells, Took, Built, Finished;
    var sh := s.shards[e.i];
    match e
    case Takes(i) => TakesTells(s.request, i, sh, cur);
    case Builds(i, ok) => BuildsTells(s.request, i, sh, cur, ok);
    case Finishes(i, ok) => FinishesTells(s.request, i, sh, cur, ok);
    case Dies(i) =>
      OthersTell(s.request, i, sh, cur, e);
      DeadTells(s.request, i, sh, cur + [e]);
  }

  lemma DeadTells(r: nat, i: nat, sh: Shard, cur: seq<Event>)
    requires ShardTells(r, i, sh, cur)
    ensures ShardTells(r, i, sh.(mode := Dead, down := []), cur)
  {
  }

  predicate ShardsOwn(e: Event) {
    e.Takes? || e.Builds? || e.Finishes? || e.Dies?
  }

  /** An event of another's changes nothing a shard's record says. */
  lemma OthersTell(r: nat, i: nat, sh: Shard, cur: seq<Event>, e: Event)
    requires ShardTells(r, i, sh, cur) && e != Hears(i)
    requires forall ok :: e != Builds(i, ok) && e != Finishes(i, ok)
    ensures ShardTells(r, i, sh, cur + [e])
  {
    OneMore(cur, e);
  }

  /** A shard's event is none of those rank 0's place is told from. */
  lemma PhaseStays(s: Group, s': Group, cur: seq<Event>, e: Event)
    requires PhaseTells(s, cur) && ShardsOwn(e) && s' == s.(shards := s'.shards, faulty := s'.faulty) && |s'.shards| == |s.shards|
    requires forall i :: 0 <= i < |s.shards| ==> s'.shards[i].heard == s.shards[i].heard && s'.shards[i].told == s.shards[i].told
    ensures PhaseTells(s', cur + [e])
  {
    hide Sent, Early, Before, AllReady;
    OneMore(cur, e);
    HarmlessStays(|s.shards|, cur, e);
    assert forall i :: 0 <= i < |s.shards| ==> (HeardRaise(s', i) <==> HeardRaise(s, i)) && (NotReady(s', i, cur + [e]) <==> NotReady(s, i, cur));
    assert forall i :: 0 <= i < |s.shards| ==> (Skipped(s, i, cur) <==> Skipped(s', i, cur + [e]));
  }

  lemma WentStays(n: nat, cur: seq<Event>, e: Event)
    requires !e.Sends? && !e.Arms?
    ensures Went(n, cur) ==> Went(n, cur + [e])
    ensures Arms(true) in cur + [e] <==> Arms(true) in cur
    ensures Went(n, cur + [e]) ==> Arms(true) in cur + [e]
  {
    OneMore(cur, e);
    SentMore(cur, e);
    hide Sent;
  }

  lemma ShardEventTells(s: Group, cur: seq<Event>, e: Event)
    requires Inv(s) && Tells(s, cur) && ShardsOwn(e) && Enabled(s, e)
    ensures Tells(Next(s, e), cur + [e])
  {
    hide Fits, Deals, Backed, Flags, ShardTells, PhaseTells, Went;
    var s' := Next(s, e);
    WentStays(|s.shards|, cur, e);
    NotRefused(cur, e);
    if Open(s, cur) {
      var i := e.i;
      forall k | 0 <= k < |s.shards|
        ensures ShardTells(s.request, k, s'.shards[k], cur + [e])
        ensures s'.shards[k].heard == s.shards[k].heard && s'.shards[k].told == s.shards[k].told
      {
        if k == i {
          ShardTellsStep(s, cur, e);
        } else {
          OthersTell(s.request, k, s.shards[k], cur, e);
        }
      }
      PhaseStays(s, s', cur, e);
    }
  }

  /** Rank 0's events, but for a reply heard, leave what the shards have said alone. */
  lemma AllOthersTell(s: Group, s': Group, cur: seq<Event>, e: Event)
    requires !ShardsOwn(e) && !e.Hears? && s'.request == s.request && |s'.shards| == |s.shards|
    requires forall i :: 0 <= i < |s.shards| ==> s'.shards[i].heard == s.shards[i].heard && s'.shards[i].up == s.shards[i].up
    requires forall i :: 0 <= i < |s.shards| ==> ShardTells(s.request, i, s.shards[i], cur)
    ensures forall i :: 0 <= i < |s.shards| ==> ShardTells(s.request, i, s'.shards[i], cur + [e])
  {
    hide ShardTells;
    forall i | 0 <= i < |s.shards| ensures ShardTells(s.request, i, s'.shards[i], cur + [e]) {
      OthersTell(s.request, i, s.shards[i], cur, e);
      SameSayings(s.request, i, s.shards[i], s'.shards[i], cur + [e]);
    }
  }

  lemma SameSayings(r: nat, i: nat, sh: Shard, sh': Shard, cur: seq<Event>)
    requires ShardTells(r, i, sh, cur) && sh'.heard == sh.heard && sh'.up == sh.up
    ensures ShardTells(r, i, sh', cur)
  {
  }

  /** What is known of rank 0 and one shard. */
  lemma InvAt(s: Group, i: nat)
    requires Inv(s) && i < |s.shards|
    ensures Fits(s.request, s.shards[i]) && Deals(s, i) && Flags(s)
  {
  }

  lemma BeginTells(s: Group, cur: seq<Event>)
    requires Inv(s) && Enabled(s, Begins)
    ensures Tells(Next(s, Begins), [])
  {
    hide Inv, Healthy;
    assert Sent([]) == 0;
    forall i | 0 <= i < |s.shards| ensures s.shards[i].heard == [] && ShardTells(s.request + 1, i, s.shards[i], []) {
      InvAt(s, i);
      assert s.shards[i].heard + s.shards[i].up == [];
    }
  }

  lemma SendPreparing(s: Group, cur: seq<Event>, delivered: bool)
    requires PhaseTells(s, cur) && s.phase.Sending? && s.phase.next < |s.shards|
    ensures PhaseTells(SendsOne(s, delivered), cur + [Sends(delivered)])
  {
    OneMore(cur, Sends(delivered));
    SentMore(cur, Sends(delivered));
    hide Sent;
  }

  lemma SendGoing(s: Group, cur: seq<Event>, delivered: bool)
    requires PhaseTells(s, cur) && s.phase.Going? && s.phase.next < |s.shards|
    ensures PhaseTells(SendsOne(s, delivered), cur + [Sends(delivered)])
  {
    OneMore(cur, Sends(delivered));
    SentMore(cur, Sends(delivered));
    hide Sent;
  }

  lemma SendReleasing(s: Group, cur: seq<Event>, delivered: bool)
    requires PhaseTells(s, cur) && s.phase.Releasing? && s.phase.next < |s.shards| && Deals(s, s.phase.next)
    ensures PhaseTells(SendsOne(s, delivered), cur + [Sends(delivered)])
  {
    var s', e := SendsOne(s, delivered), Sends(delivered);
    OneMore(cur, e);
    forall i | 0 <= i < s'.phase.next && i < |s'.shards| ensures Skipped(s', i, cur + [e]) {
      if i < s.phase.next {
        assert Skipped(s, i, cur);
      }
    }
  }

  lemma SendTells(s: Group, cur: seq<Event>, delivered: bool)
    requires Inv(s) && Tells(s, cur) && Enabled(s, Sends(delivered))
    ensures Tells(Next(s, Sends(delivered)), cur + [Sends(delivered)])
  {
    var e, s' := Sends(delivered), SendsOne(s, delivered);
    InvAt(s, s.phase.next);
    hide Inv, Fits, ShardTells, PhaseTells, Deals, Went, Given, Reach;
    NotRefused(cur, e);
    StillUncommitted(|s.shards|, cur, e);
    if Open(s, cur) {
      SendsLeaveSayings(s, delivered);
      AllOthersTell(s, s', cur, e);
      match s.phase
      case Sending(_) => SendPreparing(s, cur, delivered);
      case Going(_) => SendGoing(s, cur, delivered);
      case Releasing(_) => SendReleasing(s, cur, delivered);
    }
  }

  lemma StillUncommitted(n: nat, cur: seq<Event>, e: Event)
    requires Arms(true) !in cur && e != Arms(true)
    ensures !Went(n, cur + [e]) && Arms(true) !in cur + [e]
  {
    OneMore(cur, e);
  }

  lemma SendsLeaveSayings(s: Group, delivered: bool)
    requires Enabled(s, Sends(delivered))
    ensures forall i :: 0 <= i < |s.shards| ==>
              SendsOne(s, delivered).shards[i].heard == s.shards[i].heard && SendsOne(s, delivered).shards[i].up == s.shards[i].up
  {
  }

  lemma HearShardTells(r: nat, i: nat, sh: Shard, cur: seq<Event>)
    requires ShardTells(r, i, sh, cur) && sh.up != []
    ensures ShardTells(r, i, Heard(sh), cur + [Hears(i)])
  {
    OneMore(cur, Hears(i));
    assert Heard(sh).heard + Heard(sh).up == sh.heard + sh.up;
  }

  /** Counting the reply that rank 0 has just heard. */
  lemma HearGathering(s: Group, cur: seq<Event>, i: nat)
    requires PhaseTells(s, cur) && s.phase.Gathering? && Enabled(s, Hears(i))
    ensures PhaseTells(HearStep(s, i), cur + [Hears(i)])
  {
    hide Sent, Early, Before, AllReady, NotReady;
    var s', e := HearStep(s, i), Hears(i);
    HarmlessStays(|s.shards|, cur, e);
    assert s.shards[i].heard == [] && GivesUpOn(i) !in cur;
    forall k | 0 <= k < |s.shards|
      ensures NotReady(s', k, cur + [e]) <==> if k == i then !s.shards[i].up[0].Ready? else NotReady(s, k, cur)
      ensures if k in s'.phase.waiting then s'.shards[k].heard == [] && GivesUpOn(k) !in cur + [e]
              else (s'.shards[k].heard == [] <==> GivesUpOn(k) in cur + [e])
      ensures k == i ==> !NotReady(s, k, cur)
    {
      HearOne(s, cur, i, k);
    }
    if s.phase.failed {
      var k :| 0 <= k < |s.shards| && NotReady(s, k, cur);
      assert NotReady(s', k, cur + [e]);
    }
    if !s.shards[i].up[0].Ready? {
      assert NotReady(s', i, cur + [e]);
    }
  }

  lemma HearOne(s: Group, cur: seq<Event>, i: nat, k: nat)
    requires s.phase.Gathering? && Enabled(s, Hears(i)) && k < |s.shards| && s.shards[i].heard == [] && GivesUpOn(i) !in cur
    requires if k in s.phase.waiting then s.shards[k].heard == [] && GivesUpOn(k) !in cur else (s.shards[k].heard == [] <==> GivesUpOn(k) in cur)
    ensures var s', more := HearStep(s, i), cur + [Hears(i)];
      && (NotReady(s', k, more) <==> if k == i then !s.shards[i].up[0].Ready? else NotReady(s, k, cur))
      && (if k in s'.phase.waiting then s'.shards[k].heard == [] && GivesUpOn(k) !in more
          else (s'.shards[k].heard == [] <==> GivesUpOn(k) in more))
      && (k == i ==> !NotReady(s, k, cur))
  {
    OneMore(cur, Hears(i));
  }

  lemma HearAwaiting(s: Group, cur: seq<Event>, i: nat)
    requires PhaseTells(s, cur) && s.phase.Awaiting? && Enabled(s, Hears(i))
    ensures PhaseTells(HearStep(s, i), cur + [Hears(i)])
  {
    var s' := HearStep(s, i);
    OneMore(cur, Hears(i));
    forall k | 0 <= k < |s'.shards| ensures Skipped(s', k, cur + [Hears(i)]) {
      assert Skipped(s, k, cur);
    }
  }

  lemma HearCollecting(s: Group, cur: seq<Event>, i: nat)
    requires Inv(s) && PhaseTells(s, cur) && s.phase.Collecting? && Enabled(s, Hears(i))
    ensures PhaseTells(HearStep(s, i), cur + [Hears(i)])
  {
    InvAt(s, i);
    OneHeard(s, i);
    hide Inv, Fits, Deals, Flags;
    var s', e := HearStep(s, i), Hears(i);
    OneMore(cur, e);
    assert s'.shards[i].heard == s.shards[i].heard + [s.shards[i].up[0]];
    forall k | 0 <= k < |s.shards| && k != i ensures HeardRaise(s', k) <==> HeardRaise(s, k) { }
    assert HeardRaise(s', i) <==> !s.shards[i].up[0].Done?;
    assert !HeardRaise(s, i);
    if s.phase.raised {
      var k :| 0 <= k < |s.shards| && HeardRaise(s, k);
      assert HeardRaise(s', k);
    }
  }

  lemma OneHeard(s: Group, i: nat)
    requires i < |s.shards| && s.phase.Collecting? && i in s.phase.waiting && !s.phase.lost
    requires Fits(s.request, s.shards[i]) && Deals(s, i) && s.shards[i].up != []
    ensures |s.shards[i].heard| == 1
  {
  }

  lemma HearTells(s: Group, cur: seq<Event>, i: nat)
    requires Inv(s) && Tells(s, cur) && Enabled(s, Hears(i))
    ensures Tells(Next(s, Hears(i)), cur + [Hears(i)])
  {
    hide Inv, ShardTells, PhaseTells, Went;
    var s' := HearStep(s, i);
    WentStays(|s.shards|, cur, Hears(i));
    NotRefused(cur, Hears(i));
    if Open(s, cur) {
      forall k | 0 <= k < |s.shards| ensures ShardTells(s.request, k, s'.shards[k], cur + [Hears(i)]) {
        if k == i {
          HearShardTells(s.request, i, s.shards[i], cur);
        } else {
          OthersTell(s.request, k, s.shards[k], cur, Hears(i));
        }
      }
      match s.phase
      case Gathering(_, _) => HearGathering(s, cur, i);
      case Awaiting(_, _) => HearAwaiting(s, cur, i);
      case Collecting(_, _, _) => HearCollecting(s, cur, i);
    }
  }

  /** With every answer in and none a refusal, every shard was ready. */
  lemma AllInAreReady(s: Group, cur: seq<Event>)
    requires Inv(s) && PhaseTells(s, cur) && s.phase.Gathering? && s.phase.waiting == {} && !s.phase.failed
    requires forall i :: 0 <= i < |s.shards| ==> ShardTells(s.request, i, s.shards[i], cur)
    ensures AllReady(|s.shards|, cur)
  {
    forall i | 0 <= i < |s.shards| ensures Builds(i, true) in cur && Hears(i) in cur {
      InvAt(s, i);
      assert !NotReady(s, i, cur);
      var sh := s.shards[i];
      assert sh.heard != [] && (sh.heard + sh.up)[0] == sh.heard[0];
    }
    hide Inv;
  }

  lemma LoopTells(s: Group, cur: seq<Event>)
    requires Inv(s) && |s.shards| > 0 && Tells(s, cur) && Enabled(s, Gathered)
    ensures Tells(Next(s, Gathered), cur + [Gathered])
  {
    InvAt(s, 0);
    hide Inv, ShardTells, PhaseTells, Went, Fits, Deals, LoopEnds;
    var e := Gathered;
    WentStays(|s.shards|, cur, e);
    NotRefused(cur, e);
    LoopLeaves(s);
    if Open(s, cur) {
      AllOthersTell(s, LoopEnds(s), cur, e);
      match s.phase
      case Sending(_) => LoopPreparing(s, cur);
      case Gathering(_, _) => LoopGathering(s, cur);
      case Going(_) => LoopGoing(s, cur);
      case Releasing(_) => LoopReleasing(s, cur);
      case Awaiting(_, _) => LoopAwaiting(s, cur);
    }
  }

  lemma LoopLeaves(s: Group)
    ensures var s' := LoopEnds(s);
      s'.shards == s.shards && s'.committed == s.committed && s'.request == s.request && s'.present == s.present
  {
    hide UpTo;
    match s.phase
    case Sending(_) =>
    case Gathering(_, _) =>
    case Going(_) =>
    case Releasing(_) =>
    case Awaiting(_, _) =>
    case _ =>
  }

  lemma LoopPreparing(s: Group, cur: seq<Event>)
    requires PhaseTells(s, cur) && s.phase == Sending(|s.shards|)
    ensures PhaseTells(LoopEnds(s), cur + [Gathered])
  {
    hide Sent, Early, Before, AllReady;
    OneMore(cur, Gathered);
    HarmlessStays(|s.shards|, cur, Gathered);
    assert forall i :: 0 <= i < |s.shards| ==> !NotReady(LoopEnds(s), i, cur + [Gathered]);
  }

  lemma LoopGathering(s: Group, cur: seq<Event>)
    requires Inv(s) && PhaseTells(s, cur) && s.phase.Gathering? && s.phase.waiting == {}
    requires forall i :: 0 <= i < |s.shards| ==> ShardTells(s.request, i, s.shards[i], cur)
    ensures PhaseTells(LoopEnds(s), cur + [Gathered])
  {
    hide Inv, Sent, ShardTells, Early, Before, AllReady;
    OneMore(cur, Gathered);
    HarmlessStays(|s.shards|, cur, Gathered);
    if !s.phase.failed {
      AllInAreReady(s, cur);
    }
  }

  lemma LoopGoing(s: Group, cur: seq<Event>)
    requires PhaseTells(s, cur) && s.phase == Going(|s.shards|)
    ensures PhaseTells(LoopEnds(s), cur + [Gathered])
  {
    OneMore(cur, Gathered);
    SentMore(cur, Gathered);
    hide Sent;
  }

  lemma SkippedStill(s: Group, s': Group, n: nat, cur: seq<Event>, e: Event)
    requires AllSkipped(s, n, cur) && s'.shards == s.shards
    ensures AllSkipped(s', n, cur + [e])
  {
    OneMore(cur, e);
    forall i | 0 <= i < n && i < |s'.shards| ensures Skipped(s', i, cur + [e]) {
      assert Skipped(s, i, cur);
    }
  }

  lemma LoopReleasing(s: Group, cur: seq<Event>)
    requires PhaseTells(s, cur) && s.phase == Releasing(|s.shards|)
    ensures PhaseTells(LoopEnds(s), cur + [Gathered])
  {
    SkippedStill(s, LoopEnds(s), |s.shards|, cur, Gathered);
    hide AllSkipped;
  }

  lemma LoopAwaiting(s: Group, cur: seq<Event>)
    requires PhaseTells(s, cur) && s.phase.Awaiting? && Flags(s)
    ensures PhaseTells(LoopEnds(s), cur + [Gathered])
  {
    SkippedStill(s, LoopEnds(s), |s.shards|, cur, Gathered);
    hide AllSkipped;
  }

  predicate Decisive(e: Event) {
    e.Abandons? || e.GivesUpOn? || e.GivesUp? || e.BuildsOwn? || e.Arms? || e.Leaves?
  }

  lemma GivesUpOnPhase(s: Group, cur: seq<Event>, i: nat)
    requires PhaseTells(s, cur) && Enabled(s, GivesUpOn(i)) && i < |s.shards|
    ensures PhaseTells(Next(s, GivesUpOn(i)), cur + [GivesUpOn(i)])
  {
    hide Sent, Early, Before, AllReady;
    OneMore(cur, GivesUpOn(i));
    HarmlessStays(|s.shards|, cur, GivesUpOn(i));
    assert NotReady(Next(s, GivesUpOn(i)), i, cur + [GivesUpOn(i)]);
  }

  lemma GivesUpPhase(s: Group, cur: seq<Event>)
    requires PhaseTells(s, cur) && Enabled(s, GivesUp)
    ensures PhaseTells(Next(s, GivesUp), cur + [GivesUp])
  {
    var s' := Next(s, GivesUp);
    OneMore(cur, GivesUp);
    if s.phase.Awaiting? {
      SkippedStill(s, s', |s.shards|, cur, GivesUp);
    } else {
      assert forall i :: 0 <= i < |s.shards| ==> (HeardRaise(s, i) <==> HeardRaise(s', i));
    }
    hide AllSkipped;
  }

  lemma OwnBuildPhase(s: Group, cur: seq<Event>, ok: bool)
    requires PhaseTells(s, cur) && s.phase.OwnBuild?
    ensures PhaseTells(Next(s, BuildsOwn(ok)), cur + [BuildsOwn(ok)])
  {
    OneMore(cur, BuildsOwn(ok));
    SentMore(cur, BuildsOwn(ok));
    hide Sent;
  }

  lemma LeavesPhase(s: Group, cur: seq<Event>, ok: bool)
    requires PhaseTells(s, cur) && s.phase.InForward? && s.committed && !s.raisedHere
    ensures PhaseTells(Next(s, Leaves(ok)), cur + [Leaves(ok)])
  {
    OneMore(cur, Leaves(ok));
  }

  lemma ArmsPhase(s: Group, cur: seq<Event>, ok: bool)
    requires PhaseTells(s, cur) && s.phase.Arming?
    ensures PhaseTells(Next(s, Arms(ok)), cur + [Arms(ok)])
  {
    hide Sent, AllReady;
    OneMore(cur, Arms(ok));
  }

  lemma DecisivePhase(s: Group, cur: seq<Event>, e: Event)
    requires Flags(s) && PhaseTells(s, cur) && Decisive(e) && Enabled(s, e)
    ensures PhaseTells(Next(s, e), cur + [e])
  {
    hide PhaseTells;
    match e
    case GivesUpOn(i) =>
      assert i in Waiting(s.phase);
      GivesUpOnPhase(s, cur, i);
    case GivesUp => GivesUpPhase(s, cur);
    case BuildsOwn(ok) => OwnBuildPhase(s, cur, ok);
    case Arms(ok) => ArmsPhase(s, cur, ok);
    case Leaves(ok) => LeavesPhase(s, cur, ok);
    case Abandons => AbandonPhase(s, cur);
  }

  /** Such an event changes where rank 0 is, and nothing of the shards. */
  lemma DecisiveSame(s: Group, e: Event)
    requires Flags(s) && Decisive(e) && Enabled(s, e)
    ensures var s' := Next(s, e);
      && s'.shards == s.shards && s'.request == s.request && s'.present == s.present
      && (s'.committed <==> s.committed || e == Arms(true)) && (e.Arms? ==> s.phase.Arming?)
      && (s.phase.Resting? || s.phase.Returned? || s.phase.Collecting? ==> s'.phase.Collecting?)
      && !s.phase.Resting? && !s'.phase.Resting?
  {
    match e
    case GivesUpOn(_) =>
    case GivesUp =>
    case BuildsOwn(_) =>
    case Arms(_) =>
    case Leaves(_) =>
    case Abandons =>
  }

  lemma DecisiveTells(s: Group, cur: seq<Event>, e: Event)
    requires Inv(s) && Tells(s, cur) && Decisive(e) && Enabled(s, e)
    ensures Tells(Next(s, e), cur + [e])
  {
    Present(s);
    HasShards(s);
    InvAt(s, 0);
    hide Inv, ShardTells, PhaseTells, Went, Fits, Deals, Next, Enabled, Flags;
    NotRefused(cur, e);
    DecisiveSame(s, e);
    if Open(s, cur) {
      AllOthersTell(s, Next(s, e), cur, e);
      DecisivePhase(s, cur, e);
    }
    if e == Arms(true) {
      ArmsCommit(s, cur);
    } else {
      NotArming(|s.shards|, s.committed, cur, e);
    }
  }

  lemma AbandonPhase(s: Group, cur: seq<Event>)
    requires Enabled(s, Abandons)
    ensures PhaseTells(Next(s, Abandons), cur + [Abandons])
  {
  }

  lemma ArmsCommit(s: Group, cur: seq<Event>)
    requires s.phase.Arming? && (Open(s, cur) ==> PhaseTells(s, cur))
    requires s.present && Refuses !in cur
    ensures Went(|s.shards|, cur + [Arms(true)])
  {
    OneMore(cur, Arms(true));
    SentMore(cur, Arms(true));
    hide Sent;
  }

  lemma NotArming(n: nat, committed: bool, cur: seq<Event>, e: Event)
    requires !e.Sends? && e != Arms(true) && (committed <==> Went(n, cur)) && (committed <==> Arms(true) in cur)
    ensures (committed <==> Went(n, cur + [e])) && (committed <==> Arms(true) in cur + [e])
  {
    OneMore(cur, e);
    SentMore(cur, e);
    hide Sent;
  }

  lemma RefuseTells(s: Group, cur: seq<Event>)
    requires Tells(s, cur) && Enabled(s, Refuses)
    ensures Tells(Next(s, Refuses), cur + [Refuses])
  {
    hide PhaseTells, ShardTells, Went;
    OneMore(cur, Refuses);
    NotArming(|s.shards|, s.committed, cur, Refuses);
  }

  lemma CollectingTells(s: Group, cur: seq<Event>)
    requires Inv(s) && PhaseTells(s, cur) && s.phase.Returned? && s.committed && Open(s, cur)
    ensures PhaseTells(SettleOne(s), cur + [Settles])
  {
    var s' := SettleOne(s);
    OneMore(cur, Settles);
    forall i | 0 <= i < |s.shards| ensures !HeardRaise(s', i) {
      InvAt(s, i);
    }
    hide Inv;
  }

  lemma SettleTells(s: Group, cur: seq<Event>)
    requires Inv(s) && Tells(s, cur) && Enabled(s, Settles)
    ensures Tells(Next(s, Settles), cur + [Settles])
  {
    hide Inv, PhaseTells, ShardTells, Went, Settled;
    assert s.present by { Present(s); }
    NotRefused(cur, Settles);
    NotArming(|s.shards|, s.committed, cur, Settles);
    if Open(s, cur) && s.phase.Returned? && s.committed {
      CollectingTells(s, cur);
      AllOthersTell(s, SettleOne(s), cur, Settles);
    }
  }

  lemma Present(s: Group)
    requires Inv(s)
    ensures s.present
  {
  }

  lemma GoneTells(s: Group, cur: seq<Event>, e: Event)
    requires Gone(s) && Tells(s, cur) && Enabled(s, e)
    ensures Tells(Next(s, e), cur + [e]) && !e.Begins?
  {
    OneMore(cur, e);
    NotArming(|s.shards|, s.committed, cur, e);
    hide PhaseTells, ShardTells, Went;
  }

  lemma PoisonTells(s: Group, cur: seq<Event>)
    requires Tells(s, cur) && Enabled(s, Poisoned)
    ensures Tells(Next(s, Poisoned), cur + [Poisoned])
  {
    hide PhaseTells, ShardTells, Went;
    NotRefused(cur, Poisoned);
    NotArming(|s.shards|, s.committed, cur, Poisoned);
  }

  lemma StepTells(s: Group, cur: seq<Event>, e: Event)
    requires GroupInv(s) && Tells(s, cur) && Enabled(s, e)
    ensures Tells(Next(s, e), if e.Begins? then [] else cur + [e])
  {
    hide Inv, Gone, Tells, Next, Enabled;
    if Gone(s) {
      GoneTells(s, cur, e);
    } else {
      match e
      case Begins => BeginTells(s, cur);
      case Refuses => RefuseTells(s, cur);
      case Sends(delivered) => SendTells(s, cur, delivered);
      case Hears(i) => HearTells(s, cur, i);
      case Gathered =>
        HasShards(s);
        LoopTells(s, cur);
      case Settles => SettleTells(s, cur);
      case Poisoned => PoisonTells(s, cur);
      case _ =>
        if ShardsOwn(e) {
          ShardEventTells(s, cur, e);
        } else {
          DecisiveTells(s, cur, e);
        }
    }
  }

  lemma {:induction false} RunTells(shards: nat, events: seq<Event>)
    requires shards > 0 && IsRun(shards, events)
    ensures Tells(After(shards, events), Current(events)) && |After(shards, events).shards| == shards
  {
    if events != [] {
      hide Tells, Next, Enabled, GroupInv;
      var last := |events| - 1;
      RunTells(shards, events[..last]);
      RunKeeps(shards, events[..last]);
      StepTells(After(shards, events[..last]), Current(events[..last]), events[last]);
      SameShards(After(shards, events[..last]), events[last]);
    }
  }

  lemma SameShards(s: Group, e: Event)
    requires Enabled(s, e)
    ensures |Next(s, e).shards| == |s.shards| && (Next(s, e).faulty <==> s.faulty || Breaks(e))
  {
    hide Took, Built, Finished, Given, Heard, Rested, HearsOne, UpTo, Settled, Healthy, Reach, LoopEnds, SendsOne, SettleOne;
    match e
    case Sends(delivered) => SendsSame(s, delivered);
    case Gathered => LoopSame(s);
    case Settles => SettlesSame(s);
    case _ =>
  }

  lemma SendsSame(s: Group, delivered: bool)
    requires Enabled(s, Sends(delivered))
    ensures |SendsOne(s, delivered).shards| == |s.shards| && (SendsOne(s, delivered).faulty <==> s.faulty || !delivered)
  {
  }

  lemma LoopSame(s: Group)
    ensures |LoopEnds(s).shards| == |s.shards| && LoopEnds(s).faulty == s.faulty
  {
    hide UpTo;
  }

  lemma SettlesSame(s: Group)
    ensures |SettleOne(s).shards| == |s.shards| && SettleOne(s).faulty == s.faulty
  {
    hide UpTo, Settled;
  }

  /** Something broke: a reply or a send was lost, a shard died, arming failed, or rank
      0's own device did. */
  predicate Breaks(e: Event) {
    e.Dies? || e == Sends(false) || e.GivesUpOn? || e.GivesUp? || e == Arms(false) || e.Poisoned?
  }

  // ------------------------------------------------------------ what the events decide

  /** In every run a request has committed, GO having reached every shard, if and only
      if every shard built the block and was heard from, rank 0 built it too, every
      order to prepare and every GO was delivered, and arming went through. */
  lemma CommitsIff(shards: nat, events: seq<Event>)
    requires shards > 0 && IsRun(shards, events)
    ensures After(shards, events).committed <==> Went(shards, Current(events))
  {
    hide IsRun, After, Current, Went, PhaseTells, ShardTells;
    RunTells(shards, events);
  }

  /** What is left to do for a commit once every answer is in. */
  function Rest(shards: nat): seq<Event> {
    [Gathered, BuildsOwn(true)] + seq(shards, _ => Sends(true)) + [Gathered, Arms(true)]
  }

  lemma {:induction false} SendsAll(shards: nat, events: seq<Event>, k: nat)
    requires shards > 0 && IsRun(shards, events) && k <= shards && |After(shards, events).shards| == shards
    requires After(shards, events).phase == Going(0)
    ensures IsRun(shards, events + seq(k, _ => Sends(true))) && After(shards, events + seq(k, _ => Sends(true))).phase == Going(k)
    ensures |After(shards, events + seq(k, _ => Sends(true))).shards| == shards
    decreases k
  {
    hide IsRun, After;
    if k == 0 {
      assert events + seq(0, _ => Sends(true)) == events;
    } else {
      SendsAll(shards, events, k - 1);
      var run := events + seq(k - 1, _ => Sends(true));
      RunGrows(shards, run, Sends(true));
      assert run + [Sends(true)] == events + seq(k, _ => Sends(true));
    }
  }

  lemma {:induction false} CurrentGrows(events: seq<Event>, more: seq<Event>)
    requires forall e :: e in more ==> !e.Begins?
    ensures Current(events + more) == Current(events) + more
    decreases |more|
  {
    if more == [] {
      assert events + more == events && Current(events) + more == Current(events);
    } else {
      var last := |more| - 1;
      assert (events + more)[..|events + more| - 1] == events + more[..last] && (events + more)[|events + more| - 1] == more[last];
      assert forall e :: e in more[..last] ==> e in more;
      assert more[last] in more;
      CurrentGrows(events, more[..last]);
      assert Current(events) + more[..last] + [more[last]] == Current(events) + more;
    }
  }

  /** Once every answer is in, the request goes ahead if and only if every shard built
      the block and was heard from: then rank 0 goes on to its own build, and if that,
      the sending of GO and the arming go well every shard has been told to go and the
      request has committed; otherwise it is stood down at once. */
  lemma GoesAheadIff(shards: nat, events: seq<Event>)
    requires shards > 0 && IsRun(shards, events)
    requires var s := After(shards, events); s.present && s.phase.Gathering? && s.phase.waiting == {}
    ensures IsRun(shards, events + [Gathered])
    ensures After(shards, events + [Gathered]).phase == if AllReady(shards, Current(events)) then OwnBuild else Releasing(0)
    ensures AllReady(shards, Current(events)) <==>
            IsRun(shards, events + Rest(shards)) && After(shards, events + Rest(shards)).committed
    ensures AllReady(shards, Current(events)) ==>
            forall i :: 0 <= i < |After(shards, events + Rest(shards)).shards| ==> After(shards, events + Rest(shards)).shards[i].told == PG
  {
    hide IsRun, After, Current, AllReady;
    var s := After(shards, events);
    RunTells(shards, events);
    RunKeeps(shards, events);
    RunGrows(shards, events, Gathered);
    AheadOrNot(s, Current(events));
    if AllReady(shards, Current(events)) {
      GoesAhead(shards, events);
    } else if IsRun(shards, events + Rest(shards)) && After(shards, events + Rest(shards)).committed {
      OnlyIfReady(shards, events);
      assert false;
    }
  }

  lemma AheadOrNot(s: Group, cur: seq<Event>)
    requires GroupInv(s) && Tells(s, cur) && s.present && s.phase.Gathering? && s.phase.waiting == {}
    ensures LoopEnds(s).phase == if AllReady(|s.shards|, cur) then OwnBuild else Releasing(0)
  {
    assert Open(s, cur) && PhaseTells(s, cur);
    if !s.phase.failed {
      AllInAreReady(s, cur);
    } else {
      var i :| 0 <= i < |s.shards| && NotReady(s, i, cur);
      InvAt(s, i);
      var sh := s.shards[i];
      assert sh.heard != [] ==> (sh.heard + sh.up)[0] == sh.heard[0];
      assert ShardTells(s.request, i, sh, cur);
      assert !(Builds(i, true) in cur && Hears(i) in cur);
    }
    hide Inv, Gone;
  }

  lemma GoesAhead(shards: nat, events: seq<Event>)
    requires shards > 0 && IsRun(shards, events) && |After(shards, events).shards| == shards
    requires Enabled(After(shards, events), Gathered) && LoopEnds(After(shards, events)).phase == OwnBuild
    ensures IsRun(shards, events + Rest(shards)) && After(shards, events + Rest(shards)).committed
    ensures forall i :: 0 <= i < |After(shards, events + Rest(shards)).shards| ==> After(shards, events + Rest(shards)).shards[i].told == PG
  {
    hide IsRun, After;
    var run := events + [Gathered];
    RunGrows(shards, events, Gathered);
    LoopLeaves(After(shards, events));
    RunGrows(shards, run, BuildsOwn(true));
    SendsAll(shards, run + [BuildsOwn(true)], shards);
    var sent := run + [BuildsOwn(true)] + seq(shards, _ => Sends(true));
    RunGrows(shards, sent, Gathered);
    RunGrows(shards, sent + [Gathered], Arms(true));
    assert sent + [Gathered] + [Arms(true)] == events + Rest(shards);
    RunKeeps(shards, events + Rest(shards));
    AllGo(After(shards, events + Rest(shards)));
  }

  lemma AllGo(s: Group)
    requires GroupInv(s) && s.phase.InForward?
    ensures forall i :: 0 <= i < |s.shards| ==> s.shards[i].told == PG
  {
    forall i | 0 <= i < |s.shards| ensures s.shards[i].told == PG {
      InvAt(s, i);
    }
    hide Inv, Gone;
  }

  lemma OnlyIfReady(shards: nat, events: seq<Event>)
    requires shards > 0 && IsRun(shards, events + Rest(shards)) && After(shards, events + Rest(shards)).committed
    ensures AllReady(shards, Current(events))
  {
    hide IsRun, After, Current;
    var more := Rest(shards);
    assert forall e :: e in more ==> e == Gathered || e.BuildsOwn? || e.Sends? || e.Arms?;
    CurrentGrows(events, more);
    CommitsIff(shards, events + more);
    forall i | 0 <= i < shards ensures Builds(i, true) in Current(events) && Hears(i) in Current(events) {
      assert Builds(i, true) in Current(events) + more && Hears(i) in Current(events) + more;
    }
  }

  /** A request that comes back without having committed has told every shard to skip
      it, unless some send failed. */
  lemma OtherwiseStoodDown(shards: nat, events: seq<Event>, i: nat)
    requires shards > 0 && IsRun(shards, events) && i < shards && Refuses !in Current(events)
    requires var s := After(shards, events); s.present && s.phase.Returned? && !s.committed
    ensures i < |After(shards, events).shards|
    ensures After(shards, events).shards[i].told in {S, PS, PGS} || Sends(false) in Current(events)
  {
    hide IsRun, After, Current, ShardTells, Went;
    RunTells(shards, events);
    assert Skipped(After(shards, events), i, Current(events));
  }

  /** After a commit, with every answer in or given up on, the group is kept if and only
      if no answer was given up on, no shard is dead, and not: rank 0 came out of the
      block fine while some shard raised in it. */
  lemma KeptIff(shards: nat, events: seq<Event>)
    requires shards > 0 && IsRun(shards, events) && Refuses !in Current(events)
    requires var s := After(shards, events); s.present && s.phase.Collecting? && s.phase.waiting == {}
    ensures var s, cur := After(shards, events), Current(events);
      Enabled(s, Settles) &&
      (Next(s, Settles).present <==>
         && GivesUp !in cur && Healthy(s)
         && !(Leaves(true) in cur && exists i :: 0 <= i < shards && Finishes(i, false) in cur))
  {
    hide IsRun, After, Current;
    RunTells(shards, events);
    RunKeeps(shards, events);
    KeptHere(After(shards, events), Current(events));
  }

  lemma KeptHere(s: Group, cur: seq<Event>)
    requires GroupInv(s) && Tells(s, cur) && Open(s, cur) && s.phase.Collecting? && s.phase.waiting == {}
    ensures SettleOne(s).present <==>
            GivesUp !in cur && Healthy(s) && !(Leaves(true) in cur && exists i :: 0 <= i < |s.shards| && Finishes(i, false) in cur)
  {
    if GivesUp !in cur {
      forall i | 0 <= i < |s.shards| ensures HeardRaise(s, i) <==> Finishes(i, false) in cur {
        RaisedMeans(s, cur, i);
      }
    }
    hide Inv, Gone, ShardTells, HeardRaise, Healthy;
  }

  lemma RaisedMeans(s: Group, cur: seq<Event>, i: nat)
    requires GroupInv(s) && Tells(s, cur) && Open(s, cur) && s.phase.Collecting? && s.phase.waiting == {} && !s.phase.lost
    requires i < |s.shards|
    ensures HeardRaise(s, i) <==> Finishes(i, false) in cur
  {
    InvAt(s, i);
    hide Inv, Gone, PhaseTells;
    var sh := s.shards[i];
    assert sh.told == PG && |sh.heard| == 2;
    assert (sh.heard + sh.up)[1] == sh.heard[1];
  }

  predicate Broke(events: seq<Event>) {
    exists e :: e in events && Breaks(e)
  }

  lemma {:induction false} FaultsAreEvents(shards: nat, events: seq<Event>)
    requires IsRun(shards, events)
    ensures After(shards, events).faulty <==> Broke(events)
  {
    if events != [] {
      hide Next, Enabled, Breaks;
      var last := |events| - 1;
      FaultsAreEvents(shards, events[..last]);
      SameShards(After(shards, events[..last]), events[last]);
      OneMore(events[..last], events[last]);
      assert events == events[..last] + [events[last]];
      if Broke(events[..last]) {
        var e :| e in events[..last] && Breaks(e);
        assert e in events;
      }
    }
  }

  /** The group was given up because rank 0 came out fine where a shard raised. */
  predicate Parted(shards: nat, cur: seq<Event>) {
    Leaves(true) in cur && exists i :: 0 <= i < shards && Finishes(i, false) in cur
  }

  lemma PartedStays(shards: nat, cur: seq<Event>, e: Event)
    requires Parted(shards, cur)
    ensures Parted(shards, cur + [e])
  {
    OneMore(cur, e);
    var i :| 0 <= i < shards && Finishes(i, false) in cur;
    assert Finishes(i, false) in cur + [e];
  }

  /** A raise rank 0 has heard of is one a shard finished with. */
  lemma RaiseIsReal(s: Group, cur: seq<Event>, i: nat)
    requires Inv(s) && i < |s.shards| && ShardTells(s.request, i, s.shards[i], cur) && s.phase.Collecting? && !s.phase.lost
    requires HeardRaise(s, i)
    ensures Finishes(i, false) in cur
  {
    InvAt(s, i);
    hide Inv;
    var sh := s.shards[i];
    assert sh.told == PG && (sh.heard + sh.up)[1] == sh.heard[1];
  }

  /** So long as a refused request is being settled, nobody has been told anything and
      rank 0 has heard of no raise. */
  predicate Silent(s: Group, cur: seq<Event>) {
    s.present && Refuses in cur ==>
      && (s.phase.Collecting? ==> !s.phase.raised)
      && forall i :: 0 <= i < |s.shards| ==> s.shards[i].told == Nothing
  }

  predicate Diverges(s: Group, cur: seq<Event>) {
    Silent(s, cur) && (s.diverged ==> !s.present && Parted(|s.shards|, cur))
  }

  lemma SilentOnRefusal(s: Group)
    requires Inv(s) && s.phase.Resting?
    ensures forall i :: 0 <= i < |s.shards| ==> s.shards[i].told == Nothing
  {
    forall i | 0 <= i < |s.shards| ensures s.shards[i].told == Nothing {
      InvAt(s, i);
    }
    hide Inv;
  }

  /** A shard that was told nothing has nothing to say. */
  lemma NothingSaid(s: Group, i: nat)
    requires Inv(s) && i < |s.shards| && s.shards[i].told == Nothing
    ensures s.shards[i].up == []
  {
    InvAt(s, i);
    assert s.shards[i].heard + s.shards[i].up == [];
  }

  lemma ShardKeepsTold(s: Group, e: Event)
    requires ShardsOwn(e) && Enabled(s, e)
    ensures Next(s, e).phase == s.phase && |Next(s, e).shards| == |s.shards| && Next(s, e).diverged == s.diverged
    ensures Next(s, e).present == s.present
    ensures forall i :: 0 <= i < |s.shards| ==> Next(s, e).shards[i].told == s.shards[i].told
  {
    hide Took, Built, Finished;
    match e
    case Takes(i) => SameTold(s.shards[i]);
    case Builds(i, ok) => SameTold(s.shards[i]);
    case Finishes(i, ok) => SameTold(s.shards[i]);
    case Dies(_) =>
  }

  lemma SameTold(sh: Shard)
    ensures sh.down != [] && (sh.mode.AtIdle? || sh.mode.Prepared?) ==> Took(sh).told == sh.told
    ensures sh.mode.Building? ==> Built(sh, true).told == sh.told && Built(sh, false).told == sh.told
    ensures sh.mode.InBlock? ==> Finished(sh, true).told == sh.told && Finished(sh, false).told == sh.told
  {
  }

  lemma SettleSilent(s: Group, cur: seq<Event>)
    requires Inv(s) && Tells(s, cur) && Diverges(s, cur) && Enabled(s, Settles)
    ensures Diverges(SettleOne(s), cur + [Settles])
  {
    Present(s);
    OneMore(cur, Settles);
    var s' := SettleOne(s);
    if s'.diverged {
      assert s.phase.Collecting? && s.phase.raised && !s.phase.lost && Refuses !in cur;
      RaisesHeard(s, cur);
      PartedStays(|s.shards|, cur, Settles);
    }
    hide Inv, Tells, Parted, Settled, UpTo;
  }

  lemma RaisesHeard(s: Group, cur: seq<Event>)
    requires Inv(s) && Tells(s, cur) && s.phase.Collecting? && s.phase.raised && !s.raisedHere && !s.phase.lost && Refuses !in cur
    ensures Parted(|s.shards|, cur)
  {
    Present(s);
    assert Open(s, cur) && PhaseTells(s, cur);
    var i :| 0 <= i < |s.shards| && HeardRaise(s, i);
    RaiseIsReal(s, cur, i);
    hide Inv, ShardTells;
  }

  lemma DivergesStep(s: Group, cur: seq<Event>, e: Event)
    requires GroupInv(s) && Tells(s, cur) && Diverges(s, cur) && Enabled(s, e)
    ensures Diverges(Next(s, e), if e.Begins? then [] else cur + [e])
  {
    if Gone(s) {
      GoneDiverges(s, cur, e);
    } else if ShardsOwn(e) {
      ShardDiverges(s, cur, e);
    } else {
      match e
      case Settles => SettleSilent(s, cur);
      case Hears(i) => HearDiverges(s, cur, i);
      case Refuses => RefuseDiverges(s, cur);
      case _ => RestDiverges(s, cur, e);
    }
    hide Inv, Gone, Tells, Diverges, Next, Enabled;
  }

  lemma GoneDiverges(s: Group, cur: seq<Event>, e: Event)
    requires Gone(s) && Diverges(s, cur) && Enabled(s, e)
    ensures Diverges(Next(s, e), if e.Begins? then [] else cur + [e])
  {
    GoneStays(s, e);
    assert !e.Begins?;
    if s.diverged {
      PartedStays(|s.shards|, cur, e);
    }
    hide Next, Enabled, Parted;
  }

  lemma ShardDiverges(s: Group, cur: seq<Event>, e: Event)
    requires Inv(s) && Diverges(s, cur) && ShardsOwn(e) && Enabled(s, e)
    ensures Diverges(Next(s, e), cur + [e])
  {
    Present(s);
    ShardKeepsTold(s, e);
    OneMore(cur, e);
    hide Inv, Next, Enabled, Parted;
  }

  lemma HearDiverges(s: Group, cur: seq<Event>, i: nat)
    requires Inv(s) && Diverges(s, cur) && Enabled(s, Hears(i))
    ensures Diverges(Next(s, Hears(i)), cur + [Hears(i)])
  {
    Present(s);
    OneMore(cur, Hears(i));
    if s.shards[i].told == Nothing {
      NothingSaid(s, i);
    }
    hide Inv, Parted;
  }

  lemma RefuseDiverges(s: Group, cur: seq<Event>)
    requires Inv(s) && Diverges(s, cur) && Enabled(s, Refuses)
    ensures Diverges(Next(s, Refuses), cur + [Refuses])
  {
    Present(s);
    SilentOnRefusal(s);
    hide Inv, Parted, Healthy;
  }

  lemma RestDiverges(s: Group, cur: seq<Event>, e: Event)
    requires Inv(s) && Tells(s, cur) && Diverges(s, cur) && Enabled(s, e)
    requires !ShardsOwn(e) && !e.Settles? && !e.Hears? && !e.Refuses?
    ensures Diverges(Next(s, e), if e.Begins? then [] else cur + [e])
  {
    Present(s);
    OneMore(cur, e);
    hide Inv, Parted, PhaseTells, ShardTells, Went, Healthy, UpTo, Given;
  }

  lemma {:induction false} RunDiverges(shards: nat, events: seq<Event>)
    requires shards > 0 && IsRun(shards, events)
    ensures Diverges(After(shards, events), Current(events))
  {
    if events != [] {
      hide Diverges, Tells, Next, Enabled, GroupInv;
      var last := |events| - 1;
      RunDiverges(shards, events[..last]);
      RunTells(shards, events[..last]);
      RunKeeps(shards, events[..last]);
      DivergesStep(After(shards, events[..last]), Current(events[..last]), events[last]);
    }
  }

  /** A replica is only ever given up for a cause that is in the run: something broke, or
      in its last request rank 0 came out of the block fine while a shard raised in it.
      A build refused on any rank, a request abandoned before its first order, or a
      block that raises on every rank, never costs the group. */
  lemma RestartHasACause(shards: nat, events: seq<Event>)
    requires shards > 0 && IsRun(shards, events) && !After(shards, events).present
    ensures Broke(events) || Parted(shards, Current(events))
  {
    hide After, IsRun, Current, Broke, Parted;
    GivenUpForAReason(shards, events);
    FaultsAreEvents(shards, events);
    RunDiverges(shards, events);
    RunTells(shards, events);
  }

  // ---------------------------------------------------- a healthy group can commit

  /** What one shard and rank 0 do for it when all goes well. */
  function OneBuilds(i: nat): seq<Event> {
    [Takes(i), Builds(i, true), Hears(i)]
  }

  /** The shards from `i` on have the order to prepare and nothing else. */
  predicate Waits(s: Group, i: nat) {
    forall j :: i <= j < |s.shards| ==>
      s.shards[j].mode == AtIdle && s.shards[j].down == [Prepare(s.request)] && s.shards[j].up == []
  }

  predicate Blank(sh: Shard) {
    sh.mode == AtIdle && sh.down == [] && sh.up == []
  }

  predicate Ordered(s: Group, j: nat) {
    && s.present && s.phase == Sending(j) && j <= |s.shards|
    && forall k :: 0 <= k < |s.shards| ==>
         if k < j then s.shards[k].mode == AtIdle && s.shards[k].down == [Prepare(s.request)] && s.shards[k].up == []
         else Blank(s.shards[k])
  }

  lemma OrdersOne(s: Group, j: nat)
    requires Ordered(s, j) && j < |s.shards|
    ensures Enabled(s, Sends(true)) && Ordered(Next(s, Sends(true)), j + 1) && |Next(s, Sends(true)).shards| == |s.shards|
  {
  }

  lemma {:induction false} OrdersAll(shards: nat, events: seq<Event>, k: nat)
    requires IsRun(shards, events) && k <= shards && |After(shards, events).shards| == shards && Ordered(After(shards, events), 0)
    ensures IsRun(shards, events + seq(k, _ => Sends(true)))
    ensures var s := After(shards, events + seq(k, _ => Sends(true))); Ordered(s, k) && |s.shards| == shards
    decreases k
  {
    hide IsRun, After, Next, Enabled, Ordered;
    if k == 0 {
      assert events + seq(0, _ => Sends(true)) == events;
    } else {
      OrdersAll(shards, events, k - 1);
      var run := events + seq(k - 1, _ => Sends(true));
      OrdersOne(After(shards, run), k - 1);
      RunGrows(shards, run, Sends(true));
      assert run + [Sends(true)] == events + seq(k, _ => Sends(true));
    }
  }

  /** Shards below `i` have answered READY, the rest are still to build. */
  ghost predicate Answered(s: Group, i: nat) {
    && s.present && s.phase.Gathering? && !s.phase.failed && i <= |s.shards| && Waits(s, i)
    && forall k :: k in s.phase.waiting <==> i <= k < |s.shards|
  }

  lemma BuildsOne(s: Group, i: nat)
    requires Answered(s, i) && i < |s.shards|
    ensures Enabled(s, Takes(i)) && Enabled(Next(s, Takes(i)), Builds(i, true))
    ensures Enabled(Next(Next(s, Takes(i)), Builds(i, true)), Hears(i))
    ensures var s' := Next(Next(Next(s, Takes(i)), Builds(i, true)), Hears(i)); Answered(s', i + 1) && |s'.shards| == |s.shards|
  {
    var s1 := Next(s, Takes(i));
    assert s1.shards[i].mode == Building(s.request) && s1.shards[i].up == [];
    var s2 := Next(s1, Builds(i, true));
    assert s2.shards[i].up == [Ready(s.request)];
    var s3 := Next(s2, Hears(i));
    assert s3.phase == Gathering(s.phase.waiting - {i}, false);
  }

  lemma {:induction false} BuildsAll(shards: nat, events: seq<Event>, k: nat) returns (more: seq<Event>)
    requires IsRun(shards, events) && k <= shards && |After(shards, events).shards| == shards && Answered(After(shards, events), 0)
    ensures IsRun(shards, events + more) && Answered(After(shards, events + more), k) && |After(shards, events + more).shards| == shards
    decreases k
  {
    hide IsRun, After, Next, Enabled, Answered;
    if k == 0 {
      more := [];
      assert events + more == events;
    } else {
      var before := BuildsAll(shards, events, k - 1);
      var run, i := events + before, k - 1;
      BuildsOne(After(shards, run), i);
      RunGrows(shards, run, Takes(i));
      RunGrows(shards, run + [Takes(i)], Builds(i, true));
      RunGrows(shards, run + [Takes(i)] + [Builds(i, true)], Hears(i));
      more := before + OneBuilds(i);
      assert events + more == run + [Takes(i)] + [Builds(i, true)] + [Hears(i)];
    }
  }

  lemma StartsBlank(s: Group)
    requires GroupInv(s) && s.present && s.phase.Resting? && Healthy(s)
    ensures Enabled(s, Begins) && Ordered(Next(s, Begins), 0)
  {
    forall k | 0 <= k < |s.shards| ensures Blank(s.shards[k]) {
      InvAt(s, k);
    }
    hide Inv, Gone;
  }

  lemma AllOrdered(s: Group)
    requires Ordered(s, |s.shards|)
    ensures Enabled(s, Gathered) && Answered(LoopEnds(s), 0) && |LoopEnds(s).shards| == |s.shards|
  {
  }

  /** A healthy group at rest can run a request, whatever it has been through: if every
      build goes well and every message arrives, the request commits. */
  lemma HealthyCanCommit(shards: nat, events: seq<Event>) returns (more: seq<Event>)
    requires shards > 0 && IsRun(shards, events)
    requires var s := After(shards, events); s.present && s.phase.Resting? && Healthy(s)
    ensures IsRun(shards, events + more) && After(shards, events + more).committed
  {
    hide IsRun, After, Next, Enabled, Ordered, Answered, Healthy, Tells;
    RunKeeps(shards, events);
    RunTells(shards, events);
    StartsBlank(After(shards, events));
    RunGrows(shards, events, Begins);
    SameShards(After(shards, events), Begins);
    var run := events + [Begins];
    OrdersAll(shards, run, shards);
    var sent := run + seq(shards, _ => Sends(true));
    AllOrdered(After(shards, sent));
    RunGrows(shards, sent, Gathered);
    assert After(shards, sent + [Gathered]) == LoopEnds(After(shards, sent)) by { GatheredLoops(After(shards, sent)); }
    var built := BuildsAll(shards, sent + [Gathered], shards);
    var done := sent + [Gathered] + built;
    AllInGoesOn(After(shards, done));
    GoesAhead(shards, done);
    more := [Begins] + seq(shards, _ => Sends(true)) + [Gathered] + built + Rest(shards);
    assert events + more == done + Rest(shards);
  }

  lemma GatheredLoops(s: Group)
    requires Enabled(s, Gathered)
    ensures Next(s, Gathered) == LoopEnds(s)
  {
  }

  lemma AllInGoesOn(s: Group)
    requires Answered(s, |s.shards|)
    ensures Enabled(s, Gathered) && LoopEnds(s).phase == OwnBuild
  {
    assert s.phase.waiting == {};
  }

  // ------------------------------------------------------------- every request ends

  /** How much of the request rank 0 has still to go through, with `n` shards. */
  function Ahead(p: Phase, n: nat): nat {
    var m := n + 2;
    match p
    case Sending(j) => 10 * m + if j <= n then n - j else 0
    case Gathering(w, _) => 9 * m + |w|
    case OwnBuild => 8 * m
    case Going(j) => 7 * m + if j <= n then n - j else 0
    case Arming => 6 * m
    case InForward => 5 * m
    case Releasing(j) => 4 * m + if j <= n then n - j else 0
    case Awaiting(w, _) => 3 * m + |w|
    case Returned(_) => 2 * m
    case Collecting(w, _, _) => m + |w|
    case Resting => 0
  }

  lemma SendsOn(s: Group)
    requires Enabled(s, Sends(true))
    ensures Ahead(SendsOne(s, true).phase, |s.shards|) < Ahead(s.phase, |s.shards|)
  {
    hide Given, Reach;
  }

  /** Fewer turns to go, from one phase of a request to a later one. */
  lemma LaterIsNearer(p: Phase, n: nat, u: set<nat>)
    requires |u| == n
    ensures p.Sending? ==> Ahead(Gathering(u, false), n) < Ahead(p, n)
    ensures p.Gathering? ==> Ahead(Releasing(0), n) < Ahead(p, n) && Ahead(OwnBuild, n) < Ahead(p, n)
    ensures p.Going? ==> Ahead(Arming, n) < Ahead(p, n)
    ensures p.Releasing? ==> Ahead(Awaiting(u, false), n) < Ahead(p, n)
    ensures p.Awaiting? ==> Ahead(Returned(true), n) < Ahead(p, n)
    ensures p.Returned? ==> Ahead(Collecting(u, false, false), n) < Ahead(p, n)
    ensures !p.Resting? ==> Ahead(Resting, n) < Ahead(p, n)
  {
  }

  lemma LoopsOn(s: Group)
    requires Enabled(s, Gathered)
    ensures Ahead(LoopEnds(s).phase, |s.shards|) < Ahead(s.phase, |s.shards|)
  {
    hide UpTo, Ahead;
    UpToCount(|s.shards|);
    LaterIsNearer(s.phase, |s.shards|, UpTo(|s.shards|));
  }

  lemma UpToCount(n: nat)
    ensures |UpTo(n)| == n
  {
  }

  lemma SettlesOn(s: Group)
    requires Enabled(s, Settles)
    ensures Ahead(SettleOne(s).phase, |s.shards|) < Ahead(s.phase, |s.shards|)
  {
    hide UpTo, SettleOne, Ahead;
    UpToCount(|s.shards|);
    SettledPhase(s);
    LaterIsNearer(s.phase, |s.shards|, UpTo(|s.shards|));
  }

  lemma SettledPhase(s: Group)
    ensures SettleOne(s).phase.Resting? || (s.phase.Returned? && SettleOne(s).phase == Collecting(UpTo(|s.shards|), false, false))
  {
    hide UpTo, Settled, Rested, Restarted;
    assert !s.present || !s.phase.Returned? || !s.committed ==> SettleOne(s).phase.Resting? by { RestartRests(s); }
  }

  lemma RestartRests(s: Group)
    ensures forall d :: Restarted(s.(diverged := d)).phase.Resting?
  {
  }

  lemma GivesUpOnOne(s: Group, i: nat)
    requires Enabled(s, GivesUpOn(i))
    ensures Ahead(Next(s, GivesUpOn(i)).phase, |s.shards|) < Ahead(s.phase, |s.shards|)
  {
    assert |s.phase.waiting - {i}| < |s.phase.waiting|;
  }

  lemma GivesUpAtLast(s: Group)
    requires Enabled(s, GivesUp)
    ensures Ahead(Next(s, GivesUp).phase, |s.shards|) < Ahead(s.phase, |s.shards|)
  {
    assert |s.phase.waiting| > 0;
  }

  lemma DecidesOn(s: Group, e: Event)
    requires e in {BuildsOwn(true), Arms(true), Leaves(false)} && Enabled(s, e)
    ensures Ahead(Next(s, e).phase, |s.shards|) < Ahead(s.phase, |s.shards|)
  {
  }

  /** An event that breaks nothing and parts no rank from another. */
  predicate Gentle(e: Event) {
    !Breaks(e) && !e.Begins? && !e.Refuses? && e != Leaves(true) && !(e.Finishes? && !e.ok)
  }

  /** What rank 0 does next when it waits for nobody. */
  lemma GoesOn(s: Group) returns (e: Event)
    requires (Flags(s) || s.phase.Returned?) && !s.phase.Resting? && Waiting(s.phase) == {}
    ensures Enabled(s, e) && Gentle(e) && Ahead(Next(s, e).phase, |s.shards|) < Ahead(s.phase, |s.shards|)
  {
    hide Ahead, SendsOne, LoopEnds, SettleOne, Settled, Healthy;
    match s.phase {
      case Sending(j) => e := if j < |s.shards| then Sends(true) else Gathered;
      case Going(j) => e := if j < |s.shards| then Sends(true) else Gathered;
      case Releasing(j) => e := if j < |s.shards| then Sends(true) else Gathered;
      case Gathering(_, _) => e := Gathered;
      case Awaiting(_, _) => e := Gathered;
      case Collecting(_, _, _) => e := Settles;
      case Returned(_) => e := Settles;
      case OwnBuild => e := BuildsOwn(true);
      case Arming => e := Arms(true);
      case InForward => e := Leaves(false);
    }
    match e {
      case Sends(_) => SendsOn(s);
      case Gathered => LoopsOn(s);
      case Settles => SettlesOn(s);
      case _ => DecidesOn(s, e);
    }
  }

  /** A step rank 0 can take on its own. */
  lemma MovesOn(s: Group) returns (e: Event)
    requires (Flags(s) || s.phase.Returned?) && !s.phase.Resting?
    ensures Enabled(s, e) && !e.Begins? && Ahead(Next(s, e).phase, |s.shards|) < Ahead(s.phase, |s.shards|)
  {
    hide Ahead, Flags;
    if Waiting(s.phase) == {} {
      e := GoesOn(s);
    } else if s.phase.Gathering? {
      var i :| i in s.phase.waiting;
      e := GivesUpOn(i);
      GivesUpOnOne(s, i);
    } else {
      e := GivesUp;
      GivesUpAtLast(s);
    }
  }

  /** Whatever has happened, rank 0 can always bring the request it is in to its end. */
  lemma {:induction false} EveryRequestEnds(shards: nat, events: seq<Event>) returns (more: seq<Event>)
    requires shards > 0 && IsRun(shards, events)
    ensures IsRun(shards, events + more) && After(shards, events + more).phase.Resting? && forall e :: e in more ==> !e.Begins?
    decreases Ahead(After(shards, events).phase, shards)
  {
    hide IsRun, After, Next, Enabled, Inv, Gone, Ahead, Tells;
    var s := After(shards, events);
    RunKeeps(shards, events);
    RunTells(shards, events);
    if s.phase.Resting? {
      more := [];
      assert events + more == events;
    } else {
      GroupFlags(s);
      var e := MovesOn(s);
      RunGrows(shards, events, e);
      var rest := EveryRequestEnds(shards, events + [e]);
      more := [e] + rest;
      assert events + more == events + [e] + rest;
    }
  }

  lemma GroupFlags(s: Group)
    requires GroupInv(s)
    ensures s.phase.Resting? || s.phase.Returned? || Flags(s)
  {
  }

  // ------------------------------------------------------- and ends well unless it broke

  predicate AllGentle(more: seq<Event>) {
    forall e :: e in more ==> Gentle(e)
  }

  /** How far a shard is from being back in its loop with nothing to read. */
  function Work(sh: Shard): nat {
    3 * |sh.down| + match sh.mode
                    case Building(_) => 2
                    case Prepared(_) => 1
                    case InBlock(_) => 1
                    case _ => 0
  }

  /** The next thing a shard can do. */
  function NextOf(sh: Shard, i: nat): Event {
    if sh.mode.Building? then Builds(i, true) else if sh.mode.InBlock? then Finishes(i, true) else Takes(i)
  }

  /** While nothing has broken, a shard rank 0 waits for has said something or has
      something to do. */
  lemma OwesAnAnswer(s: Group, i: nat)
    requires Inv(s) && i < |s.shards| && Smooth(s, i) && i in Waiting(s.phase) && s.shards[i].up == []
    ensures Enabled(s, NextOf(s.shards[i], i))
  {
    InvMeans(s, i);
    var sh := s.shards[i];
    assert sh.heard + sh.up == sh.heard;
    hide Inv;
  }

  lemma WorkShrinks(sh: Shard)
    ensures sh.down != [] && (sh.mode.AtIdle? || sh.mode.Prepared?) ==> Work(Took(sh)) < Work(sh)
    ensures sh.mode.Building? ==> Work(Built(sh, true)) < Work(sh)
    ensures sh.mode.InBlock? ==> Work(Finished(sh, true)) < Work(sh)
  {
  }

  lemma DoesItsWork(s: Group, i: nat)
    requires i < |s.shards| && Enabled(s, NextOf(s.shards[i], i))
    ensures var s' := Next(s, NextOf(s.shards[i], i));
      s'.phase == s.phase && |s'.shards| == |s.shards| && Work(s'.shards[i]) < Work(s.shards[i])
    ensures Gentle(NextOf(s.shards[i], i))
  {
    WorkShrinks(s.shards[i]);
    hide Work, Took, Built, Finished;
  }

  lemma Unbroken(shards: nat, events: seq<Event>)
    requires shards > 0 && IsRun(shards, events) && !Broke(events)
    ensures var s := After(shards, events);
      && |s.shards| == shards && (!s.phase.Resting? && !s.phase.Returned? ==> Inv(s))
      && (s.present ==> Inv(s) && forall i :: 0 <= i < shards ==> Smooth(s, i))
  {
    hide IsRun, After, Inv, Smooth, Tells, Broke;
    RunKeeps(shards, events);
    RunTells(shards, events);
    RunIsSmooth(shards, events);
    FaultsAreEvents(shards, events);
    PresentMeans(After(shards, events));
  }

  lemma PresentMeans(s: Group)
    requires GroupInv(s)
    ensures Inv(s) ==> s.present
    ensures s.present ==> Inv(s)
    ensures !s.present ==> s.phase.Resting? || s.phase.Returned?
  {
  }

  lemma StillUnbroken(events: seq<Event>, more: seq<Event>)
    requires !Broke(events) && AllGentle(more)
    ensures !Broke(events + more)
  {
  }

  /** While nothing has broken, a shard rank 0 waits for comes to say something. */
  lemma {:induction false} SpeaksUp(shards: nat, events: seq<Event>, i: nat) returns (more: seq<Event>)
    requires shards > 0 && IsRun(shards, events) && !Broke(events) && i < |After(shards, events).shards|
    requires i in Waiting(After(shards, events).phase)
    ensures IsRun(shards, events + more) && AllGentle(more)
    ensures var s, s' := After(shards, events), After(shards, events + more);
      s'.phase == s.phase && i < |s'.shards| && s'.shards[i].up != []
    decreases Work(After(shards, events).shards[i])
  {
    hide IsRun, After, Next, Enabled, Inv, Smooth, Broke, Work, NextOf, Gentle;
    var s := After(shards, events);
    Unbroken(shards, events);
    if s.shards[i].up != [] {
      more := [];
      assert events + more == events;
    } else {
      OnlyWithAGroup(s);
      OwesAnAnswer(s, i);
      var e := NextOf(s.shards[i], i);
      DoesItsWork(s, i);
      RunGrows(shards, events, e);
      StillUnbroken(events, [e]);
      var rest := SpeaksUp(shards, events + [e], i);
      more := [e] + rest;
      assert events + more == events + [e] + rest;
    }
  }

  lemma OnlyWithAGroup(s: Group)
    requires Inv(s)
    ensures s.present
  {
  }

  lemma HearsOn(s: Group, i: nat)
    requires i in Waiting(s.phase) && i < |s.shards| && s.shards[i].up != []
    ensures Enabled(s, Hears(i)) && Ahead(Next(s, Hears(i)).phase, |s.shards|) < Ahead(s.phase, |s.shards|)
    ensures |Next(s, Hears(i)).shards| == |s.shards|
  {
    var w := Waiting(s.phase);
    assert |w - {i}| < |w|;
  }

  lemma {:induction false} EndsGently(shards: nat, events: seq<Event>) returns (more: seq<Event>)
    requires shards > 0 && IsRun(shards, events) && !Broke(events)
    ensures IsRun(shards, events + more) && After(shards, events + more).phase.Resting? && AllGentle(more)
    decreases Ahead(After(shards, events).phase, shards)
  {
    hide IsRun, After, Next, Enabled, Inv, Gone, Ahead, Smooth, Broke, Gentle;
    var s := After(shards, events);
    Unbroken(shards, events);
    if s.phase.Resting? {
      more := [];
      assert events + more == events;
    } else {
      var first := [];
      var e;
      if Waiting(s.phase) != {} {
        var i :| i in Waiting(s.phase);
        WaitsForShards(s, i);
        first := SpeaksUp(shards, events, i);
        StillUnbroken(events, first);
        Unbroken(shards, events + first);
        HearsOn(After(shards, events + first), i);
        e := Hears(i);
        HearingIsGentle(i);
      } else {
        RunKeeps(shards, events);
        GroupFlags(s);
        e := GoesOn(s);
        assert events + first == events;
      }
      RunGrows(shards, events + first, e);
      StillUnbroken(events + first, [e]);
      var rest := EndsGently(shards, events + first + [e]);
      more := first + [e] + rest;
      assert events + more == events + first + [e] + rest;
    }
  }

  lemma HearingIsGentle(i: nat)
    ensures Gentle(Hears(i))
  {
  }

  lemma WaitsForShards(s: Group, i: nat)
    requires i in Waiting(s.phase) && (!s.phase.Resting? && !s.phase.Returned? ==> Inv(s))
    ensures i < |s.shards|
  {
  }

  /** Whatever a request has been through, as long as nothing has broken and no shard
      has raised where rank 0 came out fine, it can be brought to an end at which
      nothing has broken and the group is kept, every shard alive. */
  lemma UnbrokenEndsWell(shards: nat, events: seq<Event>) returns (more: seq<Event>)
    requires shards > 0 && IsRun(shards, events) && !Broke(events) && !Parted(shards, Current(events))
    ensures IsRun(shards, events + more) && !Broke(events + more) && forall e :: e in more ==> !e.Begins?
    ensures var s := After(shards, events + more); s.phase.Resting? && s.present && Healthy(s)
  {
    hide IsRun, After, Broke, Current, Inv;
    more := EndsGently(shards, events);
    var run := events + more;
    StillUnbroken(events, more);
    CurrentGrows(events, more);
    assert !Parted(shards, Current(run));
    if !After(shards, run).present {
      RestartHasACause(shards, run);
      assert false;
    }
    Unbroken(shards, run);
    RunIsSmooth(shards, run);
    AllStand(After(shards, run));
  }

  lemma AllStand(s: Group)
    requires Inv(s) && forall i :: 0 <= i < |s.shards| ==> Smooth(s, i)
    ensures Healthy(s)
  {
    forall i | 0 <= i < |s.shards| ensures !s.shards[i].mode.Dead? {
      assert Smooth(s, i);
    }
  }

  /** A request given up before its first order went out costs nothing. */
  lemma AbandonedCostsNothing(shards: nat, events: seq<Event>) returns (more: seq<Event>)
    requires shards > 0 && IsRun(shards, events) && !Broke(events)
    requires After(shards, events).present && After(shards, events).phase.Resting?
    ensures IsRun(shards, events + [Begins] + [Abandons] + more)
    ensures var s := After(shards, events + [Begins] + [Abandons] + more); s.phase.Resting? && s.present && Healthy(s)
  {
    hide IsRun, After, Inv;
    Unbroken(shards, events);
    AllStand(After(shards, events));
    RunGrows(shards, events, Begins);
    RunGrows(shards, events + [Begins], Abandons);
    var run := events + [Begins] + [Abandons];
    assert Current(events + [Begins]) == [];
    CurrentGrows(events + [Begins], [Abandons]);
    more := UnbrokenEndsWell(shards, run);
  }

  /** When rank 0's own device turns out broken after a request that ran, whichever way
      the block ended, the group is given up for good and its shards are stopped. */
  lemma BrokenDeviceCostsTheGroup(shards: nat, events: seq<Event>, ok: bool, more: seq<Event>)
    requires shards > 0 && IsRun(shards, events + [Leaves(ok)])
    ensures Enabled(After(shards, events + [Leaves(ok)]), Poisoned)
    ensures IsRun(shards, events + [Leaves(ok)] + [Poisoned] + more) ==>
              var s := After(shards, events + [Leaves(ok)] + [Poisoned] + more);
              !s.present && forall i :: 0 <= i < |s.shards| ==> s.shards[i].mode.Dead?
  {
    var run := events + [Leaves(ok)];
    assert run[..|events|] == events;
    RunGrows(shards, run, Poisoned);
    if IsRun(shards, run + [Poisoned] + more) {
      hide IsRun, After;
      GivenUpForGood(shards, run + [Poisoned], more);
    }
  }
}
