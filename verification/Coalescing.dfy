/** Coalesced cache refreshes: any number of API callers and the dispatcher's
    worker, interleaved one Redis command at a time (`api/app.py`,
    `api/queue/dispatcher.py`). No key expires and nobody crashes. */
module Coalescing {
  import opened Ordering

  datatype Note = Ok | Failed

  /** Where a caller of `_coalesced_fetch` is: the command it issues next, or how
      it ended. */
  datatype At =
    | FirstGet | Subscribe | SecondGet | SetNx | Xadd | Listen | ThirdGet
    | Served(value: nat) | Unavailable | TimedOut

  /** `inbox` is what the ready channel has delivered and it has not yet read. */
  datatype Caller = Caller(at: At, subscribed: bool, inbox: seq<Note>)

  datatype Stage = Xread | Fetch | SetCache(value: nat) | Delete(note: Note) | Publish(note: Note)

  datatype World = World(cache: Option<nat>, lock: bool, triggers: nat, stage: Stage, callers: seq<Caller>)

  /** A caller's next command, a caller out of time, the worker's next command, and
      what the controller answers it: None if it fails or takes too long. */
  datatype Event = Calls(i: nat) | GivesUp(i: nat) | Works | Fetches(answer: Option<nat>)

  // ------------------------------------------------------------------- the steps

  function Left(c: Caller, at: At): Caller {
    Caller(at, false, [])
  }

  function Looked(c: Caller, cache: Option<nat>, otherwise: At): Caller {
    if cache.Some? then Left(c, Served(cache.value)) else c.(at := otherwise)
  }

  predicate Ended(at: At) {
    at.Served? || at.Unavailable? || at.TimedOut?
  }

  predicate Enabled(w: World, e: Event) {
    match e
    case Calls(i) =>
      i < |w.callers| && !Ended(w.callers[i].at) && (w.callers[i].at.Listen? ==> w.callers[i].inbox != [])
    case GivesUp(i) => i < |w.callers| && (w.callers[i].at.Listen? || w.callers[i].at.ThirdGet?)
    case Works => !w.stage.Fetch? && (w.stage.Xread? ==> w.triggers > 0)
    case Fetches(_) => w.stage.Fetch?
  }

  function CallerSteps(w: World, i: nat): World
    requires Enabled(w, Calls(i))
  {
    var c := w.callers[i];
    match c.at
    case FirstGet => w.(callers := w.callers[i := Looked(c, w.cache, Subscribe)])
    case Subscribe => w.(callers := w.callers[i := Caller(SecondGet, true, [])])
    case SecondGet => w.(callers := w.callers[i := Looked(c, w.cache, SetNx)])
    case SetNx => w.(lock := true, callers := w.callers[i := c.(at := if w.lock then Listen else Xadd)])
    case Xadd => w.(triggers := w.triggers + 1, callers := w.callers[i := c.(at := Listen)])
    case Listen =>
      w.(callers := w.callers[i := if c.inbox[0] == Failed then Left(c, Unavailable)
                                   else c.(at := ThirdGet, inbox := c.inbox[1..])])
    case ThirdGet => w.(callers := w.callers[i := Looked(c, w.cache, Listen)])
    case _ => w
  }

  function Delivered(c: Caller, note: Note): Caller {
    if c.subscribed then c.(inbox := c.inbox + [note]) else c
  }

  /** The worker's next command. */
  function WorkerSteps(w: World): World
    requires Enabled(w, Works)
  {
    match w.stage
    case Xread => w.(triggers := w.triggers - 1, stage := Fetch)
    case SetCache(value) => w.(cache := Some(value), stage := Delete(Ok))
    case Delete(note) => w.(lock := false, stage := Publish(note))
    case Publish(note) =>
      w.(stage := Xread,
         callers := seq(|w.callers|, i requires 0 <= i < |w.callers| => Delivered(w.callers[i], note)))
  }

  function Next(w: World, e: Event): World
    requires Enabled(w, e)
  {
    match e
    case Calls(i) => CallerSteps(w, i)
    case GivesUp(i) => w.(callers := w.callers[i := Left(w.callers[i], TimedOut)])
    case Works => WorkerSteps(w)
    case Fetches(answer) => w.(stage := if answer.Some? then SetCache(answer.value) else Delete(Failed))
  }

  /** Nobody has called yet; something may or may not be cached. */
  function Quiet(cache: Option<nat>, callers: nat): World {
    World(cache, false, 0, Xread, seq(callers, _ => Caller(FirstGet, false, [])))
  }

  ghost function After(cache: Option<nat>, callers: nat, events: seq<Event>): World {
    if events == [] then Quiet(cache, callers)
    else
      var w := After(cache, callers, events[..|events| - 1]);
      if Enabled(w, events[|events| - 1]) then Next(w, events[|events| - 1]) else w
  }

  ghost predicate IsRun(cache: Option<nat>, callers: nat, events: seq<Event>) {
    events != [] ==>
      var last := |events| - 1;
      IsRun(cache, callers, events[..last]) && Enabled(After(cache, callers, events[..last]), events[last])
  }

  ghost predicate Reached(cache: Option<nat>, callers: nat, events: seq<Event>, w: World) {
    IsRun(cache, callers, events) && w == After(cache, callers, events)
  }

  // --------------------------------------------------------------- the invariant

  /** Callers that won the lock and have not triggered yet. */
  function Winners(callers: seq<Caller>): nat {
    if callers == [] then 0 else (if callers[0].at.Xadd? then 1 else 0) + Winners(callers[1..])
  }

  /** The refresh under way has not released the lock yet. */
  function Underway(s: Stage): nat {
    if s.Fetch? || s.SetCache? || s.Delete? then 1 else 0
  }

  /** One trigger, or one refresh, per hold of the lock: never more, never fewer. */
  predicate OnePerLock(w: World) {
    Winners(w.callers) + w.triggers + Underway(w.stage) == if w.lock then 1 else 0
  }

  /** Good news is only ever sent once the cache is filled. */
  predicate GoodNewsHolds(w: World, c: Caller) {
    && (Ok in c.inbox || c.at.ThirdGet? ==> w.cache.Some?)
    && (c.at in {SecondGet, SetNx, Xadd, Listen, ThirdGet} ==> c.subscribed)
  }

  /** Someone who waits will still be woken. */
  predicate WillBeWoken(w: World, c: Caller) {
    c.at.Listen? ==> c.inbox != [] || w.lock || w.stage.Publish?
  }

  predicate Inv(w: World) {
    && OnePerLock(w)
    && (w.stage == Delete(Ok) || w.stage == Publish(Ok) ==> w.cache.Some?)
    && forall i :: 0 <= i < |w.callers| ==> GoodNewsHolds(w, w.callers[i]) && WillBeWoken(w, w.callers[i])
  }

  lemma {:induction false} WinnersChange(callers: seq<Caller>, i: nat, c: Caller)
    requires i < |callers|
    ensures Winners(callers[i := c]) ==
            Winners(callers) - (if callers[i].at.Xadd? then 1 else 0) + (if c.at.Xadd? then 1 else 0)
  {
    if i == 0 {
      assert callers[0 := c][1..] == callers[1..];
    } else {
      WinnersChange(callers[1..], i - 1, c);
      assert callers[i := c][1..] == callers[1..][i - 1 := c];
    }
  }

  lemma {:induction false} WinnersSame(a: seq<Caller>, b: seq<Caller>)
    requires |a| == |b| && forall i :: 0 <= i < |a| ==> a[i].at == b[i].at
    ensures Winners(a) == Winners(b)
  {
    if a != [] {
      WinnersSame(a[1..], b[1..]);
    }
  }

  lemma CallKeeps(w: World, i: nat)
    requires Inv(w) && Enabled(w, Calls(i))
    ensures Inv(CallerSteps(w, i))
  {
    hide Winners;
    var w' := CallerSteps(w, i);
    WinnersChange(w.callers, i, w'.callers[i]);
    assert w'.callers == w.callers[i := w'.callers[i]];
    assert GoodNewsHolds(w, w.callers[i]) && WillBeWoken(w, w.callers[i]);
    assert w.callers[i].inbox != [] ==> w.callers[i].inbox[0] in w.callers[i].inbox;
  }

  lemma WorkKeeps(w: World)
    requires Inv(w) && Enabled(w, Works)
    ensures Inv(WorkerSteps(w))
  {
    hide Winners;
    var w' := WorkerSteps(w);
    WinnersSame(w.callers, w'.callers);
    forall i | 0 <= i < |w'.callers| ensures GoodNewsHolds(w', w'.callers[i]) && WillBeWoken(w', w'.callers[i]) {
      assert GoodNewsHolds(w, w.callers[i]) && WillBeWoken(w, w.callers[i]);
    }
  }

  lemma FetchKeeps(w: World, answer: Option<nat>)
    requires Inv(w) && w.stage.Fetch?
    ensures Inv(Next(w, Fetches(answer)))
  {
    hide Winners;
    var w' := Next(w, Fetches(answer));
    forall i | 0 <= i < |w'.callers| ensures GoodNewsHolds(w', w'.callers[i]) && WillBeWoken(w', w'.callers[i]) {
      assert GoodNewsHolds(w, w.callers[i]) && WillBeWoken(w, w.callers[i]);
    }
  }

  lemma StepKeeps(w: World, e: Event)
    requires Inv(w) && Enabled(w, e)
    ensures Inv(Next(w, e))
  {
    match e
    case Calls(i) => CallKeeps(w, i);
    case Works => WorkKeeps(w);
    case Fetches(answer) => FetchKeeps(w, answer);
    case GivesUp(i) =>
      WinnersChange(w.callers, i, Left(w.callers[i], TimedOut));
      hide Winners;
  }

  lemma {:induction false} NobodyWins(callers: seq<Caller>)
    requires forall i :: 0 <= i < |callers| ==> callers[i].at == FirstGet
    ensures Winners(callers) == 0
  {
    if callers != [] {
      NobodyWins(callers[1..]);
    }
  }

  lemma QuietKeeps(cache: Option<nat>, callers: nat)
    ensures Inv(Quiet(cache, callers)) && |Quiet(cache, callers).callers| == callers
  {
    NobodyWins(Quiet(cache, callers).callers);
  }

  lemma SameCallers(w: World, e: Event)
    requires Enabled(w, e)
    ensures |Next(w, e).callers| == |w.callers|
  {
  }

  lemma {:induction false} AlwaysInv(cache: Option<nat>, callers: nat, events: seq<Event>, w: World)
    requires Reached(cache, callers, events, w)
    ensures Inv(w) && |w.callers| == callers
    decreases |events|
  {
    hide Inv, Next, Enabled, Quiet;
    if events == [] {
      QuietKeeps(cache, callers);
    } else {
      var last := |events| - 1;
      var before := After(cache, callers, events[..last]);
      AlwaysInv(cache, callers, events[..last], before);
      StepKeeps(before, events[last]);
      SameCallers(before, events[last]);
    }
  }

  // --------------------------------------------------------------- what runs keep

  /** No lost wakeup: in every interleaving, a caller waiting with nothing in its
      inbox has a message still to be published to it, or exactly one winner about
      to trigger, trigger waiting, or refresh that will still publish. */
  lemma NoLostWakeup(cache: Option<nat>, callers: nat, events: seq<Event>, w: World, i: nat)
    requires Reached(cache, callers, events, w) && i < callers
    ensures i < |w.callers|
    ensures w.callers[i].at.Listen? && w.callers[i].inbox == [] ==>
              w.stage.Publish? || Winners(w.callers) + w.triggers + Underway(w.stage) == 1
    ensures w.callers[i].at.Listen? ==> w.callers[i].subscribed
  {
    hide Reached;
    AlwaysInv(cache, callers, events, w);
    assert GoodNewsHolds(w, w.callers[i]) && WillBeWoken(w, w.callers[i]);
  }

  /** Refreshes are coalesced: however many callers miss the cache, the triggers
      and unfinished refreshes together never exceed the one the lock allows, so
      the stream never holds two and none is ever trimmed from it. */
  lemma AtMostOneRefresh(cache: Option<nat>, callers: nat, events: seq<Event>, w: World)
    requires Reached(cache, callers, events, w)
    ensures Winners(w.callers) + w.triggers + Underway(w.stage) <= 1
    ensures w.lock <==> Winners(w.callers) + w.triggers + Underway(w.stage) == 1
  {
    hide Reached;
    AlwaysInv(cache, callers, events, w);
  }

  /** Once woken by good news, a caller always finds the cache filled. */
  lemma GoodNewsIsTrue(cache: Option<nat>, callers: nat, events: seq<Event>, w: World, i: nat)
    requires Reached(cache, callers, events, w) && i < callers
    ensures i < |w.callers| && (w.callers[i].at.ThirdGet? ==> w.cache.Some?)
  {
    hide Reached;
    AlwaysInv(cache, callers, events, w);
    assert GoodNewsHolds(w, w.callers[i]);
  }

  // ------------------------------------------------------------------- progress

  function WorkLeft(w: World): nat {
    match w.stage
    case Publish(_) => 1
    case Delete(_) => 2
    case SetCache(_) => 3
    case Fetch => 4
    case Xread => if w.triggers > 0 then 5 else 6
  }

  /** How far caller `i` is from its answer. */
  function Distance(w: World, i: nat): nat
    requires i < |w.callers|
  {
    var c := w.callers[i];
    match c.at
    case FirstGet => 13
    case Subscribe => 12
    case SecondGet => 11
    case SetNx => 10
    case Xadd => 9
    case Listen => if c.inbox != [] then 2 else 2 + WorkLeft(w)
    case ThirdGet => 1
    case _ => 0
  }

  predicate CanStep(w: World, i: nat)
    requires i < |w.callers|
  {
    !w.callers[i].at.Listen? || w.callers[i].inbox != []
  }

  /** The steps that bring a caller nearer: its own if it can take one, else the
      worker's, else that of the caller holding the lock. */
  predicate Helps(w: World, i: nat, e: Event)
    requires i < |w.callers|
  {
    if CanStep(w, i) then e == Calls(i)
    else if w.stage.Fetch? then e.Fetches?
    else if !w.stage.Xread? || w.triggers > 0 then e.Works?
    else e.Calls? && e.i < |w.callers| && w.callers[e.i].at.Xadd?
  }

  lemma {:induction false} SomeoneWon(callers: seq<Caller>)
    requires Winners(callers) > 0
    ensures exists j :: 0 <= j < |callers| && callers[j].at.Xadd?
  {
    if !callers[0].at.Xadd? {
      SomeoneWon(callers[1..]);
      var j :| 0 <= j < |callers[1..]| && callers[1..][j].at.Xadd?;
      assert callers[j + 1].at.Xadd?;
    }
  }

  /** A caller that has not been answered can always be helped. */
  lemma SomeoneCanHelp(cache: Option<nat>, callers: nat, events: seq<Event>, w: World, i: nat)
    requires Reached(cache, callers, events, w) && i < |w.callers| && !Ended(w.callers[i].at)
    ensures exists e :: Helps(w, i, e) && Enabled(w, e)
  {
    hide Reached;
    AlwaysInv(cache, callers, events, w);
    assert WillBeWoken(w, w.callers[i]);
    if CanStep(w, i) {
      assert Helps(w, i, Calls(i)) && Enabled(w, Calls(i));
    } else if w.stage.Fetch? {
      assert Helps(w, i, Fetches(None)) && Enabled(w, Fetches(None));
    } else if !w.stage.Xread? || w.triggers > 0 {
      assert Helps(w, i, Works) && Enabled(w, Works);
    } else {
      SomeoneWon(w.callers);
      var j :| 0 <= j < |w.callers| && w.callers[j].at.Xadd?;
      assert Helps(w, i, Calls(j)) && Enabled(w, Calls(j));
    }
  }

  /** Whichever way it goes, such a step brings the caller nearer its answer; no
      other step of anyone's takes it further away; and a step that does neither
      leaves every helping step as helpful as it was. */
  lemma HelpBringsNearer(w: World, i: nat, e: Event)
    requires Inv(w) && i < |w.callers| && !Ended(w.callers[i].at) && Helps(w, i, e)
    ensures Enabled(w, e) && i < |Next(w, e).callers| && Distance(Next(w, e), i) < Distance(w, i)
  {
    hide Winners;
    assert GoodNewsHolds(w, w.callers[i]) && WillBeWoken(w, w.callers[i]);
  }

  lemma NoStepSetsBack(w: World, i: nat, e: Event, help: Event)
    requires Inv(w) && i < |w.callers| && Enabled(w, e)
    ensures i < |Next(w, e).callers| && Distance(Next(w, e), i) <= Distance(w, i)
    ensures Helps(w, i, help) && !Ended(w.callers[i].at) && Distance(Next(w, e), i) == Distance(w, i) ==>
              Helps(Next(w, e), i, help)
  {
    hide Inv;
    match e
    case Calls(j) => CallSetsNobodyBack(w, i, j, help);
    case GivesUp(j) =>
    case Works => WorkSetsNobodyBack(w, i, help);
    case Fetches(_) =>
  }

  lemma CallSetsNobodyBack(w: World, i: nat, j: nat, help: Event)
    requires Inv(w) && i < |w.callers| && Enabled(w, Calls(j))
    ensures i < |CallerSteps(w, j).callers| && Distance(CallerSteps(w, j), i) <= Distance(w, i)
    ensures Helps(w, i, help) && !Ended(w.callers[i].at) && Distance(CallerSteps(w, j), i) == Distance(w, i) ==>
              Helps(CallerSteps(w, j), i, help)
  {
    assert GoodNewsHolds(w, w.callers[i]);
    hide Inv;
  }

  lemma WorkSetsNobodyBack(w: World, i: nat, help: Event)
    requires Inv(w) && i < |w.callers| && Enabled(w, Works)
    ensures i < |WorkerSteps(w).callers| && Distance(WorkerSteps(w), i) <= Distance(w, i)
    ensures Helps(w, i, help) && !Ended(w.callers[i].at) && Distance(WorkerSteps(w), i) == Distance(w, i) ==>
              Helps(WorkerSteps(w), i, help)
  {
    assert GoodNewsHolds(w, w.callers[i]);
    hide Inv;
  }

  // ------------------------------------------------------------- nobody waits for ever

  ghost predicate Goes(w: World, events: seq<Event>)
    decreases |events|
  {
    events == [] || (Enabled(w, events[0]) && Goes(Next(w, events[0]), events[1..]))
  }

  ghost function Reaches(w: World, events: seq<Event>): World
    requires Goes(w, events)
    decreases |events|
  {
    if events == [] then w else Reaches(Next(w, events[0]), events[1..])
  }

  /** How many of the steps help caller `i`. */
  ghost function HelpsGiven(w: World, i: nat, events: seq<Event>): nat
    requires Goes(w, events) && i < |w.callers|
    decreases |events|
  {
    if events == [] then 0
    else
      SameCallers(w, events[0]);
      (if !Ended(w.callers[i].at) && Helps(w, i, events[0]) then 1 else 0)
      + HelpsGiven(Next(w, events[0]), i, events[1..])
  }

  lemma {:induction false} HelpAddsUp(w: World, i: nat, events: seq<Event>)
    requires Inv(w) && i < |w.callers| && Goes(w, events)
    ensures i < |Reaches(w, events).callers|
    ensures Distance(Reaches(w, events), i) + HelpsGiven(w, i, events) <= Distance(w, i)
    decreases |events|
  {
    hide Inv, Distance, Helps, Next, Enabled;
    if events != [] {
      var e := events[0];
      SameCallers(w, e);
      StepKeeps(w, e);
      NoStepSetsBack(w, i, e, e);
      if !Ended(w.callers[i].at) && Helps(w, i, e) {
        HelpBringsNearer(w, i, e);
      }
      HelpAddsUp(Next(w, e), i, events[1..]);
    }
  }

  /** From any point of any run: once as many steps have helped a caller as it was
      away from its answer, it has ended. So nobody waits for ever while those who can
      help it go on doing so. */
  lemma NobodyWaitsForEver(cache: Option<nat>, callers: nat, before: seq<Event>, w: World, i: nat, events: seq<Event>)
    requires Reached(cache, callers, before, w) && i < |w.callers| && Goes(w, events)
    ensures i < |Reaches(w, events).callers|
    ensures HelpsGiven(w, i, events) <= Distance(w, i) <= 13
    ensures HelpsGiven(w, i, events) == Distance(w, i) ==> Ended(Reaches(w, events).callers[i].at)
  {
    hide Reached, Goes, Reaches, HelpsGiven;
    AlwaysInv(cache, callers, before, w);
    HelpAddsUp(w, i, events);
  }

  // --------------------------------------------------------- what a caller is answered

  /** The value was cached to begin with, or is what some refresh was answered. */
  predicate Known(cache: Option<nat>, events: seq<Event>, v: nat) {
    cache == Some(v) || Fetches(Some(v)) in events
  }

  /** Every value about is a known one. */
  predicate Honest(cache: Option<nat>, events: seq<Event>, w: World) {
    && (w.cache.Some? ==> Known(cache, events, w.cache.value))
    && (w.stage.SetCache? ==> Fetches(Some(w.stage.value)) in events)
    && forall i :: 0 <= i < |w.callers| && w.callers[i].at.Served? ==> Known(cache, events, w.callers[i].at.value)
  }

  /** The notes published to caller `i` since it subscribed, in order. */
  ghost function Notes(cache: Option<nat>, callers: nat, events: seq<Event>, i: nat): seq<Note> {
    if events == [] then []
    else
      var last := |events| - 1;
      var w, e := After(cache, callers, events[..last]), events[last];
      var so := Notes(cache, callers, events[..last], i);
      if e == Works && w.stage.Publish? && i < |w.callers| && w.callers[i].subscribed then so + [w.stage.note] else so
  }

  /** What those notes have come to for the caller: it ends as unavailable only at a
      first note of failure, and looks again only at a first note of success. */
  predicate Listens(c: Caller, notes: seq<Note>) {
    && (!c.subscribed && !Ended(c.at) ==> c.at in {FirstGet, Subscribe} && notes == [])
    && (c.subscribed && c.at != ThirdGet ==> c.inbox == notes)
    && (c.at.ThirdGet? ==> notes != [] && notes[0] == Ok && c.inbox == notes[1..])
    && (c.at.Unavailable? ==> notes != [] && notes[0] == Failed)
    && (c.at in {SecondGet, SetNx, Xadd, Listen, ThirdGet} <==> c.subscribed)
  }

  /** Exactly those who gave up have timed out. */
  predicate Patience(events: seq<Event>, w: World) {
    forall i :: 0 <= i < |w.callers| ==> (w.callers[i].at.TimedOut? <==> GivesUp(i) in events)
  }

  lemma PatienceStep(events: seq<Event>, w: World, e: Event)
    requires Patience(events, w) && Enabled(w, e)
    ensures Patience(events + [e], Next(w, e))
  {
    var w' := Next(w, e);
    forall i | 0 <= i < |w'.callers| ensures w'.callers[i].at.TimedOut? <==> GivesUp(i) in events + [e] {
      assert GivesUp(i) in events + [e] <==> GivesUp(i) in events || e == GivesUp(i);
    }
  }

  /** A failure is only ever announced after a fetch failed. */
  predicate FailuresReal(events: seq<Event>, w: World) {
    w.stage == Delete(Failed) || w.stage == Publish(Failed) ==> Fetches(None) in events
  }

  lemma HonestStep(cache: Option<nat>, events: seq<Event>, w: World, e: Event)
    requires Honest(cache, events, w) && FailuresReal(events, w) && Enabled(w, e)
    ensures Honest(cache, events + [e], Next(w, e)) && FailuresReal(events + [e], Next(w, e))
  {
    assert forall x :: x in events ==> x in events + [e];
    assert e in events + [e];
    var w' := Next(w, e);
    forall i | 0 <= i < |w'.callers| && w'.callers[i].at.Served? ensures Known(cache, events + [e], w'.callers[i].at.value) {
      if w.callers[i].at.Served? {
        assert Known(cache, events, w.callers[i].at.value);
      }
    }
  }

  lemma ListensStep(w: World, e: Event, i: nat, notes: seq<Note>)
    requires Inv(w) && Enabled(w, e) && i < |w.callers| && Listens(w.callers[i], notes)
    ensures var more := if e == Works && w.stage.Publish? && w.callers[i].subscribed then notes + [w.stage.note] else notes;
      i < |Next(w, e).callers| && Listens(Next(w, e).callers[i], more)
  {
    assert GoodNewsHolds(w, w.callers[i]);
    hide Inv;
  }

  lemma {:induction false} RunAnswers(cache: Option<nat>, callers: nat, events: seq<Event>, i: nat)
    requires IsRun(cache, callers, events) && i < callers
    ensures var w := After(cache, callers, events);
      && i < |w.callers| && Honest(cache, events, w) && FailuresReal(events, w) && Patience(events, w)
      && Listens(w.callers[i], Notes(cache, callers, events, i))
      && (Failed in Notes(cache, callers, events, i) ==> Fetches(None) in events)
  {
    if events != [] {
      hide Inv, Honest, FailuresReal, Listens, Patience, Next, Enabled, Quiet;
      var last := |events| - 1;
      var before, w := events[..last], After(cache, callers, events[..last]);
      assert events == before + [events[last]];
      RunAnswers(cache, callers, before, i);
      AlwaysInv(cache, callers, before, w);
      HonestStep(cache, before, w, events[last]);
      PatienceStep(before, w, events[last]);
      ListensStep(w, events[last], i, Notes(cache, callers, before, i));
      FailureHeard(before, w);
    }
  }

  lemma FailureHeard(events: seq<Event>, w: World)
    requires FailuresReal(events, w)
    ensures w.stage == Publish(Failed) ==> Fetches(None) in events
  {
  }

  /** In every interleaving a caller is only ever served what was cached to begin
      with or what a refresh of the run was answered; and it is told that the thing
      is unavailable exactly at a first note, since it subscribed, that a refresh
      failed, which some refresh of the run did; and it times out exactly if it gives
      up. */
  lemma AnswersHaveASource(cache: Option<nat>, callers: nat, events: seq<Event>, i: nat)
    requires IsRun(cache, callers, events) && i < callers
    ensures var w, notes := After(cache, callers, events), Notes(cache, callers, events, i);
      && i < |w.callers|
      && (w.callers[i].at.Served? ==> Known(cache, events, w.callers[i].at.value))
      && (w.callers[i].at.Unavailable? ==> notes != [] && notes[0] == Failed && Fetches(None) in events)
      && (w.callers[i].at.ThirdGet? ==> notes != [] && notes[0] == Ok)
      && (w.callers[i].at.TimedOut? <==> GivesUp(i) in events)
  {
    RunAnswers(cache, callers, events, i);
    hide IsRun, After, Notes, Quiet;
    var notes := Notes(cache, callers, events, i);
    assert notes != [] ==> notes[0] in notes;
  }

  /** That refresh need not have been asked while the caller was subscribed: here the
      fetch fails, then the second caller comes and subscribes, and is told. */
  function UnluckyRun(): seq<Event> {
    [Calls(0), Calls(0), Calls(0), Calls(0), Calls(0), Works, Fetches(None)]
  }

  function UnluckyRest(): seq<Event> {
    [Calls(1), Calls(1), Calls(1), Calls(1), Works, Works, Calls(1)]
  }

  function Two(lock: bool, triggers: nat, stage: Stage, first: Caller, second: Caller): World {
    World(None, lock, triggers, stage, [first, second])
  }

  predicate StepsTo(w: World, e: Event, w': World) {
    Enabled(w, e) && Next(w, e) == w'
  }

  lemma StepOn(callers: nat, events: seq<Event>, w: World, e: Event, w': World)
    requires Reached(None, callers, events, w) && StepsTo(w, e, w')
    ensures Reached(None, callers, events + [e], w')
  {
    hide Enabled, Next, Quiet;
    assert (events + [e])[..|events|] == events;
  }

  lemma UnluckySteps()
    ensures var quiet, waits := Caller(FirstGet, false, []), Caller(Listen, true, []);
      && StepsTo(Two(false, 0, Xread, quiet, quiet), Calls(0), Two(false, 0, Xread, Caller(Subscribe, false, []), quiet))
      && StepsTo(Two(false, 0, Xread, Caller(Subscribe, false, []), quiet), Calls(0), Two(false, 0, Xread, Caller(SecondGet, true, []), quiet))
      && StepsTo(Two(false, 0, Xread, Caller(SecondGet, true, []), quiet), Calls(0), Two(false, 0, Xread, Caller(SetNx, true, []), quiet))
      && StepsTo(Two(false, 0, Xread, Caller(SetNx, true, []), quiet), Calls(0), Two(true, 0, Xread, Caller(Xadd, true, []), quiet))
      && StepsTo(Two(true, 0, Xread, Caller(Xadd, true, []), quiet), Calls(0), Two(true, 1, Xread, waits, quiet))
      && StepsTo(Two(true, 1, Xread, waits, quiet), Works, Two(true, 0, Fetch, waits, quiet))
      && StepsTo(Two(true, 0, Fetch, waits, quiet), Fetches(None), Two(true, 0, Delete(Failed), waits, quiet))
  {
  }

  lemma UnluckyStepsToo()
    ensures var waits, told := Caller(Listen, true, []), Caller(Listen, true, [Failed]);
      && StepsTo(Two(true, 0, Delete(Failed), waits, Caller(FirstGet, false, [])), Calls(1),
                 Two(true, 0, Delete(Failed), waits, Caller(Subscribe, false, [])))
      && StepsTo(Two(true, 0, Delete(Failed), waits, Caller(Subscribe, false, [])), Calls(1),
                 Two(true, 0, Delete(Failed), waits, Caller(SecondGet, true, [])))
      && StepsTo(Two(true, 0, Delete(Failed), waits, Caller(SecondGet, true, [])), Calls(1),
                 Two(true, 0, Delete(Failed), waits, Caller(SetNx, true, [])))
      && StepsTo(Two(true, 0, Delete(Failed), waits, Caller(SetNx, true, [])), Calls(1), Two(true, 0, Delete(Failed), waits, waits))
      && StepsTo(Two(true, 0, Delete(Failed), waits, waits), Works, Two(false, 0, Publish(Failed), waits, waits))
      && StepsTo(Two(false, 0, Publish(Failed), waits, waits), Works, Two(false, 0, Xread, told, told))
      && StepsTo(Two(false, 0, Xread, told, told), Calls(1), Two(false, 0, Xread, told, Caller(Unavailable, false, [])))
  {
    var waits, told := Caller(Listen, true, []), Caller(Listen, true, [Failed]);
    assert Delivered(waits, Failed) == told;
    assert Next(Two(false, 0, Publish(Failed), waits, waits), Works).callers == [told, told];
  }

  /** At the time the only fetch of the run fails the second caller has not even
      subscribed, and yet it is the one told that nothing is available. */
  lemma FailsForAnEarlierFetch()
    ensures IsRun(None, 2, UnluckyRun() + UnluckyRest())
    ensures var w := After(None, 2, UnluckyRun());
      |w.callers| == 2 && !w.callers[1].subscribed && w.callers[1].at == FirstGet
    ensures forall e :: e in UnluckyRest() ==> !e.Fetches?
    ensures var w := After(None, 2, UnluckyRun() + UnluckyRest());
      |w.callers| == 2 && w.callers[1].at == Unavailable
  {
    hide StepsTo, Reached;
    var quiet, waits, told := Caller(FirstGet, false, []), Caller(Listen, true, []), Caller(Listen, true, [Failed]);
    var lost := Two(true, 0, Delete(Failed), waits, quiet);
    UnluckySteps();
    UnluckyStepsToo();
    Unlucky1();
    var run := [Calls(0), Calls(0), Calls(0)];
    var w := Two(false, 0, Xread, Caller(SetNx, true, []), quiet);
    StepOn(2, run, w, Calls(0), Two(true, 0, Xread, Caller(Xadd, true, []), quiet));
    StepOn(2, run + [Calls(0)], Two(true, 0, Xread, Caller(Xadd, true, []), quiet), Calls(0), Two(true, 1, Xread, waits, quiet));
    StepOn(2, run + [Calls(0)] + [Calls(0)], Two(true, 1, Xread, waits, quiet), Works, Two(true, 0, Fetch, waits, quiet));
    StepOn(2, run + [Calls(0)] + [Calls(0)] + [Works], Two(true, 0, Fetch, waits, quiet), Fetches(None), lost);
    assert run + [Calls(0)] + [Calls(0)] + [Works] + [Fetches(None)] == UnluckyRun();
    Unlucky2(lost);
    ReachedMeans(UnluckyRun(), lost);
    ReachedMeans(UnluckyRun() + UnluckyRest(), Two(false, 0, Xread, told, Caller(Unavailable, false, [])));
  }

  lemma ReachedMeans(events: seq<Event>, w: World)
    requires Reached(None, 2, events, w)
    ensures IsRun(None, 2, events) && After(None, 2, events) == w
  {
  }

  lemma Unlucky1()
    ensures Reached(None, 2, [Calls(0), Calls(0), Calls(0)], Two(false, 0, Xread, Caller(SetNx, true, []), Caller(FirstGet, false, [])))
  {
    hide StepsTo, Reached;
    var quiet := Caller(FirstGet, false, []);
    UnluckySteps();
    QuietReached();
    StepOn(2, [], Two(false, 0, Xread, quiet, quiet), Calls(0), Two(false, 0, Xread, Caller(Subscribe, false, []), quiet));
    StepOn(2, [] + [Calls(0)], Two(false, 0, Xread, Caller(Subscribe, false, []), quiet), Calls(0),
           Two(false, 0, Xread, Caller(SecondGet, true, []), quiet));
    StepOn(2, [] + [Calls(0)] + [Calls(0)], Two(false, 0, Xread, Caller(SecondGet, true, []), quiet), Calls(0),
           Two(false, 0, Xread, Caller(SetNx, true, []), quiet));
    assert [] + [Calls(0)] + [Calls(0)] + [Calls(0)] == [Calls(0), Calls(0), Calls(0)];
  }

  lemma QuietReached()
    ensures Reached(None, 2, [], Two(false, 0, Xread, Caller(FirstGet, false, []), Caller(FirstGet, false, [])))
  {
  }

  lemma Unlucky2(lost: World)
    requires lost == Two(true, 0, Delete(Failed), Caller(Listen, true, []), Caller(FirstGet, false, []))
    requires Reached(None, 2, UnluckyRun(), lost)
    ensures Reached(None, 2, UnluckyRun() + UnluckyRest(),
                    Two(false, 0, Xread, Caller(Listen, true, [Failed]), Caller(Unavailable, false, [])))
  {
    hide StepsTo, Reached, UnluckyRun;
    var waits, told := Caller(Listen, true, []), Caller(Listen, true, [Failed]);
    var r0 := UnluckyRun();
    UnluckyStepsToo();
    StepOn(2, r0, lost, Calls(1), Two(true, 0, Delete(Failed), waits, Caller(Subscribe, false, [])));
    var r1 := r0 + [Calls(1)];
    StepOn(2, r1, Two(true, 0, Delete(Failed), waits, Caller(Subscribe, false, [])), Calls(1),
           Two(true, 0, Delete(Failed), waits, Caller(SecondGet, true, [])));
    var r2 := r1 + [Calls(1)];
    StepOn(2, r2, Two(true, 0, Delete(Failed), waits, Caller(SecondGet, true, [])), Calls(1),
           Two(true, 0, Delete(Failed), waits, Caller(SetNx, true, [])));
    var r3 := r2 + [Calls(1)];
    StepOn(2, r3, Two(true, 0, Delete(Failed), waits, Caller(SetNx, true, [])), Calls(1), Two(true, 0, Delete(Failed), waits, waits));
    var r4 := r3 + [Calls(1)];
    StepOn(2, r4, Two(true, 0, Delete(Failed), waits, waits), Works, Two(false, 0, Publish(Failed), waits, waits));
    var r5 := r4 + [Works];
    StepOn(2, r5, Two(false, 0, Publish(Failed), waits, waits), Works, Two(false, 0, Xread, told, told));
    var r6 := r5 + [Works];
    StepOn(2, r6, Two(false, 0, Xread, told, told), Calls(1), Two(false, 0, Xread, told, Caller(Unavailable, false, [])));
    assert r6 + [Calls(1)] == r0 + UnluckyRest();
  }

  // ------------------------------------------------------------- what a refresh does

  /** The worker's own steps. */
  function Labour(events: seq<Event>): seq<Event> {
    if events == [] then []
    else (if events[0].Works? || events[0].Fetches? then [events[0]] else []) + Labour(events[1..])
  }

  /** What is left of a refresh the controller answers with `answer`. */
  function Script(s: Stage, answer: Option<nat>): seq<Event> {
    match s
    case Xread => []
    case Publish(_) => [Works]
    case Delete(_) => [Works, Works]
    case SetCache(_) => [Works, Works, Works]
    case Fetch => [Fetches(answer)] + if answer.Some? then [Works, Works, Works] else [Works, Works]
  }

  /** The worker can carry that out on its own, from any state, and is then back at
      its stream. */
  lemma {:induction false} RefreshCanFinish(w: World, answer: Option<nat>)
    ensures Goes(w, Script(w.stage, answer)) && Reaches(w, Script(w.stage, answer)).stage.Xread?
    decreases |Script(w.stage, answer)|
  {
    if !w.stage.Xread? {
      var e := Script(w.stage, answer)[0];
      assert Enabled(w, e) && Script(Next(w, e).stage, answer) == Script(w.stage, answer)[1..];
      RefreshCanFinish(Next(w, e), answer);
    }
  }

  /** A refresh under way that is or will be answered so, with `was` cached before,
      and a caller that has been waiting for it. */
  predicate Refreshes(w: World, answer: Option<nat>, was: Option<nat>, c: Caller) {
    match w.stage
    case Fetch => w.cache == was && c.at.Listen? && c.inbox == []
    case SetCache(v) => answer == Some(v) && w.cache == was && c.at.Listen? && c.inbox == []
    case Delete(note) => Told(w, answer, was, note) && c.at.Listen? && c.inbox == []
    case Publish(note) => Told(w, answer, was, note) && c.at.Listen? && c.inbox == []
    case Xread =>
      if answer.Some? then
        w.cache == answer && ((c.at.Listen? && c.inbox == [Ok]) || c.at.ThirdGet? || c.at == Served(answer.value))
      else w.cache == was && ((c.at.Listen? && c.inbox == [Failed]) || c.at.Unavailable?)
  }

  predicate Told(w: World, answer: Option<nat>, was: Option<nat>, note: Note) {
    if answer.Some? then note == Ok && w.cache == answer else note == Failed && w.cache == was
  }

  lemma RefreshStep(w: World, e: Event, i: nat, answer: Option<nat>, was: Option<nat>)
    requires Inv(w) && Enabled(w, e) && i < |w.callers| && e != GivesUp(i) && Refreshes(w, answer, was, w.callers[i])
    requires e.Works? || e.Fetches? ==> Script(w.stage, answer) != [] && e == Script(w.stage, answer)[0]
    ensures i < |Next(w, e).callers| && Refreshes(Next(w, e), answer, was, Next(w, e).callers[i])
    ensures Script(Next(w, e).stage, answer) == if e.Works? || e.Fetches? then Script(w.stage, answer)[1..] else Script(w.stage, answer)
  {
    assert GoodNewsHolds(w, w.callers[i]);
    hide Inv;
  }

  /** However callers come and go meanwhile, a refresh the controller answers fills
      the cache with just that answer, and one it does not leaves the cache alone;
      and a caller that has been waiting for it, and does not run out of time, is
      served that answer, or told of the failure, or has only that left to read. */
  lemma {:induction false} RefreshAnswers(w: World, events: seq<Event>, i: nat, answer: Option<nat>, was: Option<nat>)
    requires Inv(w) && i < |w.callers| && Refreshes(w, answer, was, w.callers[i])
    requires Goes(w, events) && GivesUp(i) !in events && Labour(events) == Script(w.stage, answer)
    ensures var w' := Reaches(w, events);
      && w'.stage.Xread? && i < |w'.callers| && w'.cache == (if answer.Some? then answer else was)
      && var c := w'.callers[i];
         if answer.Some? then c.at == Served(answer.value) || (c.at.Listen? && c.inbox == [Ok]) || c.at.ThirdGet?
         else c.at.Unavailable? || (c.at.Listen? && c.inbox == [Failed])
    decreases |events|
  {
    if events == [] {
      assert w.stage.Xread?;
    } else {
      hide Inv, Next, Enabled, Refreshes, Script;
      var e := events[0];
      assert e in events;
      assert forall x :: x in events[1..] ==> x in events;
      StepKeeps(w, e);
      RefreshStep(w, e, i, answer, was);
      RefreshAnswers(Next(w, e), events[1..], i, answer, was);
    }
  }

  // ---------------------------------------------------------- nothing asked for in vain

  /** With something cached nobody triggers a refresh: every caller is served it at
      its first look. */
  lemma {:induction false} CachedIsServed(v: nat, callers: nat, events: seq<Event>)
    requires IsRun(Some(v), callers, events)
    ensures Calm(After(Some(v), callers, events), v, callers)
    ensures forall i :: 0 <= i < callers ==>
              After(Some(v), callers, events).callers[i].at == if Calls(i) in events then Served(v) else FirstGet
  {
    if events != [] {
      hide Enabled, Next, IsRun;
      var last := |events| - 1;
      var before, e := events[..last], events[last];
      assert events == before + [e];
      assert IsRun(Some(v), callers, before) && Enabled(After(Some(v), callers, before), e) by { RunGoesBack(Some(v), callers, events); }
      CachedIsServed(v, callers, before);
      hide After;
      CalmStep(After(Some(v), callers, before), v, e);
      forall i | 0 <= i < callers ensures Calls(i) in events <==> Calls(i) in before || e == Calls(i) { }
    }
  }

  lemma RunGoesBack(cache: Option<nat>, callers: nat, events: seq<Event>)
    requires IsRun(cache, callers, events) && events != []
    ensures var before := events[..|events| - 1];
      IsRun(cache, callers, before) && Enabled(After(cache, callers, before), events[|events| - 1])
  {
  }

  /** Something is cached and nobody is fetching, nor has been asked to. */
  predicate Calm(w: World, v: nat, callers: nat) {
    w.cache == Some(v) && !w.lock && w.triggers == 0 && w.stage.Xread? && |w.callers| == callers
  }

  lemma CalmStep(w: World, v: nat, e: Event)
    requires Calm(w, v, |w.callers|) && Enabled(w, e)
    requires forall i :: 0 <= i < |w.callers| ==> w.callers[i].at == FirstGet || w.callers[i].at == Served(v)
    ensures Calm(Next(w, e), v, |w.callers|)
    ensures forall i :: 0 <= i < |w.callers| ==>
              Next(w, e).callers[i].at == if e == Calls(i) then Served(v) else w.callers[i].at
  {
    assert e.Calls?;
    assert w.callers[e.i].at == FirstGet;
  }
}
