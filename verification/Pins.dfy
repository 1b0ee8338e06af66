/** The `tracer.iter` pin, of which the runner's worker and the host's proxy each
    keep a copy, kept in step by PARK and RESUME messages (`sandbox/driver.py`,
    `sandbox/nns.py`). Any number of workers share one connection. */
module Pins {
  import opened Ordering

  /** Where a worker's loop is pinned, if it is. */
  datatype Pin = Unpinned | Pinned(step: int)

  /** Where a worker stops. Only a park on a model location carries the pin. */
  datatype Park = Model(pin: Pin, read: bool) | Control | Barrier | Over

  datatype Resume = Push(pin: Pin) | KeepPin

  datatype Wire = Quiet | ToRunner(id: nat, resume: Resume) | ToHost(id: nat, park: Park)

  /** The runner: listening, running one worker's code (and which read that
      answers), or waiting out a write-back with the worker's real park in hand. */
  datatype Runner = Listening | Running(id: nat, answering: Option<Pin>) | WritingBack(id: nat, next: Park)

  /** `reading` is the worker's entry in `reads`. */
  datatype Worker = Worker(pin: Pin, reading: Option<Pin>)

  datatype Proxy = Proxy(iteration: Pin, pending: Option<Park>)

  /** `awaiting` is the proxy whose call is blocked on the next PARK. */
  datatype Split = Split(workers: seq<Worker>, proxies: seq<Proxy>, runner: Runner, wire: Wire, awaiting: Option<nat>)

  datatype Stop = AtRead | AtSwap | AtControl | AtBarrier | AtEnd

  datatype Event =
    | Moves(to: Pin)               // the worker's own code moves its pin
    | Parks(stop: Stop)            // the worker's code stops
    | RunnerReceives
    | HostReceives
    | Serves(id: nat, to: Pin)     // the host serves a model park, and may relax the pin
    | Answers(id: nat)             // the host resumes a worker

  // ------------------------------------------------------------------- the steps

  function ParkAt(stop: Stop, pin: Pin): Park {
    match stop
    case AtRead => Model(pin, true)
    case AtSwap => Model(pin, false)
    case AtControl => Control
    case AtBarrier => Barrier
    case AtEnd => Over
  }

  function ReadOf(p: Park): Option<Pin> {
    if p.Model? && p.read then Some(p.pin) else None
  }

  predicate HostsTurn(s: Split) {
    s.awaiting.None? && s.wire.Quiet?
  }

  predicate Enabled(s: Split, e: Event) {
    match e
    case Moves(_) => s.runner.Running? && s.runner.id < |s.workers|
    case Parks(_) => s.runner.Running? && s.runner.id < |s.workers| && s.wire.Quiet?
    case RunnerReceives =>
      s.wire.ToRunner? && s.wire.id < |s.workers| && !s.runner.Running? &&
      (s.runner.WritingBack? ==> s.runner.id < |s.workers|)
    case HostReceives => s.wire.ToHost? && s.awaiting.Some? && s.awaiting.value < |s.proxies|
    case Serves(id, _) =>
      HostsTurn(s) && id < |s.proxies| && s.proxies[id].pending.Some? && s.proxies[id].pending.value.Model?
    case Answers(id) =>
      // a swap written back is served before any other worker is resumed
      HostsTurn(s) && id < |s.proxies| && s.proxies[id].pending.Some? && s.proxies[id].pending.value != Over &&
      (s.runner.WritingBack? ==> id == s.runner.id)
  }

  /** `adopt`: only a model park sets the host's copy. */
  function Adopted(p: Proxy, park: Park): Proxy {
    Proxy(if park.Model? then park.pin else p.iteration, Some(park))
  }

  function Next(s: Split, e: Event): Split
    requires Enabled(s, e)
  {
    match e
    case Moves(to) =>
      var id := s.runner.id;
      s.(workers := s.workers[id := s.workers[id].(pin := to)])
    case Parks(stop) =>
      var id := s.runner.id;
      var park := ParkAt(stop, s.workers[id].pin);
      if s.runner.answering.Some? then
        // the write-back: a SWAP under the read's own pin goes out first
        s.(runner := WritingBack(id, park), wire := ToHost(id, Model(s.runner.answering.value, false)))
      else
        s.(runner := Listening, wire := ToHost(id, park),
           workers := s.workers[id := s.workers[id].(reading := ReadOf(park))])
    case RunnerReceives =>
      var id := s.wire.id;
      if s.runner.WritingBack? then
        // the RESUME is absorbed, pin and all, and the real park goes out
        s.(wire := ToHost(s.runner.id, s.runner.next), runner := Listening,
           workers := s.workers[s.runner.id := s.workers[s.runner.id].(reading := ReadOf(s.runner.next))])
      else
        var pin := if s.wire.resume.Push? then s.wire.resume.pin else s.workers[id].pin;
        s.(wire := Quiet, runner := Running(id, s.workers[id].reading),
           workers := s.workers[id := Worker(pin, None)])
    case HostReceives =>
      var me := s.awaiting.value;
      s.(wire := Quiet, awaiting := None, proxies := s.proxies[me := Adopted(s.proxies[me], s.wire.park)])
    case Serves(id, to) => s.(proxies := s.proxies[id := s.proxies[id].(iteration := to)])
    case Answers(id) =>
      var p := s.proxies[id];
      s.(wire := ToRunner(id, if p.pending.value.Model? then Push(p.iteration) else KeepPin),
         awaiting := Some(id), proxies := s.proxies[id := p.(pending := None)])
  }

  /** The run as INTERLEAVE begins it: every worker's first park has crossed. */
  predicate Begins(s: Split) {
    && |s.workers| == |s.proxies| && s.runner.Listening? && s.wire.Quiet? && s.awaiting.None?
    && forall i :: 0 <= i < |s.proxies| ==>
         && s.proxies[i].pending.Some? && s.workers[i].reading == ReadOf(s.proxies[i].pending.value)
         && (s.proxies[i].pending.value.Model? ==>
               s.proxies[i].iteration == s.workers[i].pin && s.proxies[i].pending.value.pin == s.workers[i].pin)
  }

  ghost predicate IsRun(start: Split, events: seq<Event>) {
    if events == [] then Begins(start)
    else
      var last := |events| - 1;
      IsRun(start, events[..last]) && Enabled(After(start, events[..last]), events[last])
  }

  ghost function After(start: Split, events: seq<Event>): Split {
    if events == [] then start
    else
      var s, e := After(start, events[..|events| - 1]), events[|events| - 1];
      if Enabled(s, e) then Next(s, e) else s
  }

  // ------------------------------------------------------------- the single pin

  /** The worker's real park is on a model location, and the host holds it. */
  predicate HostHolds(s: Split, i: nat)
    requires i < |s.proxies|
  {
    && s.proxies[i].pending.Some? && s.proxies[i].pending.value.Model?
    && !(s.runner.WritingBack? && s.runner.id == i)
  }

  /** A RESUME answering that park is on its way. */
  predicate InFlight(s: Split, i: nat) {
    s.wire.ToRunner? && s.wire.id == i && s.runner.Listening? && s.wire.resume.Push?
  }

  /** The one pin worker `i` has, wherever it is at the moment. */
  function ThePin(s: Split, i: nat): Pin
    requires i < |s.proxies| && i < |s.workers|
  {
    if InFlight(s, i) then s.wire.resume.pin
    else if HostHolds(s, i) then s.proxies[i].iteration
    else s.workers[i].pin
  }

  /** What the single variable does at a step of the split one. */
  function Changed(s: Split, e: Event, i: nat): Pin
    requires Enabled(s, e) && i < |s.proxies| && i < |s.workers|
  {
    if e.Moves? && s.runner.id == i then e.to
    else if e.Serves? && e.id == i && HostHolds(s, i) then e.to
    else ThePin(s, i)
  }

  // --------------------------------------------------------------- the invariant

  /** One exchange at a time, and about one worker. */
  predicate Talking(s: Split)
    requires |s.workers| == |s.proxies|
  {
    match s.awaiting
    case None => s.wire.Quiet? && !s.runner.Running?
    case Some(id) =>
      && id < |s.proxies| && s.proxies[id].pending.None?
      && match s.wire
         case Quiet => s.runner.Running? && s.runner.id == id
         case ToRunner(to, resume) =>
           to == id && !s.runner.Running? && (s.runner.WritingBack? ==> s.runner.id == id && resume.Push?)
         case ToHost(from, park) =>
           && from == id && !s.runner.Running?
           && (if s.runner.WritingBack? then s.runner.id == id && park.Model?
               else park.Model? ==> park.pin == s.workers[id].pin)
  }

  predicate Inv(s: Split) {
    && |s.workers| == |s.proxies| && Talking(s)
    && (forall i :: 0 <= i < |s.proxies| && s.awaiting != Some(i) ==> s.proxies[i].pending.Some?)
    && (s.runner.WritingBack? ==>
          && s.runner.id < |s.workers|
          && (s.runner.next.Model? ==> s.runner.next.pin == s.workers[s.runner.id].pin)
          && (s.awaiting.None? ==> s.proxies[s.runner.id].pending.value.Model?))
  }

  lemma StepKeeps(s: Split, e: Event)
    requires Inv(s) && Enabled(s, e)
    ensures Inv(Next(s, e))
  {
  }

  /** Each step of the split pin is a step of the single one. */
  lemma StepRefines(s: Split, e: Event, i: nat)
    requires Inv(s) && Enabled(s, e) && i < |s.workers|
    ensures |Next(s, e).workers| == |Next(s, e).proxies| == |s.workers|
    ensures ThePin(Next(s, e), i) == Changed(s, e, i)
  {
  }

  // --------------------------------------------------------------- what runs keep

  lemma BeginsWell(s: Split)
    requires Begins(s)
    ensures Inv(s) && forall i :: 0 <= i < |s.workers| ==> ThePin(s, i) == s.workers[i].pin
  {
  }

  lemma {:induction false} RunKeeps(start: Split, events: seq<Event>)
    requires IsRun(start, events)
    ensures Inv(After(start, events)) && |After(start, events).workers| == |start.workers|
  {
    hide Inv, Enabled, Next;
    if events == [] {
      BeginsWell(start);
    } else {
      var last := |events| - 1;
      RunKeeps(start, events[..last]);
      StepKeeps(After(start, events[..last]), events[last]);
      SameWorkers(After(start, events[..last]), events[last]);
    }
  }

  lemma SameWorkers(s: Split, e: Event)
    requires Enabled(s, e)
    ensures |Next(s, e).workers| == |s.workers|
  {
  }

  /** Worker `i`'s pin as one variable: what it began with, overwritten by the
      worker's own moves and by the host while it serves the worker's model park. */
  ghost function SinglePin(start: Split, events: seq<Event>, i: nat): Pin
    requires IsRun(start, events) && i < |start.workers|
  {
    if events == [] then start.workers[i].pin
    else
      var last := |events| - 1;
      var s, e := After(start, events[..last]), events[last];
      RunKeeps(start, events[..last]);
      if e.Moves? && s.runner.id == i then e.to
      else if e.Serves? && e.id == i && HostHolds(s, i) then e.to
      else SinglePin(start, events[..last], i)
  }

  /** The two copies refine one variable: in every run of every mix of reads,
      swaps, write-backs, control parks and barriers, the pin the split holds is
      the pin one variable would, and both sides see it whenever they look: the
      worker while its code runs, the host while it serves the worker's park. */
  lemma {:induction false} TwoCopiesAreOne(start: Split, events: seq<Event>, i: nat)
    requires IsRun(start, events) && i < |start.workers|
    ensures var s := After(start, events);
      && i < |s.workers| && |s.workers| == |s.proxies|
      && ThePin(s, i) == SinglePin(start, events, i)
      && (s.runner.Running? && s.runner.id == i ==> s.workers[i].pin == SinglePin(start, events, i))
      && (HostHolds(s, i) && s.wire.Quiet? ==> s.proxies[i].iteration == SinglePin(start, events, i))
  {
    RunKeeps(start, events);
    if events == [] {
      BeginsWell(start);
    } else {
      var last := |events| - 1;
      TwoCopiesAreOne(start, events[..last], i);
      RunKeeps(start, events[..last]);
      StepRefines(After(start, events[..last]), events[last], i);
      hide Enabled, Next, HostHolds;
    }
    SeenBySides(After(start, events), i);
  }

  lemma SeenBySides(s: Split, i: nat)
    requires Inv(s) && i < |s.workers|
    ensures s.runner.Running? && s.runner.id == i ==> s.workers[i].pin == ThePin(s, i)
    ensures HostHolds(s, i) && s.wire.Quiet? ==> s.proxies[i].iteration == ThePin(s, i)
  {
  }

  /** A worker's own copy changes only by its own move or by a RESUME that answers
      a park of its own on a model location: never through a control, barrier or
      write-back exchange, nor through another worker's. */
  lemma OnlyModelResumesMoveThePin(start: Split, events: seq<Event>, e: Event, i: nat)
    requires IsRun(start, events) && Enabled(After(start, events), e) && i < |start.workers|
    ensures var s := After(start, events);
      && i < |s.workers| && i < |Next(s, e).workers|
      && (Next(s, e).workers[i].pin != s.workers[i].pin ==>
            (e.Moves? && s.runner.id == i) || (e.RunnerReceives? && InFlight(s, i)))
  {
    hide After, IsRun;
    RunKeeps(start, events);
  }

  /** Such a RESUME is only sent for the worker's real park, with the host's copy. */
  lemma PinsArePushedForModelParks(start: Split, events: seq<Event>, e: Event, i: nat)
    requires IsRun(start, events) && Enabled(After(start, events), e) && i < |start.workers|
    ensures var s := After(start, events);
      && i < |s.proxies|
      && (!InFlight(s, i) && InFlight(Next(s, e), i) ==>
            e == Answers(i) && HostHolds(s, i) && Next(s, e).wire.resume == Push(s.proxies[i].iteration))
  {
    hide After, IsRun;
    RunKeeps(start, events);
  }

  /** The proxy that adopts a PARK is the one whose worker sent it, and its copy
      is then that worker's pin if the park is the worker's own. */
  lemma ParksReachTheirProxy(start: Split, events: seq<Event>)
    requires IsRun(start, events) && Enabled(After(start, events), HostReceives)
    ensures var s := After(start, events);
      && s.awaiting == Some(s.wire.id) && s.wire.id < |s.workers|
      && (s.wire.park.Model? && !s.runner.WritingBack? ==> s.wire.park.pin == s.workers[s.wire.id].pin)
  {
    hide After, IsRun;
    RunKeeps(start, events);
  }

  // ------------------------------------------------------ every stop reaches the host

  /** What the host is to hear of a stop. */
  predicate Announces(park: Park, stop: Stop, pin: Pin) {
    && (stop.AtRead? ==> park.Model? && park.read && park.pin == pin)
    && (stop.AtSwap? ==> park.Model? && !park.read && park.pin == pin)
    && (stop.AtControl? ==> park.Control?)
    && (stop.AtBarrier? ==> park.Barrier?)
    && (stop.AtEnd? ==> park.Over?)
  }

  /** The parks worker `i` owes the host: its first, and then for each of its stops,
      after the value of a read that was answered is swapped back under the read's own
      pin, the stop itself. */
  ghost predicate Owes(start: Split, events: seq<Event>, i: nat, parks: seq<Park>)
    requires i < |start.proxies| && start.proxies[i].pending.Some?
  {
    if events == [] then parks == [start.proxies[i].pending.value]
    else
      var last := |events| - 1;
      var s, e := After(start, events[..last]), events[last];
      if e.Parks? && s.runner.Running? && s.runner.id == i && i < |s.workers| then
        exists before, park :: before != [] && Owes(start, events[..last], i, before) && Announces(park, e.stop, s.workers[i].pin)
          && parks == before + SwappedBack(before[|before| - 1]) + [park]
      else Owes(start, events[..last], i, parks)
  }

  function SwappedBack(park: Park): seq<Park> {
    match park
    case Model(pin, true) => [Model(pin, false)]
    case _ => []
  }

  /** The parks of worker `i` the host has adopted, in order. */
  ghost function Adoptions(start: Split, events: seq<Event>, i: nat): seq<Park>
    requires i < |start.proxies| && start.proxies[i].pending.Some?
  {
    if events == [] then [start.proxies[i].pending.value]
    else
      var last := |events| - 1;
      var s, e := After(start, events[..last]), events[last];
      var so := Adoptions(start, events[..last], i);
      if e.HostReceives? && s.awaiting == Some(i) && s.wire.ToHost? then so + [s.wire.park] else so
  }

  /** The parks of worker `i` still on their way. */
  function OnTheWay(s: Split, i: nat): seq<Park> {
    (if s.wire.ToHost? && s.wire.id == i then [s.wire.park] else [])
    + (if s.runner.WritingBack? && s.runner.id == i then [s.runner.next] else [])
  }

  /** The runner remembers a read until it is answered. */
  predicate Remembers(s: Split, i: nat, last: Park)
    requires i < |s.workers|
  {
    if s.runner.Running? && s.runner.id == i then s.runner.answering == ReadOf(last)
    else if s.runner.WritingBack? && s.runner.id == i then s.runner.next == last
    else s.workers[i].reading == ReadOf(last)
  }

  /** What is owed is what was adopted and what is on its way. */
  predicate Square(s: Split, i: nat, owed: seq<Park>, adopted: seq<Park>) {
    i < |s.workers| && owed != [] && owed == adopted + OnTheWay(s, i) && Remembers(s, i, owed[|owed| - 1])
  }

  lemma ParkSquare(s: Split, i: nat, stop: Stop, owed: seq<Park>, adopted: seq<Park>)
    requires Inv(s) && Enabled(s, Parks(stop)) && s.runner.id == i && Square(s, i, owed, adopted)
    ensures Announces(ParkAt(stop, s.workers[i].pin), stop, s.workers[i].pin)
    ensures Square(Next(s, Parks(stop)), i, owed + SwappedBack(owed[|owed| - 1]) + [ParkAt(stop, s.workers[i].pin)], adopted)
  {
    var park, back := ParkAt(stop, s.workers[i].pin), SwappedBack(owed[|owed| - 1]);
    var s' := Next(s, Parks(stop));
    assert OnTheWay(s, i) == [] && owed == adopted;
    assert OnTheWay(s', i) == back + [park];
    assert owed + back + [park] == adopted + OnTheWay(s', i);
  }

  lemma OtherSquare(s: Split, e: Event, i: nat, owed: seq<Park>, adopted: seq<Park>)
    requires Inv(s) && Enabled(s, e) && Square(s, i, owed, adopted) && !(e.Parks? && s.runner.id == i)
    ensures Square(Next(s, e), i, owed,
                   if e.HostReceives? && s.awaiting == Some(i) && s.wire.ToHost? then adopted + [s.wire.park] else adopted)
  {
    var s' := Next(s, e);
    if e.HostReceives? && s.wire.id == i {
      assert OnTheWay(s, i) == [s.wire.park] + OnTheWay(s', i);
      assert adopted + ([s.wire.park] + OnTheWay(s', i)) == adopted + [s.wire.park] + OnTheWay(s', i);
    } else {
      assert OnTheWay(s', i) == OnTheWay(s, i);
    }
  }

  /** In every run the host adopts every stop of every worker, in order and as what it
      was, and every read it answers is swapped back under its own pin before the
      worker's next stop: what a worker owes is exactly what was adopted and what is
      still on its way. */
  lemma {:induction false} EveryStopReachesTheHost(start: Split, events: seq<Event>, i: nat) returns (owed: seq<Park>)
    requires IsRun(start, events) && i < |start.workers|
    ensures Begins(start) && i < |start.proxies|
    ensures Owes(start, events, i, owed)
    ensures Square(After(start, events), i, owed, Adoptions(start, events, i))
  {
    if events == [] {
      owed := [start.proxies[i].pending.value];
    } else {
      hide Inv, Enabled, Next, Square, SwappedBack, Begins, Announces, ParkAt;
      var last := |events| - 1;
      var s, e := After(start, events[..last]), events[last];
      var before := EveryStopReachesTheHost(start, events[..last], i);
      RunKeeps(start, events[..last]);
      SquareMeans(s, i, before, Adoptions(start, events[..last], i));
      FirstIsThere(start, i);
      if e.Parks? && s.runner.Running? && s.runner.id == i {
        var park := ParkAt(e.stop, s.workers[i].pin);
        ParkSquare(s, i, e.stop, before, Adoptions(start, events[..last], i));
        owed := before + SwappedBack(before[|before| - 1]) + [park];
        OwesOneMore(start, events, i, before, park);
      } else {
        if e.Parks? {
          RunnerRuns(s, e);
        }
        owed := before;
        OtherSquare(s, e, i, owed, Adoptions(start, events[..last], i));
      }
    }
  }

  lemma OwesOneMore(start: Split, events: seq<Event>, i: nat, before: seq<Park>, park: Park)
    requires i < |start.proxies| && start.proxies[i].pending.Some? && events != [] && before != []
    requires var s, e := After(start, events[..|events| - 1]), events[|events| - 1];
      e.Parks? && s.runner.Running? && s.runner.id == i && i < |s.workers| && Announces(park, e.stop, s.workers[i].pin)
    requires Owes(start, events[..|events| - 1], i, before)
    ensures Owes(start, events, i, before + SwappedBack(before[|before| - 1]) + [park])
  {
    hide Announces, SwappedBack, After;
  }

  lemma SquareMeans(s: Split, i: nat, owed: seq<Park>, adopted: seq<Park>)
    requires Square(s, i, owed, adopted)
    ensures owed != [] && i < |s.workers|
  {
  }

  lemma FirstIsThere(start: Split, i: nat)
    requires Begins(start) && i < |start.workers|
    ensures i < |start.proxies| && start.proxies[i].pending.Some?
  {
  }

  lemma RunnerRuns(s: Split, e: Event)
    requires Enabled(s, e) && e.Parks?
    ensures s.runner.Running?
  {
  }

  lemma RunGrows(start: Split, events: seq<Event>, e: Event)
    requires IsRun(start, events) && Enabled(After(start, events), e)
    ensures IsRun(start, events + [e]) && After(start, events + [e]) == Next(After(start, events), e)
  {
    assert (events + [e])[..|events|] == events;
  }

  // --------------------------------------------------------------- nobody is cut off

  /** The worker's code is over, as the host knows or is about to hear. */
  predicate Ended(s: Split, i: nat) {
    || (i < |s.proxies| && s.proxies[i].pending == Some(Over))
    || s.wire == ToHost(i, Over) || s.runner == WritingBack(i, Over)
  }

  /** How many steps it can take to have worker `i` running. */
  function Turns(s: Split, i: nat): nat {
    match s.runner
    case Running(id, _) => if id == i then 0 else 7
    case Listening => if s.wire.ToRunner? then (if s.wire.id == i then 1 else 8) else if s.wire.Quiet? then 2 else 3
    case WritingBack(_, _) => if s.wire.ToRunner? then 4 else if s.wire.Quiet? then 5 else 6
  }

  /** A step that brings it nearer, if it is not running already. */
  lemma NearerStep(s: Split, i: nat) returns (e: Event)
    requires Inv(s) && i < |s.workers| && !Ended(s, i) && Turns(s, i) > 0
    ensures Enabled(s, e) && Turns(Next(s, e), i) < Turns(s, i) && !Ended(Next(s, e), i) && !e.Moves? && !e.Serves?
  {
    e := match s.wire
      case ToRunner(_, _) => RunnerReceives
      case ToHost(_, _) => HostReceives
      case Quiet =>
        if s.runner.Running? then Parks(AtSwap) else if s.runner.WritingBack? then Answers(s.runner.id) else Answers(i);
  }

  /** In every run every worker whose code is not over can be brought to run on, within
      eight steps and without its pin being moved by anyone. */
  lemma {:induction false} NobodyIsCutOff(start: Split, events: seq<Event>, i: nat) returns (more: seq<Event>)
    requires IsRun(start, events) && i < |start.workers| && !Ended(After(start, events), i)
    ensures IsRun(start, events + more) && |more| <= Turns(After(start, events), i) <= 8
    ensures var s := After(start, events + more); s.runner.Running? && s.runner.id == i
    ensures forall e :: e in more ==> !e.Moves? && !e.Serves?
    decreases Turns(After(start, events), i)
  {
    hide IsRun, After, Next, Enabled, Inv, Ended;
    RunKeeps(start, events);
    var s := After(start, events);
    if Turns(s, i) == 0 {
      more := [];
      assert events + more == events;
    } else {
      var e := NearerStep(s, i);
      RunGrows(start, events, e);
      hide Turns;
      var rest := NobodyIsCutOff(start, events + [e], i);
      more := [e] + rest;
      assert events + more == events + [e] + rest;
    }
  }

  /** Wherever the host leaves the pin while it serves a worker's park on a model
      location, that is where the worker's code finds it once it is answered. */
  lemma ServedPinReachesTheWorker(start: Split, events: seq<Event>, i: nat, to: Pin)
    requires IsRun(start, events) && i < |start.workers| && i < |After(start, events).proxies|
    requires var s := After(start, events); HostHolds(s, i) && HostsTurn(s) && s.runner.Listening?
    ensures var more := [Serves(i, to), Answers(i), RunnerReceives];
      && IsRun(start, events + more) && i < |After(start, events + more).workers|
      && After(start, events + more).runner.Running? && After(start, events + more).runner.id == i
      && After(start, events + more).workers[i].pin == to
  {
    hide IsRun, After;
    RunKeeps(start, events);
    RunGrows(start, events, Serves(i, to));
    RunGrows(start, events + [Serves(i, to)], Answers(i));
    RunGrows(start, events + [Serves(i, to)] + [Answers(i)], RunnerReceives);
    assert events + [Serves(i, to), Answers(i), RunnerReceives] == events + [Serves(i, to)] + [Answers(i)] + [RunnerReceives];
  }

  /** One worker, with the host's copy of its pin at step 0. */
  function Solo(pin: int, pending: Option<Park>, runner: Runner, wire: Wire, awaiting: Option<nat>): Split {
    Split([Worker(Pinned(pin), None)], [Proxy(Pinned(0), pending)], runner, wire, awaiting)
  }

  predicate StepsTo(s: Split, e: Event, s': Split) {
    Enabled(s, e) && Next(s, e) == s'
  }

  /** Parked on the model at step 0 and resumed, the worker moves to step 1 and parks
      on a control event. */
  lemma StaleSteps()
    ensures StepsTo(Solo(0, Some(Model(Pinned(0), false)), Listening, Quiet, None), Answers(0),
                    Solo(0, None, Listening, ToRunner(0, Push(Pinned(0))), Some(0)))
    ensures StepsTo(Solo(0, None, Listening, ToRunner(0, Push(Pinned(0))), Some(0)), RunnerReceives,
                    Solo(0, None, Running(0, None), Quiet, Some(0)))
    ensures StepsTo(Solo(0, None, Running(0, None), Quiet, Some(0)), Moves(Pinned(1)),
                    Solo(1, None, Running(0, None), Quiet, Some(0)))
    ensures StepsTo(Solo(1, None, Running(0, None), Quiet, Some(0)), Parks(AtControl),
                    Solo(1, None, Listening, ToHost(0, Control), Some(0)))
    ensures StepsTo(Solo(1, None, Listening, ToHost(0, Control), Some(0)), HostReceives,
                    Solo(1, Some(Control), Listening, Quiet, None))
  {
  }

  lemma StepOn(start: Split, events: seq<Event>, e: Event, s': Split)
    requires IsRun(start, events) && StepsTo(After(start, events), e, s')
    ensures IsRun(start, events + [e]) && After(start, events + [e]) == s'
  {
    hide Enabled, Next, IsRun, After;
    RunGrows(start, events, e);
  }

  /** Why control parks keep the worker's pin: a worker that advances its loop and
      then parks on a control event leaves the host holding the previous step. */
  lemma HostCopyGoesStale()
    ensures exists start, events ::
      && IsRun(start, events)
      && After(start, events).proxies == [Proxy(Pinned(0), Some(Control))]
      && After(start, events).workers == [Worker(Pinned(1), None)]
  {
    hide IsRun, After, StepsTo;
    var start := Solo(0, Some(Model(Pinned(0), false)), Listening, Quiet, None);
    assert IsRun(start, []) && After(start, []) == start by { RunBegins(start); }
    StaleSteps();
    StepOn(start, [], Answers(0), Solo(0, None, Listening, ToRunner(0, Push(Pinned(0))), Some(0)));
    var run := [] + [Answers(0)];
    StepOn(start, run, RunnerReceives, Solo(0, None, Running(0, None), Quiet, Some(0)));
    StepOn(start, run + [RunnerReceives], Moves(Pinned(1)), Solo(1, None, Running(0, None), Quiet, Some(0)));
    run := run + [RunnerReceives] + [Moves(Pinned(1))];
    StepOn(start, run, Parks(AtControl), Solo(1, None, Listening, ToHost(0, Control), Some(0)));
    StepOn(start, run + [Parks(AtControl)], HostReceives, Solo(1, Some(Control), Listening, Quiet, None));
  }

  lemma RunBegins(start: Split)
    requires Begins(start)
    ensures IsRun(start, []) && After(start, []) == start
  {
  }
}
