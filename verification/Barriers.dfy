/** Barriers counted on the host, with releases that re-enter the count: a released
    worker may reach the same barrier, or complete another, before the rest of its
    round has been let go (`sandbox/driver.py`). */
module Barriers {
  import opened Ordering

  type Barrier = int
  type Worker = nat

  /** Where a worker parks: on a barrier, on a control event, on a model location,
      or not at all any more. */
  datatype Stop = AtBarrier(barrier: Barrier) | AtControl | AtModel | Over

  datatype Entry = Arrived(worker: Worker, barrier: Barrier) | Passed(worker: Worker, barrier: Barrier, round: nat)

  type Log = seq<Entry>

  // --------------------------------------------------------------- what is promised

  /** Arrivals at one barrier, counted off into rounds. */
  datatype Tally = Tally(full: seq<seq<Worker>>, open: seq<Worker>)

  function Counted(t: Tally, w: Worker, n: int): Tally {
    if |t.open| + 1 < n then t.(open := t.open + [w]) else Tally(t.full + [t.open + [w]], [])
  }

  /** The rounds of a barrier built for `n`: every n arrivals are one, in order. */
  function Rounds(log: Log, b: Barrier, n: int): Tally {
    if log == [] then Tally([], [])
    else
      var t, e := Rounds(log[..|log| - 1], b, n), log[|log| - 1];
      if e.Arrived? && e.barrier == b then Counted(t, e.worker, n) else t
  }

  /** Who has been let through in one round, in order. */
  function Passes(log: Log, b: Barrier, r: nat): seq<Worker> {
    if log == [] then []
    else
      var before, e := Passes(log[..|log| - 1], b, r), log[|log| - 1];
      if e.Passed? && e.barrier == b && e.round == r then before + [e.worker] else before
  }

  /** This pass is due: its round is full, of distinct workers, and the worker is
      the next of it in arrival order. */
  predicate Due(before: Log, e: Entry, size: Barrier -> int)
    requires e.Passed?
  {
    var full, done := Rounds(before, e.barrier, size(e.barrier)).full, Passes(before, e.barrier, e.round);
    && e.round < |full| && |done| < |full[e.round]| && full[e.round][|done|] == e.worker
    && done == full[e.round][..|done|] && Distinct(full[e.round])
  }

  /** Nobody passes a barrier before the round is full, and each round is let go in
      arrival order. */
  predicate Exact(log: Log, size: Barrier -> int) {
    forall k :: 0 <= k < |log| && log[k].Passed? ==> Due(log[..k], log[k], size)
  }

  /** Every full round has been let go, all of it. */
  ghost predicate Drained(log: Log, size: Barrier -> int) {
    forall b, r :: 0 <= r < |Rounds(log, b, size(b)).full| ==> Passes(log, b, r) == Rounds(log, b, size(b)).full[r]
  }

  /** A full round has as many members as the barrier was built for. */
  lemma {:induction false} RoundsHaveTheirSize(log: Log, b: Barrier, n: int, r: nat)
    requires n >= 1 && r < |Rounds(log, b, n).full|
    ensures |Rounds(log, b, n).full[r]| == n
    ensures |Rounds(log, b, n).open| < n
  {
    OpenIsShort(log, b, n);
    var last := |log| - 1;
    var t, t' := Rounds(log[..last], b, n), Rounds(log, b, n);
    OpenIsShort(log[..last], b, n);
    if r < |t.full| {
      RoundsHaveTheirSize(log[..last], b, n, r);
    }
  }

  lemma {:induction false} OpenIsShort(log: Log, b: Barrier, n: int)
    requires n >= 1
    ensures |Rounds(log, b, n).open| < n
  {
    if log != [] {
      OpenIsShort(log[..|log| - 1], b, n);
    }
  }

  // ----------------------------------------------------------------- log lemmas

  lemma LogStep(log: Log, e: Entry, b: Barrier, n: int, r: nat)
    ensures Rounds(log + [e], b, n) ==
            if e.Arrived? && e.barrier == b then Counted(Rounds(log, b, n), e.worker, n) else Rounds(log, b, n)
    ensures Passes(log + [e], b, r) ==
            if e.Passed? && e.barrier == b && e.round == r then Passes(log, b, r) + [e.worker] else Passes(log, b, r)
  {
    assert (log + [e])[..|log|] == log;
  }

  /** Full rounds are never recounted. */
  lemma {:induction false} RoundsOnlyGrow(log: Log, more: Log, b: Barrier, n: int)
    requires log <= more
    ensures Rounds(log, b, n).full <= Rounds(more, b, n).full
    decreases |more|
  {
    if |log| < |more| {
      var last := |more| - 1;
      RoundsOnlyGrow(log, more[..last], b, n);
    } else {
      assert log == more;
    }
  }

  lemma ExactStep(log: Log, e: Entry, size: Barrier -> int)
    requires Exact(log, size) && (e.Passed? ==> Due(log, e, size))
    ensures Exact(log + [e], size)
  {
    var more := log + [e];
    forall k | 0 <= k < |more| && more[k].Passed? ensures Due(more[..k], more[k], size) {
      if k < |log| {
        assert more[..k] == log[..k];
      } else {
        assert more[..k] == log;
      }
    }
  }

  lemma {:induction false} MembersArrived(log: Log, b: Barrier, n: int)
    ensures forall w :: w in Rounds(log, b, n).open ==> Arrived(w, b) in log
    ensures forall r, w :: 0 <= r < |Rounds(log, b, n).full| && w in Rounds(log, b, n).full[r] ==> Arrived(w, b) in log
  {
    if log != [] {
      var last := |log| - 1;
      MembersArrived(log[..last], b, n);
      assert log == log[..last] + [log[last]];
    }
  }

  /** Nobody passes a barrier built for n before n distinct workers, itself among
      them, have arrived there in its round. */
  lemma PassNeedsAWholeRound(log: Log, size: Barrier -> int, k: nat)
    requires Exact(log, size) && k < |log| && log[k].Passed? && size(log[k].barrier) >= 1
    ensures var b := log[k].barrier;
      var full := Rounds(log[..k], b, size(b)).full;
      && log[k].round < |full|
      && |Elements(full[log[k].round])| == size(b) && log[k].worker in full[log[k].round]
      && forall w :: w in full[log[k].round] ==> Arrived(w, b) in log[..k]
  {
    var b, r := log[k].barrier, log[k].round;
    assert Due(log[..k], log[k], size);
    hide Rounds, Passes;
    MembersArrived(log[..k], b, size(b));
    RoundsHaveTheirSize(log[..k], b, size(b), r);
    DistinctCount(Rounds(log[..k], b, size(b)).full[r]);
  }

  /** A worker that comes back to a barrier it passed is counted in a later round. */
  lemma ReturningStartsANewRound(log: Log, size: Barrier -> int, p: nat, a: nat)
    requires Exact(log, size) && p < a < |log| && log[p].Passed? && log[a].Arrived? && log[a].barrier == log[p].barrier
    ensures var b, n := log[p].barrier, size(log[p].barrier);
      && log[p].round < |Rounds(log[..a], b, n).full|
      && Rounds(log[..a + 1], b, n) == Counted(Rounds(log[..a], b, n), log[a].worker, n)
  {
    assert Due(log[..p], log[p], size);
    assert log[..p] <= log[..a];
    RoundsOnlyGrow(log[..p], log[..a], log[p].barrier, size(log[p].barrier));
    assert log[..a + 1] == log[..a] + [log[a]];
    LogStep(log[..a], log[a], log[p].barrier, size(log[p].barrier), 0);
  }

  // ----------------------------------------------------------------- the invariant

  /** Where a worker is: free, counted in an open round, or in a full one and still
      to be let go. */
  datatype Place = Free | Waits(barrier: Barrier) | Owed(barrier: Barrier, round: nat)

  function Registered(registry: map<Barrier, seq<Worker>>, b: Barrier): seq<Worker> {
    if b in registry then registry[b] else []
  }

  predicate OpenOk(waiting: seq<Worker>, t: Tally, b: Barrier, place: seq<Place>) {
    && waiting == t.open && Distinct(t.open)
    && (forall w :: w in t.open ==> w < |place|)
    && (forall w :: 0 <= w < |place| ==> (place[w] == Waits(b) <==> w in t.open))
  }

  predicate RoundOk(round: seq<Worker>, done: seq<Worker>, b: Barrier, r: nat, place: seq<Place>) {
    && done <= round && Distinct(round)
    && forall j :: |done| <= j < |round| ==> round[j] < |place| && place[round[j]] == Owed(b, r)
  }

  predicate Parked(pending: seq<Stop>, place: seq<Place>) {
    && |place| == |pending|
    && forall w :: 0 <= w < |place| && !place[w].Free? ==> pending[w] == AtBarrier(place[w].barrier)
  }

  ghost predicate Inv(size: Barrier -> int, registry: map<Barrier, seq<Worker>>, pending: seq<Stop>,
                      place: seq<Place>, log: Log) {
    && Parked(pending, place) && Exact(log, size)
    && (forall b :: OpenOk(Registered(registry, b), Rounds(log, b, size(b)), b, place))
    && (forall b, r :: 0 <= r < |Rounds(log, b, size(b)).full| ==>
          RoundOk(Rounds(log, b, size(b)).full[r], Passes(log, b, r), b, r, place))
  }

  /** The place of every worker of a round that just filled. */
  function Marked(place: seq<Place>, ws: seq<Worker>, p: Place): (r: seq<Place>)
    ensures |r| == |place|
    ensures forall w :: 0 <= w < |place| ==> r[w] == if w in ws then p else place[w]
  {
    seq(|place|, w requires 0 <= w < |place| => if w in ws then p else place[w])
  }

  lemma OpenStays(waiting: seq<Worker>, t: Tally, b: Barrier, place: seq<Place>, place': seq<Place>)
    requires OpenOk(waiting, t, b, place) && |place'| == |place|
    requires forall w :: 0 <= w < |place| ==> (place[w] == Waits(b) <==> place'[w] == Waits(b))
    ensures OpenOk(waiting, t, b, place')
  {
  }

  lemma RoundStays(round: seq<Worker>, done: seq<Worker>, b: Barrier, r: nat, place: seq<Place>, place': seq<Place>)
    requires RoundOk(round, done, b, r, place) && |place'| == |place|
    requires forall w :: 0 <= w < |place| && place[w] == Owed(b, r) ==> place'[w] == place[w]
    ensures RoundOk(round, done, b, r, place')
  {
  }

  lemma InvParts(size: Barrier -> int, registry: map<Barrier, seq<Worker>>, pending: seq<Stop>, place: seq<Place>,
                 log: Log, b: Barrier)
    requires Inv(size, registry, pending, place, log)
    ensures Parked(pending, place) && Exact(log, size)
    ensures OpenOk(Registered(registry, b), Rounds(log, b, size(b)), b, place)
    ensures forall r :: 0 <= r < |Rounds(log, b, size(b)).full| ==>
              RoundOk(Rounds(log, b, size(b)).full[r], Passes(log, b, r), b, r, place)
  {
  }

  /** Rounds the step does not touch stay as they were. */
  lemma OthersStay(size: Barrier -> int, registry: map<Barrier, seq<Worker>>, pending: seq<Stop>, place: seq<Place>,
                   log: Log, e: Entry, place': seq<Place>, c: Barrier, r: nat)
    requires Inv(size, registry, pending, place, log) && |place'| == |place| && r < |Rounds(log, c, size(c)).full|
    requires !(e.Passed? && e.barrier == c && e.round == r)
    requires forall w :: 0 <= w < |place| && place[w] == Owed(c, r) ==> place'[w] == place[w]
    ensures r < |Rounds(log + [e], c, size(c)).full|
    ensures RoundOk(Rounds(log + [e], c, size(c)).full[r], Passes(log + [e], c, r), c, r, place')
  {
    hide Rounds, Passes, RoundOk, Exact, OpenOk, Parked;
    InvParts(size, registry, pending, place, log, c);
    LogStep(log, e, c, size(c), r);
    RoundStays(Rounds(log, c, size(c)).full[r], Passes(log, c, r), c, r, place, place');
  }

  lemma ArrivesOpen(size: Barrier -> int, registry: map<Barrier, seq<Worker>>, pending: seq<Stop>, place: seq<Place>,
                    log: Log, w: Worker, b: Barrier)
    requires Inv(size, registry, pending, place, log) && w < |place| && place[w].Free? && pending[w] == AtBarrier(b)
    requires |Registered(registry, b)| + 1 < size(b)
    ensures Inv(size, registry[b := Registered(registry, b) + [w]], pending, place[w := Waits(b)], log + [Arrived(w, b)])
  {
    hide Rounds, Passes, Exact, RoundOk, OpenOk, Inv;
    var e := Arrived(w, b);
    var log', place' := log + [e], place[w := Waits(b)];
    var registry' := registry[b := Registered(registry, b) + [w]];
    InvParts(size, registry, pending, place, log, b);
    ExactStep(log, e, size);
    LogStep(log, e, b, size(b), 0);
    Joins(Registered(registry, b), Rounds(log, b, size(b)), b, place, w);
    forall c ensures OpenOk(Registered(registry', c), Rounds(log', c, size(c)), c, place') {
      if c != b {
        LogStep(log, e, c, size(c), 0);
        InvParts(size, registry, pending, place, log, c);
        OpenStays(Registered(registry, c), Rounds(log, c, size(c)), c, place, place');
      }
    }
    forall c, r | 0 <= r < |Rounds(log', c, size(c)).full|
      ensures RoundOk(Rounds(log', c, size(c)).full[r], Passes(log', c, r), c, r, place')
    {
      LogStep(log, e, c, size(c), r);
      OthersStay(size, registry, pending, place, log, e, place', c, r);
    }
    InvWhole(size, registry', pending, place', log');
  }

  lemma Joins(waiting: seq<Worker>, t: Tally, b: Barrier, place: seq<Place>, w: Worker)
    requires OpenOk(waiting, t, b, place) && w < |place| && place[w].Free?
    ensures OpenOk(waiting + [w], t.(open := t.open + [w]), b, place[w := Waits(b)])
    ensures w !in waiting && waiting == t.open && Distinct(waiting + [w])
    ensures forall v :: v in waiting + [w] ==> v < |place| && !place[v].Owed?
  {
  }

  lemma InvWhole(size: Barrier -> int, registry: map<Barrier, seq<Worker>>, pending: seq<Stop>, place: seq<Place>, log: Log)
    requires Parked(pending, place) && Exact(log, size)
    requires forall b :: OpenOk(Registered(registry, b), Rounds(log, b, size(b)), b, place)
    requires forall b, r :: 0 <= r < |Rounds(log, b, size(b)).full| ==>
               RoundOk(Rounds(log, b, size(b)).full[r], Passes(log, b, r), b, r, place)
    ensures Inv(size, registry, pending, place, log)
  {
  }

  lemma {:induction false} NoPassesYet(log: Log, size: Barrier -> int, b: Barrier, r: nat)
    requires Exact(log, size) && r >= |Rounds(log, b, size(b)).full|
    ensures Passes(log, b, r) == []
  {
    if log != [] {
      var last := |log| - 1;
      assert forall k :: 0 <= k < last ==> log[..last][..k] == log[..k];
      RoundsOnlyGrow(log[..last], log, b, size(b));
      NoPassesYet(log[..last], size, b, r);
      assert log[last].Passed? ==> Due(log[..last], log[last], size);
    }
  }

  lemma ArrivesFull(size: Barrier -> int, registry: map<Barrier, seq<Worker>>, pending: seq<Stop>, place: seq<Place>,
                    log: Log, w: Worker, b: Barrier)
    requires Inv(size, registry, pending, place, log) && w < |place| && place[w].Free? && pending[w] == AtBarrier(b)
    requires |Registered(registry, b)| + 1 >= size(b)
    ensures var ws, q := Registered(registry, b) + [w], |Rounds(log, b, size(b)).full|;
      && Inv(size, registry - {b}, pending, Marked(place, ws, Owed(b, q)), log + [Arrived(w, b)])
      && Rounds(log + [Arrived(w, b)], b, size(b)).full == Rounds(log, b, size(b)).full + [ws]
      && Passes(log + [Arrived(w, b)], b, q) == []
      && (forall v :: v in ws ==> v < |place| && !place[v].Owed?)
      && forall v :: v in ws ==> v == w || place[v] == Waits(b)
  {
    hide Rounds, Passes, Exact, RoundOk, OpenOk, Inv, Marked, Distinct;
    var e := Arrived(w, b);
    var ws, q := Registered(registry, b) + [w], |Rounds(log, b, size(b)).full|;
    var log', place', registry' := log + [e], Marked(place, ws, Owed(b, q)), registry - {b};
    InvParts(size, registry, pending, place, log, b);
    ExactStep(log, e, size);
    NoPassesYet(log, size, b, q);
    LogStep(log, e, b, size(b), q);
    Joins(Registered(registry, b), Rounds(log, b, size(b)), b, place, w);
    forall c ensures OpenOk(Registered(registry', c), Rounds(log', c, size(c)), c, place') {
      MembersOf(Registered(registry, b), Rounds(log, b, size(b)), b, place, w);
      if c == b {
        NoneOpen(b, place', Rounds(log', b, size(b)).full);
      } else {
        LogStep(log, e, c, size(c), 0);
        InvParts(size, registry, pending, place, log, c);
        OpenStays(Registered(registry, c), Rounds(log, c, size(c)), c, place, place');
      }
    }
    forall c, r | 0 <= r < |Rounds(log', c, size(c)).full|
      ensures RoundOk(Rounds(log', c, size(c)).full[r], Passes(log', c, r), c, r, place')
    {
      LogStep(log, e, c, size(c), r);
      if c != b || r < q {
        OthersStay(size, registry, pending, place, log, e, place', c, r);
      } else {
        AllOwed(ws, b, q, place');
      }
    }
    MembersOf(Registered(registry, b), Rounds(log, b, size(b)), b, place, w);
    assert Parked(pending, place');
    InvWhole(size, registry', pending, place', log');
  }

  lemma NoneOpen(b: Barrier, place: seq<Place>, full: seq<seq<Worker>>)
    requires forall w :: 0 <= w < |place| ==> place[w] != Waits(b)
    ensures OpenOk([], Tally(full, []), b, place)
  {
  }

  lemma MembersOf(waiting: seq<Worker>, t: Tally, b: Barrier, place: seq<Place>, w: Worker)
    requires OpenOk(waiting, t, b, place)
    ensures forall v :: v in waiting + [w] ==> v == w || (v < |place| && place[v] == Waits(b))
    ensures forall v :: 0 <= v < |place| && place[v] == Waits(b) ==> v in waiting + [w]
  {
  }

  lemma AllOwed(ws: seq<Worker>, b: Barrier, q: nat, place: seq<Place>)
    requires Distinct(ws) && forall w :: w in ws ==> w < |place| && place[w] == Owed(b, q)
    ensures RoundOk(ws, [], b, q, place)
  {
    assert forall j :: 0 <= j < |ws| ==> ws[j] in ws;
  }

  lemma Passing(size: Barrier -> int, registry: map<Barrier, seq<Worker>>, pending: seq<Stop>, place: seq<Place>,
                log: Log, w: Worker, b: Barrier, r: nat, k: nat)
    requires Inv(size, registry, pending, place, log) && r < |Rounds(log, b, size(b)).full|
    requires var round := Rounds(log, b, size(b)).full[r]; k < |round| && round[k] == w && Passes(log, b, r) == round[..k]
    ensures w < |place| && Inv(size, registry, pending, place[w := Free], log + [Passed(w, b, r)])
    ensures place[w] == Owed(b, r)
    ensures Rounds(log + [Passed(w, b, r)], b, size(b)) == Rounds(log, b, size(b))
    ensures Passes(log + [Passed(w, b, r)], b, r) == Rounds(log, b, size(b)).full[r][..k + 1]
  {
    hide Rounds, Passes, Exact, RoundOk, OpenOk, Inv, Distinct;
    var e := Passed(w, b, r);
    var round := Rounds(log, b, size(b)).full[r];
    InvParts(size, registry, pending, place, log, b);
    NextOwed(round, k, b, r, place);
    var log', place' := log + [e], place[w := Free];
    ExactStep(log, e, size);
    LogStep(log, e, b, size(b), r);
    assert round[..k + 1] == round[..k] + [w];
    forall c ensures OpenOk(Registered(registry, c), Rounds(log', c, size(c)), c, place') {
      LogStep(log, e, c, size(c), 0);
      InvParts(size, registry, pending, place, log, c);
      OpenStays(Registered(registry, c), Rounds(log, c, size(c)), c, place, place');
    }
    forall c, q | 0 <= q < |Rounds(log', c, size(c)).full|
      ensures RoundOk(Rounds(log', c, size(c)).full[q], Passes(log', c, q), c, q, place')
    {
      LogStep(log, e, c, size(c), q);
      if c != b || q != r {
        OthersStay(size, registry, pending, place, log, e, place', c, q);
      }
    }
    InvWhole(size, registry, pending, place', log');
  }

  lemma NextOwed(round: seq<Worker>, k: nat, b: Barrier, r: nat, place: seq<Place>)
    requires k < |round| && RoundOk(round, round[..k], b, r, place)
    ensures round[k] < |place| && place[round[k]] == Owed(b, r) && Distinct(round)
    ensures RoundOk(round, round[..k + 1], b, r, place[round[k] := Free])
  {
  }

  /** What a call leaves alone: everyone still to be let go by a caller further up,
      and no one else is left so; and the passes of every round that was full when
      the call began. */
  ghost predicate Kept(size: Barrier -> int, log: Log, place: seq<Place>, log': Log, place': seq<Place>) {
    && log <= log' && |place'| == |place|
    && (forall w :: 0 <= w < |place| && (place[w].Owed? || place'[w].Owed?) ==> place'[w] == place[w])
    && (forall b, r :: 0 <= r < |Rounds(log, b, size(b)).full| ==> Passes(log', b, r) == Passes(log, b, r))
  }

  lemma KeptTransitive(size: Barrier -> int, l0: Log, p0: seq<Place>, l1: Log, p1: seq<Place>, l2: Log, p2: seq<Place>)
    requires Kept(size, l0, p0, l1, p1) && Kept(size, l1, p1, l2, p2)
    ensures Kept(size, l0, p0, l2, p2)
  {
    forall b, r | 0 <= r < |Rounds(l0, b, size(b)).full| ensures Passes(l2, b, r) == Passes(l0, b, r) {
      RoundsOnlyGrow(l0, l1, b, size(b));
    }
  }

  /** The release loop of round `q` of barrier `b` after `k` workers, seen from the
      moment the round filled. */
  ghost predicate Halfway(size: Barrier -> int, b: Barrier, q: nat, ws: seq<Worker>, k: nat,
                          log: Log, place: seq<Place>, log': Log, place': seq<Place>) {
    && k <= |ws| && log <= log' && |place'| == |place|
    && q < |Rounds(log, b, size(b)).full| && Rounds(log, b, size(b)).full[q] == ws
    && Passes(log', b, q) == ws[..k]
    && (forall w :: 0 <= w < |place| && place[w].Owed? && w !in ws[..k] ==> place'[w] == place[w])
    && (forall w :: 0 <= w < |place| && place'[w].Owed? ==> place'[w] == place[w] && w !in ws[..k])
    && (forall c, r :: 0 <= r < |Rounds(log, c, size(c)).full| && (c != b || r != q) ==>
          Passes(log', c, r) == Passes(log, c, r))
  }

  lemma HalfwayStep(size: Barrier -> int, b: Barrier, q: nat, ws: seq<Worker>, k: nat,
                    log: Log, place: seq<Place>, l1: Log, p1: seq<Place>, l2: Log, p2: seq<Place>)
    requires Halfway(size, b, q, ws, k, log, place, l1, p1) && k < |ws| && ws[k] < |p1|
    requires Kept(size, l1 + [Passed(ws[k], b, q)], p1[ws[k] := Free], l2, p2)
    ensures Halfway(size, b, q, ws, k + 1, log, place, l2, p2)
  {
    var e := Passed(ws[k], b, q);
    var mid := l1 + [e];
    assert ws[..k + 1] == ws[..k] + [ws[k]];
    assert log <= mid <= l2;
    hide Rounds, Passes;
    forall c, r | 0 <= r < |Rounds(log, c, size(c)).full|
      ensures r < |Rounds(mid, c, size(c)).full|
      ensures Passes(mid, c, r) == if c == b && r == q then Passes(l1, c, r) + [ws[k]] else Passes(l1, c, r)
    {
      RoundsOnlyGrow(log, mid, c, size(c));
      LogStep(l1, e, c, size(c), r);
    }
  }

  lemma HalfwayStarts(size: Barrier -> int, b: Barrier, q: nat, ws: seq<Worker>, log: Log, place: seq<Place>)
    requires q < |Rounds(log, b, size(b)).full| && Rounds(log, b, size(b)).full[q] == ws && Passes(log, b, q) == []
    ensures Halfway(size, b, q, ws, 0, log, place, log, place)
  {
  }

  /** The next worker of the round is still the next. */
  lemma StillNext(size: Barrier -> int, b: Barrier, q: nat, ws: seq<Worker>, k: nat,
                  log: Log, place: seq<Place>, log': Log, place': seq<Place>)
    requires Halfway(size, b, q, ws, k, log, place, log', place') && k < |ws|
    ensures q < |Rounds(log', b, size(b)).full| && Rounds(log', b, size(b)).full[q] == ws && Passes(log', b, q) == ws[..k]
    ensures |place'| == |place|
  {
    RoundsOnlyGrow(log, log', b, size(b));
  }

  lemma Reparked(size: Barrier -> int, registry: map<Barrier, seq<Worker>>, pending: seq<Stop>, place: seq<Place>,
                 log: Log, w: Worker, stop: Stop)
    requires Inv(size, registry, pending, place, log) && w < |place| && place[w].Free?
    ensures w < |pending| && Inv(size, registry, pending[w := stop], place, log)
  {
  }

  lemma ParkedIsFree(size: Barrier -> int, registry: map<Barrier, seq<Worker>>, pending: seq<Stop>, place: seq<Place>,
                     log: Log, w: Worker)
    requires Inv(size, registry, pending, place, log) && w < |pending| && !pending[w].AtBarrier?
    ensures w < |place| && place[w].Free?
  {
  }

  lemma KeptReflexive(size: Barrier -> int, log: Log, place: seq<Place>)
    ensures Kept(size, log, place, log, place)
  {
  }

  /** A round let go whole leaves alone what the call that filled it must. */
  lemma ReleasedAll(size: Barrier -> int, b: Barrier, q: nat, ws: seq<Worker>, w: Worker,
                    l0: Log, p0: seq<Place>, l1: Log, p1: seq<Place>, l2: Log, p2: seq<Place>)
    requires l1 == l0 + [Arrived(w, b)] && q == |Rounds(l0, b, size(b)).full|
    requires |p1| == |p0| && forall v :: 0 <= v < |p0| && v !in ws ==> p1[v] == p0[v]
    requires forall v :: v in ws ==> v < |p0| && !p0[v].Owed?
    requires Halfway(size, b, q, ws, |ws|, l1, p1, l2, p2)
    ensures Kept(size, l0, p0, l2, p2)
  {
    hide Rounds, Passes;
    assert l0 <= l1 <= l2 && ws[..|ws|] == ws;
    forall c, r | 0 <= r < |Rounds(l0, c, size(c)).full| ensures Passes(l2, c, r) == Passes(l0, c, r) {
      RoundsOnlyGrow(l0, l1, c, size(c));
      LogStep(l0, Arrived(w, b), c, size(c), r);
    }
  }

  lemma ArrivalKeeps(size: Barrier -> int, log: Log, place: seq<Place>, w: Worker, b: Barrier)
    requires w < |place| && !place[w].Owed?
    ensures Kept(size, log, place, log + [Arrived(w, b)], place[w := Waits(b)])
  {
    forall c, r | 0 <= r < |Rounds(log, c, size(c)).full|
      ensures Passes(log + [Arrived(w, b)], c, r) == Passes(log, c, r)
    {
      LogStep(log, Arrived(w, b), c, size(c), r);
    }
  }

  /** With nobody left to let go, every full round has been let go. */
  lemma NobodyOwed(size: Barrier -> int, registry: map<Barrier, seq<Worker>>, pending: seq<Stop>, place: seq<Place>, log: Log)
    requires Inv(size, registry, pending, place, log)
    requires forall w :: 0 <= w < |place| ==> !place[w].Owed?
    ensures Exact(log, size) && Drained(log, size)
  {
    forall b, r | 0 <= r < |Rounds(log, b, size(b)).full|
      ensures Passes(log, b, r) == Rounds(log, b, size(b)).full[r]
    {
      var round, done := Rounds(log, b, size(b)).full[r], Passes(log, b, r);
      assert RoundOk(round, done, b, r, place);
      if |done| < |round| {
        StillOwed(round, done, b, r, place);
        assert false;
      }
    }
  }

  lemma StillOwed(round: seq<Worker>, done: seq<Worker>, b: Barrier, r: nat, place: seq<Place>)
    requires RoundOk(round, done, b, r, place) && |done| < |round|
    ensures round[|done|] < |place| && place[round[|done|]].Owed?
  {
  }

  // ---------------------------------------------------------- the log as a record

  /** What the log says of one worker: barriers gone into and come out of. */
  datatype Mark = In(barrier: Barrier) | Out(barrier: Barrier)

  function MarkOf(e: Entry): Mark {
    if e.Arrived? then In(e.barrier) else Out(e.barrier)
  }

  function Marks(log: Log, w: Worker): seq<Mark> {
    if log == [] then []
    else
      var e := log[|log| - 1];
      Marks(log[..|log| - 1], w) + (if e.worker == w then [MarkOf(e)] else [])
  }

  /** Going into and out of every barrier among `stops`, in order. */
  function Crossings(stops: seq<Stop>): seq<Mark> {
    if stops == [] then []
    else
      var stop := stops[|stops| - 1];
      Crossings(stops[..|stops| - 1]) + (if stop.AtBarrier? then [In(stop.barrier), Out(stop.barrier)] else [])
  }

  predicate Suffix(given: seq<Stop>, left: seq<Stop>) {
    |left| <= |given| && given[|given| - |left|..] == left
  }

  /** The stops a worker has already come to. */
  function Taken(given: seq<Stop>, left: seq<Stop>): seq<Stop>
    requires Suffix(given, left)
  {
    given[..|given| - |left|]
  }

  /** One worker between calls: it is parked on the last stop it came to, the log
      holds it going into and out of every barrier before, and if that stop is a
      barrier it has gone in there and is waiting. */
  predicate Recorded(given: seq<Stop>, left: seq<Stop>, stop: Stop, at: Place, marks: seq<Mark>) {
    && Suffix(given, left)
    && var taken := Taken(given, left);
       if at.Free? then
         && !stop.AtBarrier? && marks == Crossings(taken)
         && (if stop == Over && left == [] then true
             else if taken == [] then stop == AtModel else stop == taken[|taken| - 1])
       else
         && taken != [] && stop == AtBarrier(at.barrier) && taken[|taken| - 1] == stop
         && marks == Crossings(taken[..|taken| - 1]) + [In(at.barrier)]
  }

  /** A worker being resumed: out of every barrier it came to. */
  predicate Between(given: seq<Stop>, left: seq<Stop>, at: Place, marks: seq<Mark>) {
    at.Free? && Suffix(given, left) && marks == Crossings(Taken(given, left))
  }

  /** A worker that has just come to `stop`. */
  predicate Coming(given: seq<Stop>, left: seq<Stop>, stop: Stop, at: Place, marks: seq<Mark>) {
    && at.Free? && Suffix(given, left) && Taken(given, left) != []
    && var taken := Taken(given, left);
       taken[|taken| - 1] == stop && marks == Crossings(taken[..|taken| - 1])
  }

  /** Every worker but `w` is recorded; none is left out when `w` is negative. */
  predicate AllBut(given: seq<seq<Stop>>, scripts: seq<seq<Stop>>, pending: seq<Stop>, place: seq<Place>, log: Log, w: int) {
    && |given| == |scripts| == |pending| == |place|
    && forall v :: 0 <= v < |place| && v != w ==> Recorded(given[v], scripts[v], pending[v], place[v], Marks(log, v))
  }

  lemma MarksStep(log: Log, e: Entry, v: Worker)
    ensures Marks(log + [e], v) == Marks(log, v) + (if e.worker == v then [MarkOf(e)] else [])
  {
    assert (log + [e])[..|log|] == log;
  }

  predicate SamePlace(a: Place, b: Place) {
    (a.Free? <==> b.Free?) && (!a.Free? ==> a.barrier == b.barrier)
  }

  /** A step of `w` leaves the others recorded. */
  lemma OthersRecorded(given: seq<seq<Stop>>, scripts: seq<seq<Stop>>, pending: seq<Stop>, place: seq<Place>, log: Log,
                       e: Entry, place': seq<Place>)
    requires AllBut(given, scripts, pending, place, log, e.worker) && |place'| == |place|
    requires forall v :: 0 <= v < |place| && v != e.worker ==> SamePlace(place[v], place'[v])
    ensures AllBut(given, scripts, pending, place', log + [e], e.worker)
  {
    hide Crossings, Marks;
    forall v | 0 <= v < |place| && v != e.worker
      ensures Recorded(given[v], scripts[v], pending[v], place'[v], Marks(log + [e], v))
    {
      MarksStep(log, e, v);
      assert Recorded(given[v], scripts[v], pending[v], place[v], Marks(log, v));
    }
  }

  /** Coming to a barrier and being counted there. */
  lemma CountedIn(given: seq<Stop>, left: seq<Stop>, b: Barrier, at: Place, at': Place, log: Log, w: Worker)
    requires Coming(given, left, AtBarrier(b), at, Marks(log, w)) && !at'.Free? && at'.barrier == b
    ensures Recorded(given, left, AtBarrier(b), at', Marks(log + [Arrived(w, b)], w))
  {
    MarksStep(log, Arrived(w, b), w);
  }

  /** Being let through. */
  lemma LetThrough(given: seq<Stop>, left: seq<Stop>, stop: Stop, b: Barrier, r: nat, log: Log, w: Worker)
    requires Recorded(given, left, stop, Owed(b, r), Marks(log, w))
    ensures Between(given, left, Free, Marks(log + [Passed(w, b, r)], w))
  {
    MarksStep(log, Passed(w, b, r), w);
    var taken := Taken(given, left);
    assert [In(b)] + [Out(b)] == [In(b), Out(b)];
  }

  /** Taking the next stop of the script. */
  lemma Comes(given: seq<Stop>, left: seq<Stop>, at: Place, marks: seq<Mark>)
    requires Between(given, left, at, marks) && left != []
    ensures Coming(given, left[1..], left[0], at, marks)
  {
    var taken := Taken(given, left);
    assert left[0] == given[|given| - |left|];
    assert Taken(given, left[1..]) == taken + [left[0]];
  }

  lemma ComesElsewhere(given: seq<Stop>, left: seq<Stop>, stop: Stop, at: Place, marks: seq<Mark>)
    requires Coming(given, left, stop, at, marks) && !stop.AtBarrier?
    ensures Recorded(given, left, stop, at, marks)
  {
  }

  lemma IsBetween(given: seq<Stop>, left: seq<Stop>, stop: Stop, at: Place, marks: seq<Mark>)
    requires Recorded(given, left, stop, at, marks) && !stop.AtBarrier?
    ensures Between(given, left, at, marks)
  {
  }

  lemma OneRecorded(given: seq<seq<Stop>>, scripts: seq<seq<Stop>>, pending: seq<Stop>, place: seq<Place>, log: Log, w: Worker)
    requires AllBut(given, scripts, pending, place, log, -1) && w < |place|
    ensures Recorded(given[w], scripts[w], pending[w], place[w], Marks(log, w))
    ensures AllBut(given, scripts, pending, place, log, w)
  {
  }

  lemma AllRecorded(given: seq<seq<Stop>>, scripts: seq<seq<Stop>>, pending: seq<Stop>, place: seq<Place>, log: Log, w: Worker)
    requires AllBut(given, scripts, pending, place, log, w)
    requires w < |place| ==> Recorded(given[w], scripts[w], pending[w], place[w], Marks(log, w))
    ensures AllBut(given, scripts, pending, place, log, -1)
  {
  }

  /** With nobody left to let go, the workers parked on a barrier are exactly those
      registered there. */
  ghost predicate Waiting(registry: map<Barrier, seq<Worker>>, pending: seq<Stop>) {
    forall v, b :: 0 <= v < |pending| ==> (pending[v] == AtBarrier(b) <==> v in Registered(registry, b))
  }

  lemma WaitingIsRegistered(size: Barrier -> int, given: seq<seq<Stop>>, scripts: seq<seq<Stop>>,
                            registry: map<Barrier, seq<Worker>>, pending: seq<Stop>, place: seq<Place>, log: Log)
    requires Inv(size, registry, pending, place, log) && AllBut(given, scripts, pending, place, log, -1)
    requires forall v :: 0 <= v < |place| ==> !place[v].Owed?
    ensures Waiting(registry, pending)
  {
    hide Crossings, Marks, Rounds;
    forall v, b | 0 <= v < |pending| ensures pending[v] == AtBarrier(b) <==> v in Registered(registry, b) {
      assert Recorded(given[v], scripts[v], pending[v], place[v], Marks(log, v));
      InvParts(size, registry, pending, place, log, b);
    }
  }

  /** No worker gets stops back. */
  predicate Shrinks(scripts: seq<seq<Stop>>, scripts': seq<seq<Stop>>) {
    |scripts'| == |scripts| && forall v :: 0 <= v < |scripts| ==> |scripts'[v]| <= |scripts[v]|
  }

  // -------------------------------------------------------------------- the class

  /** Parks the workers still have before them. */
  function Remaining(scripts: seq<seq<Stop>>): nat {
    if scripts == [] then 0 else |scripts[0]| + Remaining(scripts[1..])
  }

  lemma {:induction false} RemainingPops(scripts: seq<seq<Stop>>, w: nat)
    requires w < |scripts| && scripts[w] != []
    ensures Remaining(scripts[w := scripts[w][1..]]) == Remaining(scripts) - 1
  {
    if w == 0 {
      assert scripts[0 := scripts[0][1..]][1..] == scripts[1..];
    } else {
      RemainingPops(scripts[1..], w - 1);
      assert scripts[w := scripts[w][1..]][1..] == scripts[1..][w - 1 := scripts[w][1..]];
    }
  }

  /** What the workers are parked on and have still to come to. */
  datatype Front = Front(scripts: seq<seq<Stop>>, pending: seq<Stop>)

  /** `w` was resumed if it was parked on a model location, and then went on to its
      next stop or finished; otherwise nothing moved. */
  predicate Turn(w: Worker, f: Front, f': Front) {
    if w < |f.pending| && w < |f.scripts| && f.pending[w] == AtModel then
      && Shrinks(f.scripts, f'.scripts) && w < |f'.pending| && w < |f'.scripts|
      && if f.scripts[w] == [] then f'.pending[w] == Over else |f'.scripts[w]| < |f.scripts[w]|
    else f' == f
  }

  /** The workers of `order` had their turns, one after another. */
  ghost predicate Driven(order: seq<Worker>, f: Front, f': Front) {
    if order == [] then f' == f
    else
      var last := |order| - 1;
      exists mid :: Driven(order[..last], f, mid) && Turn(order[last], mid, f')
  }

  lemma DrivenOn(order: seq<Worker>, i: nat, f: Front, mid: Front, f': Front)
    requires i < |order| && Driven(order[..i], f, mid) && Turn(order[i], mid, f')
    ensures Driven(order[..i + 1], f, f')
  {
    assert order[..i + 1][..i] == order[..i];
  }

  /** The driver's side of the barriers. What each worker goes on to park on is
      arbitrary: `given` holds it, `scripts` what is left of it, and a RESUME takes
      the next. */
  class Driver {
    const size: Barrier -> int
    ghost const given: seq<seq<Stop>>
    var scripts: seq<seq<Stop>>
    var registry: map<Barrier, seq<Worker>>
    var pending: seq<Stop>
    ghost var log: Log
    ghost var place: seq<Place>

    ghost predicate Valid()
      reads this
    {
      |given| == |scripts| == |pending| == |place| && Inv(size, registry, pending, place, log)
    }

    /** The log is a record of every worker's stops, but for `w` in mid-step. */
    ghost predicate Logged(w: int)
      reads this
    {
      AllBut(given, scripts, pending, place, log, w)
    }

    /** Between calls: every worker is recorded, nobody is left to let go, and those
        parked on a barrier are those registered there. */
    ghost predicate Still()
      reads this
    {
      Valid() && Logged(-1) && Waiting(registry, pending) && forall v :: 0 <= v < |place| ==> !place[v].Owed?
    }

    constructor (size: Barrier -> int, scripts: seq<seq<Stop>>)
      ensures Still() && this.size == size && this.scripts == scripts && given == scripts && log == []
      ensures |pending| == |scripts| && forall w :: 0 <= w < |pending| ==> pending[w] == AtModel
    {
      this.size, this.scripts, registry := size, scripts, map[];
      given := scripts;
      pending := seq(|scripts|, _ => AtModel);
      log, place := [], seq(|scripts|, _ => Free);
    }

    /** `barrier_arrival`: the n-th arrival empties the registry entry and then
        lets the whole round go, earliest first. */
    method BarrierArrival(w: Worker, b: Barrier)
      requires Valid() && w < |place| && place[w].Free? && pending[w] == AtBarrier(b)
      requires Logged(w) && Coming(given[w], scripts[w], AtBarrier(b), place[w], Marks(log, w))
      modifies this
      ensures Valid() && Logged(-1) && Shrinks(old(scripts), scripts) && Remaining(scripts) <= old(Remaining(scripts))
      ensures old(log) + [Arrived(w, b)] <= log
      ensures Kept(size, old(log), old(place), log, place)
      decreases Remaining(scripts), 3
    {
      hide Inv, Kept, Halfway, Rounds, Passes, AllBut, Coming, Marks, Recorded;
      ghost var l0, p0 := log, place;
      var waiting := Registered(registry, b) + [w];
      if |waiting| < size(b) {
        ArrivesOpen(size, registry, pending, place, log, w, b);
        ArrivalKeeps(size, log, place, w, b);
        OthersRecorded(given, scripts, pending, place, log, Arrived(w, b), place[w := Waits(b)]);
        CountedIn(given[w], scripts[w], b, place[w], Waits(b), log, w);
        registry := registry[b := waiting];
        log, place := log + [Arrived(w, b)], place[w := Waits(b)];
        AllRecorded(given, scripts, pending, place, log, w);
        return;
      }
      ghost var q := |Rounds(log, b, size(b)).full|;
      ArrivesFull(size, registry, pending, place, log, w, b);
      OthersRecorded(given, scripts, pending, place, log, Arrived(w, b), Marked(place, waiting, Owed(b, q)));
      CountedIn(given[w], scripts[w], b, place[w], Owed(b, q), log, w);
      registry := registry - {b};
      log, place := log + [Arrived(w, b)], Marked(place, waiting, Owed(b, q));
      assert w in waiting;
      AllRecorded(given, scripts, pending, place, log, w);
      ghost var l1, p1 := log, place;
      assert Rounds(l1, b, size(b)).full[q] == waiting;
      LetAllGo(b, waiting, q, l1, p1);
      ReleasedAll(size, b, q, waiting, w, l0, p0, l1, p1, log, place);
    }

    /** The loop that releases a full round. */
    method LetAllGo(b: Barrier, waiting: seq<Worker>, ghost q: nat, ghost l1: Log, ghost p1: seq<Place>)
      requires Valid() && Logged(-1) && log == l1 && place == p1 && forall v :: v in waiting ==> v < |place|
      requires q < |Rounds(log, b, size(b)).full| && Rounds(log, b, size(b)).full[q] == waiting && Passes(log, b, q) == []
      modifies this
      ensures Valid() && Logged(-1) && Shrinks(old(scripts), scripts) && Remaining(scripts) <= old(Remaining(scripts))
      ensures Halfway(size, b, q, waiting, |waiting|, l1, p1, log, place) && l1 <= log
      decreases Remaining(scripts), 2, 1
    {
      hide Inv, Kept, Halfway, Rounds, Passes, AllBut, Marks, Recorded;
      HalfwayStarts(size, b, q, waiting, l1, p1);
      for k := 0 to |waiting|
        invariant Valid() && Logged(-1) && Shrinks(old(scripts), scripts) && Remaining(scripts) <= old(Remaining(scripts))
        invariant Halfway(size, b, q, waiting, k, l1, p1, log, place)
      {
        ghost var l, p := log, place;
        StillNext(size, b, q, waiting, k, l1, p1, log, place);
        assert waiting[k] in waiting;
        Release(waiting[k], b, q, k);
        HalfwayStep(size, b, q, waiting, k, l1, p1, l, p, log, place);
      }
      HalfwayGrows(size, b, q, waiting, l1, p1, log, place);
    }

    /** `release`: the worker is resumed out of its barrier park and its next park
        adopted, wherever that is. */
    method Release(w: Worker, b: Barrier, ghost q: nat, ghost k: nat)
      requires Valid() && Logged(-1) && q < |Rounds(log, b, size(b)).full| && k < |Rounds(log, b, size(b)).full[q]|
      requires Rounds(log, b, size(b)).full[q][k] == w && Passes(log, b, q) == Rounds(log, b, size(b)).full[q][..k]
      requires w < |place|
      modifies this
      ensures Valid() && Logged(-1) && Shrinks(old(scripts), scripts) && Remaining(scripts) <= old(Remaining(scripts))
      ensures if old(scripts[w]) == [] then pending[w] == Over else |scripts[w]| < |old(scripts[w])|
      ensures Kept(size, old(log) + [Passed(w, b, q)], old(place)[w := Free], log, place)
      decreases Remaining(scripts), 2, 0
    {
      hide Kept, Rounds, Passes, AllBut, Marks, Recorded, Between;
      Passing(size, registry, pending, place, log, w, b, q, k);
      OneRecorded(given, scripts, pending, place, log, w);
      LetThrough(given[w], scripts[w], pending[w], b, q, log, w);
      OthersRecorded(given, scripts, pending, place, log, Passed(w, b, q), place[w := Free]);
      log, place := log + [Passed(w, b, q)], place[w := Free];
      Resume(w);
    }

    /** A RESUME and the park that answers it, with control parks drained. */
    method Resume(w: Worker)
      requires Valid() && w < |place| && place[w].Free?
      requires Logged(w) && Between(given[w], scripts[w], place[w], Marks(log, w))
      modifies this
      ensures Valid() && Logged(-1) && Shrinks(old(scripts), scripts) && Remaining(scripts) <= old(Remaining(scripts))
      ensures if old(scripts[w]) == [] then pending[w] == Over else |scripts[w]| < |old(scripts[w])|
      ensures Kept(size, old(log), old(place), log, place)
      decreases Remaining(scripts), 1
    {
      hide Inv, Kept, AllBut, Marks, Between;
      ghost var l, p := log, place;
      NextPark(w);
      if pending[w] == AtControl {
        ghost var l1, p1 := log, place;
        SettleControl(w);
        KeptTransitive(size, l, p, l1, p1, log, place);
      }
    }

    /** The worker's next park, adopted; None once it has finished. */
    method NextPark(w: Worker)
      requires Valid() && w < |place| && place[w].Free?
      requires Logged(w) && Between(given[w], scripts[w], place[w], Marks(log, w))
      modifies this
      ensures Valid() && Logged(-1) && Shrinks(old(scripts), scripts) && Remaining(scripts) <= old(Remaining(scripts))
      ensures if old(scripts[w]) == [] then pending[w] == Over else |scripts[w]| < |old(scripts[w])|
      ensures pending[w] == AtControl ==> Remaining(scripts) < old(Remaining(scripts))
      ensures Kept(size, old(log), old(place), log, place)
      decreases Remaining(scripts), 0
    {
      hide Inv, Kept, AllBut, Marks, Between, Coming, Recorded;
      if scripts[w] == [] {
        Reparked(size, registry, pending, place, log, w, Over);
        Finishes(given, scripts, pending, place, log, w);
        pending := pending[w := Over];
        KeptReflexive(size, log, place);
        return;
      }
      var stop := scripts[w][0];
      RemainingPops(scripts, w);
      Comes(given[w], scripts[w], place[w], Marks(log, w));
      TakesAStop(given, scripts, pending, place, log, w);
      scripts := scripts[w := scripts[w][1..]];
      Adopt(w, stop);
    }

    /** `adopt`: a barrier park is counted at once. */
    method Adopt(w: Worker, stop: Stop)
      requires Valid() && w < |place| && place[w].Free?
      requires Logged(w) && Coming(given[w], scripts[w], stop, place[w], Marks(log, w))
      modifies this
      ensures Valid() && Logged(-1) && Shrinks(old(scripts), scripts) && Remaining(scripts) <= old(Remaining(scripts))
      ensures stop.AtBarrier? ==> old(log) + [Arrived(w, stop.barrier)] <= log
      ensures !stop.AtBarrier? ==> log == old(log) && scripts == old(scripts) && pending == old(pending)[w := stop]
      ensures Kept(size, old(log), old(place), log, place)
      decreases Remaining(scripts), 4
    {
      hide Inv, Kept, AllBut, Marks, Coming, Recorded;
      Reparked(size, registry, pending, place, log, w, stop);
      KeptReflexive(size, log, place);
      ParksOn(given, scripts, pending, place, log, w, stop);
      pending := pending[w := stop];
      if stop.AtBarrier? {
        BarrierArrival(w, stop.barrier);
      } else {
        ComesElsewhere(given[w], scripts[w], stop, place[w], Marks(log, w));
        AllRecorded(given, scripts, pending, place, log, w);
      }
    }

    /** `settle_control`: control parks are answered until the worker is elsewhere. */
    method SettleControl(w: Worker)
      requires Valid() && Logged(-1) && w < |pending|
      modifies this
      ensures Valid() && Logged(-1) && Shrinks(old(scripts), scripts) && Remaining(scripts) <= old(Remaining(scripts))
      ensures Kept(size, old(log), old(place), log, place)
      ensures pending[w] != AtControl && (old(pending[w]) != AtControl ==> log == old(log) && pending == old(pending))
      decreases Remaining(scripts), 5
    {
      hide Inv, Kept, AllBut, Marks, Between, Recorded;
      ghost var l0, p0 := log, place;
      KeptReflexive(size, log, place);
      while pending[w] == AtControl
        invariant Valid() && Logged(-1) && Shrinks(old(scripts), scripts) && Remaining(scripts) <= old(Remaining(scripts))
        invariant Kept(size, l0, p0, log, place)
        invariant old(pending[w]) != AtControl ==> log == old(log) && pending == old(pending)
        decreases Remaining(scripts), if pending[w] == AtControl then 1 else 0
      {
        ghost var l, p := log, place;
        ParkedIsFree(size, registry, pending, place, log, w);
        OneRecorded(given, scripts, pending, place, log, w);
        IsBetween(given[w], scripts[w], pending[w], place[w], Marks(log, w));
        NextPark(w);
        KeptTransitive(size, l0, p0, l, p, log, place);
      }
    }

    /** The host resuming a worker it has served: whatever that sets off, every
        pass was due, every park on the way was counted, and when the call returns
        every full round is through. */
    method Switch(w: Worker)
      requires Still() && w < |pending| && pending[w] == AtModel
      modifies this
      ensures Still() && Shrinks(old(scripts), scripts) && old(log) <= log
      ensures if old(scripts[w]) == [] then pending[w] == Over else |scripts[w]| < |old(scripts[w])|
      ensures Exact(log, size) && Drained(log, size)
    {
      hide Inv, AllBut, Marks, Between, Recorded, Waiting, Exact, Drained, Rounds, Passes;
      ParkedIsFree(size, registry, pending, place, log, w);
      OneRecorded(given, scripts, pending, place, log, w);
      IsBetween(given[w], scripts[w], pending[w], place[w], Marks(log, w));
      Resume(w);
      NobodyOwed(size, registry, pending, place, log);
      WaitingIsRegistered(size, given, scripts, registry, pending, place, log);
    }

    /** A whole run: the workers' first parks and then every resume the forward
        pass brings, in whatever order. */
    method Drive(order: seq<Worker>)
      requires Still() && log == []
      modifies this
      ensures Still() && Exact(log, size) && Drained(log, size)
      ensures Driven(order, old(Front(scripts, pending)), Front(scripts, pending))
    {
      hide Inv, AllBut, Waiting, Exact, Drained, Driven, Shrinks;
      ghost var start := Front(scripts, pending);
      NobodyOwed(size, registry, pending, place, log);
      assert order[..0] == [] && Driven(order[..0], start, start) by { DrivenNot(start); }
      for i := 0 to |order|
        invariant Still() && Exact(log, size) && Drained(log, size)
        invariant Driven(order[..i], start, Front(scripts, pending))
      {
        ghost var mid := Front(scripts, pending);
        if order[i] < |pending| && pending[order[i]] == AtModel {
          Switch(order[i]);
        }
        DrivenOn(order, i, start, mid, Front(scripts, pending));
      }
      assert order[..|order|] == order;
    }
  }

  lemma DrivenNot(f: Front)
    ensures Driven([], f, f)
  {
  }

  lemma HalfwayGrows(size: Barrier -> int, b: Barrier, q: nat, ws: seq<Worker>, log: Log, place: seq<Place>,
                     log': Log, place': seq<Place>)
    requires Halfway(size, b, q, ws, |ws|, log, place, log', place')
    ensures log <= log'
  {
  }

  lemma Finishes(given: seq<seq<Stop>>, scripts: seq<seq<Stop>>, pending: seq<Stop>, place: seq<Place>, log: Log, w: Worker)
    requires AllBut(given, scripts, pending, place, log, w) && w < |place| && scripts[w] == []
    requires Between(given[w], scripts[w], place[w], Marks(log, w))
    ensures AllBut(given, scripts, pending[w := Over], place, log, -1)
  {
    hide Crossings, Marks;
  }

  lemma TakesAStop(given: seq<seq<Stop>>, scripts: seq<seq<Stop>>, pending: seq<Stop>, place: seq<Place>, log: Log, w: Worker)
    requires AllBut(given, scripts, pending, place, log, w) && w < |place| && scripts[w] != []
    ensures AllBut(given, scripts[w := scripts[w][1..]], pending, place, log, w)
  {
    hide Crossings, Marks;
  }

  lemma ParksOn(given: seq<seq<Stop>>, scripts: seq<seq<Stop>>, pending: seq<Stop>, place: seq<Place>, log: Log, w: Worker, stop: Stop)
    requires AllBut(given, scripts, pending, place, log, w) && w < |place|
    ensures AllBut(given, scripts, pending[w := stop], place, log, w)
  {
    hide Crossings, Marks;
  }
}
