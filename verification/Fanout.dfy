/** One channel-shaped view over several peers that must agree, and the followers
    that send it signatures instead of payloads (`sandbox/protocol.py`,
    `sandbox/host.py`). */
module PeerFanout {
  import opened Ordering

  /** Received messages, as far as telling events apart goes. */
  datatype Py = Null | Atom(id: int) | List(items: seq<Py>) | Tuple(items: seq<Py>)

  function FirstOf(items: seq<Py>): Py {
    if items == [] then Null else items[0]
  }

  /** `signature_of`: the event name, from `(values, kwargs)` or from a bare value. */
  function SignatureOf(m: Py): Py {
    if m.Tuple? && |m.items| == 2 && (m.items[0].List? || m.items[0].Tuple?) then FirstOf(m.items[0].items)
    else if m.List? || m.Tuple? then FirstOf(m.items)
    else m
  }

  /** What a follower sends in place of `m`. */
  function FollowerForm(m: Py): Py {
    Tuple([SignatureOf(m)])
  }

  /** The receiver reads the same signature off a follower's message as off the
      message it stands for, whatever that is. */
  lemma SignatureSurvives(m: Py)
    ensures SignatureOf(FollowerForm(m)) == SignatureOf(m)
  {
  }

  /** How the event `name` arrives: on its own, at the head of a decoded sequence, or at
      the head of the values of an unpacked message. */
  predicate Announces(m: Py, name: int) {
    || m == Atom(name)
    || ((m.List? || m.Tuple?) && m.items != [] && m.items[0] == Atom(name))
    || (m.Tuple? && |m.items| == 2 && (m.items[0].List? || m.items[0].Tuple?)
        && m.items[0].items != [] && m.items[0].items[0] == Atom(name))
  }

  /** Messages get the same signature exactly when they are of the same event, however
      each of them arrives and whatever it carries. */
  lemma EventsToldApart(m: Py, a: int, n: Py, b: int)
    requires Announces(m, a) && Announces(n, b)
    ensures SignatureOf(m) == SignatureOf(n) <==> a == b
    ensures SignatureOf(FollowerForm(m)) == SignatureOf(n) <==> a == b
  {
  }

  datatype Outcome = Got(message: Py) | RanksDiverged

  /** Everyone has something to say, and says the same. */
  predicate Agree(inboxes: seq<seq<Py>>) {
    && (forall i :: 0 <= i < |inboxes| ==> inboxes[i] != [])
    && (forall i :: 0 <= i < |inboxes| ==> SignatureOf(inboxes[i][0]) == SignatureOf(inboxes[0][0]))
  }

  function Rest(inbox: seq<Py>, n: nat): seq<Py> {
    if n <= |inbox| then inbox[n..] else []
  }

  /** Each inbox less its first `n`. */
  function Advanced(inboxes: seq<seq<Py>>, n: nat): (r: seq<seq<Py>>)
    ensures |r| == |inboxes|
  {
    seq(|inboxes|, i requires 0 <= i < |inboxes| => Rest(inboxes[i], n))
  }

  /** Part way through a barrier: whoever is not waited for has been read once. */
  predicate Halfway(was: seq<seq<Py>>, now: seq<seq<Py>>, waiting: set<nat>, received: map<nat, Py>) {
    && |now| == |was|
    && (forall i :: i in waiting ==> i < |was|)
    && (forall i :: 0 <= i < |was| ==>
          if i in waiting then now[i] == was[i] && i !in received
          else was[i] != [] && now[i] == was[i][1..] && i in received && received[i] == was[i][0])
  }

  /** One of the peers a `select` reports ready, any one; None once the deadline
      has passed with nobody waited for having sent anything. */
  method Select(inboxes: seq<seq<Py>>, waiting: set<nat>) returns (ready: Option<nat>)
    requires forall i :: i in waiting ==> i < |inboxes|
    ensures ready.Some? ==> ready.value in waiting && inboxes[ready.value] != []
    ensures ready.None? ==> forall i :: i in waiting ==> inboxes[i] == []
  {
    var able: set<nat> := set i: nat | i in waiting && inboxes[i] != [];
    if able == {} {
      assert forall i :: i in waiting && inboxes[i] != [] ==> i in able;
      return None;
    }
    var i :| i in able;
    return Some(i);
  }

  /** The peers, each with the messages that reach this end of its channel in time. */
  class Fanout {
    var inboxes: seq<seq<Py>>

    constructor (inboxes: seq<seq<Py>>)
      requires inboxes != []
      ensures this.inboxes == inboxes
    {
      this.inboxes := inboxes;
    }

    /** `recv`: one message from every peer, in whatever order they come; the first
        peer's, exactly when all have one and all agree. */
    method Recv() returns (r: Outcome)
      requires inboxes != []
      modifies this
      ensures r.Got? <==> Agree(old(inboxes))
      ensures r.Got? ==> r.message == old(inboxes)[0][0] && inboxes == Advanced(old(inboxes), 1)
      ensures |inboxes| == |old(inboxes)|
    {
      hide Halfway, Agree, Advanced, SignatureOf;
      ghost var was := inboxes;
      var waiting := UpTo(|inboxes|);
      var received: map<nat, Py> := map[];
      NoneRead(was, waiting);
      while waiting != {}
        invariant Halfway(was, inboxes, waiting, received)
        decreases |waiting|
      {
        Within(was, inboxes, waiting, received);
        var ready := Select(inboxes, waiting);
        if ready.None? {
          NotAll(was, inboxes, waiting, received);
          return RanksDiverged;
        }
        var i := ready.value;
        TakesOne(was, inboxes, waiting, received, i);
        Fewer(waiting - {i}, waiting);
        received, waiting := received[i := inboxes[i][0]], waiting - {i};
        inboxes := inboxes[i := inboxes[i][1..]];
      }
      AllRead(was, inboxes, received);
      if forall i :: 0 <= i < |inboxes| ==> SignatureOf(received[i]) == SignatureOf(received[0]) {
        return Got(received[0]);
      }
      return RanksDiverged;
    }

    /** `n` calls of `recv`. They all succeed exactly when for each of the first `n`
        events every peer is at the same one, and then the answers are the first
        peer's messages in order and every peer has been read just as far. */
    method RecvMany(n: nat) returns (r: Option<seq<Py>>)
      requires inboxes != []
      modifies this
      ensures r.Some? <==> Aligned(old(inboxes), n)
      ensures r.Some? ==> r.value == old(inboxes)[0][..n] && inboxes == Advanced(old(inboxes), n)
    {
      hide Agree, Advanced, Aligned;
      ghost var was := inboxes;
      var got := [];
      StartsAligned(was);
      for i := 0 to n
        invariant Aligned(was, i) && inboxes == Advanced(was, i) && inboxes != []
        invariant i <= |was[0]| && got == was[0][..i]
      {
        AlignedStep(was, i);
        var one := Recv();
        if one.RanksDiverged? {
          NotAligned(was, i + 1, n);
          return None;
        }
        got := got + [one.message];
      }
      return Some(got);
    }
  }

  lemma NoneRead(was: seq<seq<Py>>, waiting: set<nat>)
    requires forall i: nat :: i in waiting <==> i < |was|
    ensures Halfway(was, was, waiting, map[])
  {
  }

  lemma Within(was: seq<seq<Py>>, now: seq<seq<Py>>, waiting: set<nat>, received: map<nat, Py>)
    requires Halfway(was, now, waiting, received)
    ensures |now| == |was| && forall i :: i in waiting ==> i < |now|
  {
  }

  lemma Fewer(a: set<nat>, b: set<nat>)
    requires a < b
    ensures |a| < |b|
  {
    assert b == a + (b - a) && |b - a| > 0;
  }

  lemma TakesOne(was: seq<seq<Py>>, now: seq<seq<Py>>, waiting: set<nat>, received: map<nat, Py>, i: nat)
    requires Halfway(was, now, waiting, received) && i in waiting && i < |now| && now[i] != []
    ensures Halfway(was, now[i := now[i][1..]], waiting - {i}, received[i := now[i][0]])
  {
  }

  lemma NotAll(was: seq<seq<Py>>, now: seq<seq<Py>>, waiting: set<nat>, received: map<nat, Py>)
    requires Halfway(was, now, waiting, received) && waiting != {} && forall i :: i in waiting ==> now[i] == []
    ensures !Agree(was)
  {
    var i :| i in waiting;
    assert was[i] == [];
  }

  lemma AllRead(was: seq<seq<Py>>, now: seq<seq<Py>>, received: map<nat, Py>)
    requires Halfway(was, now, {}, received) && was != []
    ensures now == Advanced(was, 1)
    ensures forall i :: 0 <= i < |was| ==> i in received && received[i] == was[i][0]
    ensures Agree(was) <==> forall i :: 0 <= i < |was| ==> SignatureOf(received[i]) == SignatureOf(received[0])
  {
  }

  // --------------------------------------------------------------- whole runs

  /** For each of the first `n` events, every peer has sent its message for it and
      all of them name the same event. */
  predicate Aligned(inboxes: seq<seq<Py>>, n: nat) {
    && (forall i :: 0 <= i < |inboxes| ==> n <= |inboxes[i]|)
    && (forall i, k :: 0 <= i < |inboxes| && 0 <= k < n ==> SignatureOf(inboxes[i][k]) == SignatureOf(inboxes[0][k]))
  }

  lemma StartsAligned(was: seq<seq<Py>>)
    ensures Aligned(was, 0) && Advanced(was, 0) == was
  {
    assert forall i :: 0 <= i < |was| ==> was[i][0..] == was[i];
  }

  lemma AlignedStep(was: seq<seq<Py>>, i: nat)
    requires Aligned(was, i) && was != []
    ensures Aligned(was, i + 1) <==> Agree(Advanced(was, i))
    ensures Aligned(was, i + 1) ==>
      && Advanced(Advanced(was, i), 1) == Advanced(was, i + 1) && i < |was[0]|
      && Advanced(was, i)[0][0] == was[0][i] && was[0][..i + 1] == was[0][..i] + [was[0][i]]
  {
    var now := Advanced(was, i);
    assert forall j :: 0 <= j < |was| ==> now[j] == was[j][i..] && (now[j] != [] <==> i < |was[j]|);
    assert forall j :: 0 <= j < |was| && i < |was[j]| ==> now[j][0] == was[j][i] && now[j][1..] == was[j][i + 1..];
  }

  lemma NotAligned(was: seq<seq<Py>>, some: nat, all: nat)
    requires some <= all && !Aligned(was, some)
    ensures !Aligned(was, all)
  {
  }

  /** What a leader and its followers send for the same run of events. */
  function Wired(values: seq<seq<Py>>): (inboxes: seq<seq<Py>>)
    ensures |inboxes| == |values|
  {
    seq(|values|, i requires 0 <= i < |values| =>
      if i == 0 then values[0]
      else seq(|values[i]|, k requires 0 <= k < |values[i]| => FollowerForm(values[i][k])))
  }

  /** Sending signatures instead of payloads changes nothing about when the group is
      in step: followers are accepted, over a whole run, exactly when each of them is
      at the same event as the leader every time. */
  lemma FollowersAlignLikePayloads(values: seq<seq<Py>>, n: nat)
    ensures Aligned(Wired(values), n) <==> Aligned(values, n)
  {
    hide SignatureOf, FollowerForm;
    var w := Wired(values);
    assert forall i :: 0 <= i < |values| ==> |w[i]| == |values[i]|;
    forall i, k | 0 <= i < |values| && 0 <= k < |values[i]|
      ensures SignatureOf(w[i][k]) == SignatureOf(values[i][k])
    {
      SignatureSurvives(values[i][k]);
    }
    if forall i :: 0 <= i < |values| ==> n <= |values[i]| {
      forall i, k | 0 <= i < |values| && 0 <= k < n
        ensures SignatureOf(w[i][k]) == SignatureOf(w[0][k]) <==> SignatureOf(values[i][k]) == SignatureOf(values[0][k])
      {
        assert n <= |values[0]|;
      }
    }
  }
}
