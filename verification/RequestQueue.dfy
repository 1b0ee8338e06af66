/** The per-model request queue: a binary heap that must agree with the sorted
    service order (`api/queue/request_queue.py`, over CPython's `heapq`). */
module RequestQueues {
  import opened Ordering

  datatype Request = Request(id: int, priority: bool, enqueuedAt: Option<int>)

  datatype Key = Key(rank: nat, at: int, seq_: nat)

  datatype Item = Item(key: Key, request: Request)

  /** Tuple comparison. */
  predicate Before(a: Key, b: Key) {
    a.rank < b.rank || (a.rank == b.rank && (a.at < b.at || (a.at == b.at && a.seq_ < b.seq_)))
  }

  predicate Le(a: Item, b: Item) {
    !Before(b.key, a.key)
  }

  /** The counter is never the same twice. */
  predicate Numbered(h: seq<Item>) {
    forall i, j :: 0 <= i < j < |h| ==> h[i].key.seq_ != h[j].key.seq_
  }

  // ------------------------------------------------------------ service order

  predicate NumberedSet(s: set<Item>) {
    forall a, b :: a in s && b in s && a.key.seq_ == b.key.seq_ ==> a == b
  }

  predicate IsFirst(s: set<Item>, x: Item) {
    x in s && forall y :: y in s ==> Le(x, y)
  }

  lemma {:induction false} SomeFirst(s: set<Item>)
    requires s != {}
    ensures exists x :: IsFirst(s, x)
    decreases |s|
  {
    var x :| x in s;
    var rest := s - {x};
    assert forall y :: y in s ==> y == x || y in rest;
    if rest == {} {
      assert IsFirst(s, x);
    } else {
      SomeFirst(rest);
      var y :| IsFirst(rest, y);
      if Le(x, y) {
        assert IsFirst(s, x);
      } else {
        assert IsFirst(s, y);
      }
    }
  }

  /** The queued requests in the order they are served. */
  ghost function Service(s: set<Item>): seq<Item>
    decreases |s|
  {
    if s == {} then []
    else
      SomeFirst(s);
      var x :| IsFirst(s, x);
      [x] + Service(s - {x})
  }

  /** `xs` lists `s`, each once, earliest key first. */
  predicate Lists(xs: seq<Item>, s: set<Item>) {
    Elements(xs) == s && forall i, j :: 0 <= i < j < |xs| ==> Before(xs[i].key, xs[j].key)
  }

  lemma ConsLists(x: Item, rest: seq<Item>, s: set<Item>)
    requires NumberedSet(s) && IsFirst(s, x) && Lists(rest, s - {x})
    ensures Lists([x] + rest, s)
  {
    var xs := [x] + rest;
    assert Elements(xs) == {x} + Elements(rest);
    forall j | 0 <= j < |rest| ensures Before(x.key, rest[j].key) {
      assert rest[j] in Elements(rest);
    }
  }

  lemma {:induction false} ServiceLists(s: set<Item>)
    requires NumberedSet(s)
    ensures Lists(Service(s), s)
    decreases |s|
  {
    hide Lists, IsFirst;
    if s == {} {
      NothingListed();
    } else {
      SomeFirst(s);
      var x :| IsFirst(s, x) && Service(s) == [x] + Service(s - {x});
      assert x in s by { FirstIsThere(s, x); }
      ServiceLists(s - {x});
      ConsLists(x, Service(s - {x}), s);
    }
  }

  lemma NothingListed()
    ensures Lists([], {})
  {
  }

  lemma FirstIsThere(s: set<Item>, x: Item)
    requires IsFirst(s, x)
    ensures x in s
  {
  }

  /** There is only one such listing. */
  lemma {:induction false} ListingIsUnique(xs: seq<Item>, ys: seq<Item>, s: set<Item>)
    requires Lists(xs, s) && Lists(ys, s)
    ensures xs == ys
    decreases |xs|
  {
    hide Lists;
    if s == {} {
      NoneListed(xs);
      NoneListed(ys);
    } else {
      SameHead(xs, ys, s);
      TailLists(xs, s);
      TailLists(ys, s);
      ListingIsUnique(xs[1..], ys[1..], s - {xs[0]});
    }
  }

  lemma NoneListed(xs: seq<Item>)
    requires Lists(xs, {})
    ensures xs == []
  {
    assert Distinct(xs);
    DistinctCount(xs);
  }

  lemma SameHead(xs: seq<Item>, ys: seq<Item>, s: set<Item>)
    requires Lists(xs, s) && Lists(ys, s) && s != {}
    ensures xs != [] && ys != [] && xs[0] == ys[0]
  {
    var x :| x in s;
    assert x in Elements(xs) && x in Elements(ys);
    assert xs[0] in Elements(ys) by { assert xs[0] in Elements(xs); }
    assert ys[0] in Elements(xs) by { assert ys[0] in Elements(ys); }
    var i :| 0 <= i < |ys| && ys[i] == xs[0];
    var j :| 0 <= j < |xs| && xs[j] == ys[0];
  }

  lemma TailLists(xs: seq<Item>, s: set<Item>)
    requires Lists(xs, s) && xs != []
    ensures Lists(xs[1..], s - {xs[0]})
  {
    assert xs[0] !in xs[1..];
    assert Elements(xs) == {xs[0]} + Elements(xs[1..]);
  }

  lemma ServiceIs(xs: seq<Item>, s: set<Item>)
    requires NumberedSet(s) && Lists(xs, s)
    ensures Service(s) == xs
  {
    hide Lists;
    ServiceLists(s);
    ListingIsUnique(xs, Service(s), s);
  }

  /** Serving the first leaves the rest in order. */
  lemma ServingOne(s: set<Item>, x: Item)
    requires NumberedSet(s) && IsFirst(s, x)
    ensures Service(s) == [x] + Service(s - {x})
  {
    hide Lists, Service;
    ServiceLists(s - {x});
    ConsLists(x, Service(s - {x}), s);
    ServiceIs([x] + Service(s - {x}), s);
  }

  function Without(xs: seq<Item>, i: nat): seq<Item>
    requires i < |xs|
  {
    xs[..i] + xs[i + 1..]
  }

  lemma WithoutHas(xs: seq<Item>, i: nat, y: Item)
    requires i < |xs| && forall j, k :: 0 <= j < k < |xs| ==> xs[j] != xs[k]
    ensures y in Without(xs, i) <==> y in xs && y != xs[i]
  {
    var ys := Without(xs, i);
    assert forall j :: 0 <= j < |ys| ==> ys[j] == xs[if j < i then j else j + 1];
    if y in xs && y != xs[i] {
      var j :| 0 <= j < |xs| && xs[j] == y;
      assert ys[if j < i then j else j - 1] == y;
    }
  }

  lemma WithoutLists(xs: seq<Item>, s: set<Item>, i: nat)
    requires Lists(xs, s) && i < |xs|
    ensures xs[i] in s && Lists(Without(xs, i), s - {xs[i]})
  {
    assert xs[i] in Elements(xs);
    var ys := Without(xs, i);
    forall y: Item ensures y in Elements(ys) <==> y in s - {xs[i]} {
      WithoutHas(xs, i, y);
    }
    assert Elements(ys) == s - {xs[i]};
    assert forall j :: 0 <= j < |ys| ==> ys[j] == xs[if j < i then j else j + 1];
  }

  /** Taking one out leaves the rest in order. */
  lemma RemovingOne(s: set<Item>, i: nat)
    requires NumberedSet(s) && i < |Service(s)|
    ensures Service(s)[i] in s && Service(s - {Service(s)[i]}) == Without(Service(s), i)
  {
    hide Lists, Service, Without;
    ServiceLists(s);
    WithoutLists(Service(s), s, i);
    ServiceIs(Without(Service(s), i), s - {Service(s)[i]});
  }

  // ------------------------------------------------------------------ the heap

  function Parent(i: nat): nat {
    if i == 0 then 0 else (i - 1) / 2
  }

  predicate InOrder(h: seq<Item>, i: nat)
    requires 0 < i < |h|
  {
    Le(h[Parent(i)], h[i])
  }

  /** Every item from `from` down is no later than its children. */
  predicate HeapFrom(h: seq<Item>, from: nat) {
    forall i :: 0 < i < |h| && Parent(i) >= from ==> InOrder(h, i)
  }

  /** So, but for the relations of `hole` with its parent and its children. */
  predicate Around(h: seq<Item>, from: nat, hole: nat) {
    forall i :: 0 < i < |h| && Parent(i) >= from && i != hole && Parent(i) != hole ==> InOrder(h, i)
  }

  /** The hole's children are no earlier than its parent. */
  predicate Bridged(h: seq<Item>, from: nat, hole: nat) {
    0 < hole < |h| && Parent(hole) >= from ==>
      forall i :: 0 < i < |h| && Parent(i) == hole ==> Le(h[Parent(hole)], h[i])
  }

  /** The hole's item is no later than its children. */
  predicate Below(h: seq<Item>, hole: nat) {
    forall i :: 0 < i < |h| && Parent(i) == hole ==> InOrder(h, i)
  }

  /** `pos` is `root` or below it. */
  predicate Under(root: nat, pos: nat)
    decreases pos
  {
    pos == root || (pos > root && Under(root, Parent(pos)))
  }

  lemma {:induction false} UnderIsAtLeast(root: nat, pos: nat)
    requires Under(root, pos)
    ensures root <= pos
  {
  }

  function Swap(h: seq<Item>, i: nat, j: nat): (r: seq<Item>)
    requires i < |h| && j < |h|
    ensures |r| == |h|
  {
    h[i := h[j]][j := h[i]]
  }

  /** Same items, still numbered apart. */
  predicate Shuffled(h: seq<Item>, r: seq<Item>) {
    |r| == |h| && Elements(r) == Elements(h) && Numbered(r)
  }

  /** Where the item at `k` goes when `i` and `j` change places. */
  function Swapped(i: nat, j: nat, k: nat): nat {
    if k == i then j else if k == j then i else k
  }

  lemma SwapShuffles(h: seq<Item>, i: nat, j: nat)
    requires i < |h| && j < |h| && Numbered(h)
    ensures Shuffled(h, Swap(h, i, j))
  {
    var r := Swap(h, i, j);
    assert forall k :: 0 <= k < |h| ==> r[k] == h[Swapped(i, j, k)] && h[k] == r[Swapped(i, j, k)];
    SwapNumbered(h, r, i, j);
    hide Numbered, Swap;
    forall x ensures x in Elements(r) <==> x in Elements(h) {
      if x in r {
        var k :| 0 <= k < |r| && r[k] == x;
        assert h[Swapped(i, j, k)] == x;
      }
      if x in h {
        var k :| 0 <= k < |h| && h[k] == x;
        assert r[Swapped(i, j, k)] == x;
      }
    }
  }

  lemma SwapNumbered(h: seq<Item>, r: seq<Item>, i: nat, j: nat)
    requires i < |h| && j < |h| && Numbered(h) && |r| == |h|
    requires forall k :: 0 <= k < |h| ==> r[k] == h[Swapped(i, j, k)]
    ensures Numbered(r)
  {
    forall a, b | 0 <= a < b < |r| ensures r[a].key.seq_ != r[b].key.seq_ {
      var x, y := Swapped(i, j, a), Swapped(i, j, b);
      assert x != y && r[a] == h[x] && r[b] == h[y];
    }
  }

  /** `_siftdown`: the item at `pos` moves towards `start` while it is earlier than
      its parent. */
  method SiftDown(h: seq<Item>, start: nat, pos: nat) returns (r: seq<Item>)
    requires Numbered(h) && pos < |h| && Under(start, pos)
    requires Around(h, start, pos) && Bridged(h, start, pos) && Below(h, pos)
    ensures Shuffled(h, r) && HeapFrom(r, start)
  {
    hide Around, Bridged, Below, Shuffled, Numbered, Swap, HeapFrom;
    r := h;
    var p: nat := pos;
    ShuffledSelf(h);
    while p > start && Before(r[p].key, r[Parent(p)].key)
      invariant p < |r| && Shuffled(h, r) && Numbered(r) && Under(start, p)
      invariant Around(r, start, p) && Bridged(r, start, p) && Below(r, p)
      decreases p
    {
      var q := Parent(p);
      ghost var before := r;
      UnderIsAtLeast(start, q);
      ClimbStep(r, start, p);
      SwapShuffles(r, p, q);
      r := Swap(r, p, q);
      ShuffledTwice(h, before, r);
      p := q;
    }
    ClimbDone(r, start, p);
  }

  lemma ShuffledSelf(h: seq<Item>)
    requires Numbered(h)
    ensures Shuffled(h, h)
  {
  }

  lemma ShuffledTwice(a: seq<Item>, b: seq<Item>, c: seq<Item>)
    requires Shuffled(a, b) && Shuffled(b, c)
    ensures Shuffled(a, c) && Numbered(c)
  {
  }

  lemma ClimbStep(h: seq<Item>, start: nat, p: nat)
    requires start < p < |h| && start <= Parent(p) && Before(h[p].key, h[Parent(p)].key)
    requires Around(h, start, p) && Bridged(h, start, p) && Below(h, p)
    ensures var r := Swap(h, p, Parent(p));
            Around(r, start, Parent(p)) && Bridged(r, start, Parent(p)) && Below(r, Parent(p))
  {
    var q, r := Parent(p), Swap(h, p, Parent(p));
    assert q > 0 && Parent(q) >= start ==> InOrder(h, q);
    assert forall i :: 0 < i < |h| && Parent(i) == q && i != p ==> InOrder(h, i);
    assert forall i :: 0 < i < |h| && Parent(i) == p ==> InOrder(h, i);
  }

  lemma ClimbDone(h: seq<Item>, start: nat, p: nat)
    requires p < |h| && Under(start, p) && Around(h, start, p) && Below(h, p)
    requires p == start || !Before(h[p].key, h[Parent(p)].key)
    ensures HeapFrom(h, start)
  {
  }

  /** `_siftup`: the item at `pos` sinks along the earlier children to a leaf, and
      then climbs back to its place. */
  method SiftUp(h: seq<Item>, pos: nat) returns (r: seq<Item>)
    requires Numbered(h) && pos < |h| && HeapFrom(h, pos + 1)
    ensures Shuffled(h, r) && HeapFrom(r, pos)
  {
    hide Around, Bridged, Below, Shuffled, Numbered, Swap, HeapFrom;
    r := h;
    var p: nat := pos;
    var child := 2 * p + 1;
    ShuffledSelf(h);
    SinkStarts(h, pos);
    while child < |r|
      invariant p < |r| && Shuffled(h, r) && Numbered(r) && child == 2 * p + 1 && Under(pos, p)
      invariant Around(r, pos, p) && Bridged(r, pos, p)
      decreases |r| - p
    {
      var right := child + 1;
      if right < |r| && !Before(r[child].key, r[right].key) {
        child := right;
      }
      ghost var before := r;
      UnderIsAtLeast(pos, p);
      SinkStep(r, pos, p, child);
      SwapShuffles(r, p, child);
      r := Swap(r, p, child);
      ShuffledTwice(h, before, r);
      p := child;
      child := 2 * p + 1;
    }
    ghost var sunk := r;
    AtALeaf(r, p);
    r := SiftDown(r, pos, p);
    ShuffledTwice(h, sunk, r);
  }

  lemma SinkStarts(h: seq<Item>, pos: nat)
    requires HeapFrom(h, pos + 1)
    ensures Around(h, pos, pos) && Bridged(h, pos, pos)
  {
  }

  lemma AtALeaf(h: seq<Item>, p: nat)
    requires 2 * p + 1 >= |h|
    ensures Below(h, p)
  {
  }

  lemma SinkStep(h: seq<Item>, start: nat, p: nat, child: nat)
    requires start <= p && child < |h| && (child == 2 * p + 1 || child == 2 * p + 2)
    requires Around(h, start, p) && Bridged(h, start, p)
    requires child == 2 * p + 1 ==> 2 * p + 2 < |h| ==> Before(h[child].key, h[2 * p + 2].key)
    requires child == 2 * p + 2 ==> Le(h[child], h[2 * p + 1])
    ensures var r := Swap(h, p, child); Around(r, start, child) && Bridged(r, start, child)
  {
    var r := Swap(h, p, child);
    assert Parent(child) == p;
    forall i | 0 < i < |r| && Parent(i) >= start && i != child && Parent(i) != child ensures InOrder(r, i) {
      if i == p {
        assert Le(h[Parent(p)], h[child]);
      } else if Parent(i) == p {
        assert i == 2 * p + 1 || i == 2 * p + 2;
      } else {
        assert InOrder(h, i);
      }
    }
    forall i | 0 < i < |r| && Parent(i) == child ensures Le(r[p], r[i]) {
      assert InOrder(h, i);
    }
  }

  lemma {:induction false} UnderRoot(p: nat)
    ensures Under(0, p)
  {
    if p > 0 {
      UnderRoot(Parent(p));
    }
  }

  lemma {:induction false} RootIsFirst(h: seq<Item>, i: nat)
    requires HeapFrom(h, 0) && i < |h|
    ensures Le(h[0], h[i])
  {
    if i > 0 {
      RootIsFirst(h, Parent(i));
      assert InOrder(h, i);
    }
  }

  /** A heap of distinct items; what the queue's list always is. */
  predicate IsHeap(h: seq<Item>) {
    Numbered(h) && HeapFrom(h, 0)
  }

  lemma HeapSet(h: seq<Item>)
    requires Numbered(h)
    ensures NumberedSet(Elements(h)) && Distinct(h) && |Elements(h)| == |h|
  {
    forall a, b | a in Elements(h) && b in Elements(h) && a.key.seq_ == b.key.seq_ ensures a == b {
      var i :| 0 <= i < |h| && h[i] == a;
      var j :| 0 <= j < |h| && h[j] == b;
    }
    DistinctCount(h);
  }

  lemma RootIsServedNext(h: seq<Item>)
    requires IsHeap(h) && h != []
    ensures IsFirst(Elements(h), h[0])
  {
    forall y | y in Elements(h) ensures Le(h[0], y) {
      var i :| 0 <= i < |h| && h[i] == y;
      RootIsFirst(h, i);
    }
  }

  /** `heappush`. */
  method HeapPush(h: seq<Item>, x: Item) returns (r: seq<Item>)
    requires IsHeap(h) && forall y :: y in h ==> y.key.seq_ != x.key.seq_
    ensures IsHeap(r) && |r| == |h| + 1 && Elements(r) == Elements(h) + {x}
  {
    var longer := h + [x];
    UnderRoot(|h|);
    assert forall i :: 0 < i < |h| ==> InOrder(h, i) && InOrder(longer, i);
    assert Elements(longer) == Elements(h) + {x};
    r := SiftDown(longer, 0, |h|);
  }

  /** `heappop`. */
  method HeapPop(h: seq<Item>) returns (x: Item, r: seq<Item>)
    requires IsHeap(h) && h != []
    ensures IsFirst(Elements(h), x) && x == h[0]
    ensures IsHeap(r) && |r| == |h| - 1 && Elements(r) == Elements(h) - {x}
  {
    RootIsServedNext(h);
    x := h[0];
    var last, rest := h[|h| - 1], h[..|h| - 1];
    if rest == [] {
      assert h == [x];
      return x, [];
    }
    var moved := rest[0 := last];
    MovedLast(h, moved);
    r := SiftUp(moved, 0);
  }

  lemma MovedLast(h: seq<Item>, moved: seq<Item>)
    requires IsHeap(h) && |h| >= 2 && moved == h[..|h| - 1][0 := h[|h| - 1]]
    ensures Numbered(moved) && HeapFrom(moved, 1) && Elements(moved) == Elements(h) - {h[0]}
  {
    forall i | 0 < i < |moved| && Parent(i) >= 1 ensures InOrder(moved, i) {
      assert InOrder(h, i);
    }
    forall x ensures x in moved <==> x in h && x != h[0] {
      if x in h && x != h[0] {
        var i :| 0 < i < |h| && h[i] == x;
        assert moved[if i == |h| - 1 then 0 else i] == x;
      }
    }
  }

  /** `heapify`. */
  method Heapify(h: seq<Item>) returns (r: seq<Item>)
    requires Numbered(h)
    ensures IsHeap(r) && Shuffled(h, r)
  {
    hide Shuffled, Numbered, HeapFrom;
    r := h;
    var i := |h| / 2;
    ShuffledSelf(h);
    LeavesAreHeaps(h);
    while i > 0
      invariant 0 <= i <= |r| / 2 && |r| == |h| && Shuffled(h, r) && Numbered(r) && HeapFrom(r, i)
    {
      i := i - 1;
      ghost var before := r;
      r := SiftUp(r, i);
      ShuffledTwice(h, before, r);
      SameLength(before, r);
    }
  }

  lemma SameLength(h: seq<Item>, r: seq<Item>)
    requires Shuffled(h, r)
    ensures |r| == |h|
  {
  }

  lemma LeavesAreHeaps(h: seq<Item>)
    ensures HeapFrom(h, |h| / 2)
  {
  }

  // -------------------------------------------------------------- places in line

  function CountBefore(h: seq<Item>, k: Key): nat {
    if h == [] then 0 else CountBefore(h[..|h| - 1], k) + (if Before(h[|h| - 1].key, k) then 1 else 0)
  }

  function Earlier(s: set<Item>, k: Key): set<Item> {
    set x | x in s && Before(x.key, k)
  }

  lemma {:induction false} CountIsSize(h: seq<Item>, k: Key)
    requires Distinct(h)
    ensures CountBefore(h, k) == |Earlier(Elements(h), k)|
  {
    if h != [] {
      var last := |h| - 1;
      CountIsSize(h[..last], k);
      ElementsGrow(h, last);
      ElementsEnds(h);
      var was := Earlier(Elements(h[..last]), k);
      assert Earlier(Elements(h), k) == if Before(h[last].key, k) then was + {h[last]} else was;
    }
  }

  /** Counting smaller keys in the heap gives the place in the service order. */
  lemma CountIsPlace(h: seq<Item>, x: Item) returns (i: nat)
    requires Numbered(h) && x in h
    ensures i < |Service(Elements(h))| && Service(Elements(h))[i] == x && CountBefore(h, x.key) == i
  {
    hide Service;
    HeapSet(h);
    ServiceLists(Elements(h));
    var xs := Service(Elements(h));
    assert x in Elements(xs);
    i :| 0 <= i < |xs| && xs[i] == x;
    CountIsSize(h, x.key);
    FirstOnes(xs, i);
    DistinctCount(xs[..i]);
  }

  lemma FirstOnes(xs: seq<Item>, i: nat)
    requires i < |xs| && forall a, b :: 0 <= a < b < |xs| ==> Before(xs[a].key, xs[b].key)
    ensures Earlier(Elements(xs), xs[i].key) == Elements(xs[..i]) && Distinct(xs[..i])
  {
    forall x ensures x in Earlier(Elements(xs), xs[i].key) <==> x in xs[..i] {
      if x in Elements(xs) && Before(x.key, xs[i].key) {
        var j :| 0 <= j < |xs| && xs[j] == x;
        assert j < i && xs[..i][j] == x;
      }
    }
  }

  /** Two groups, each with its re-queued requests in front: which of two queued
      requests is served first. */
  lemma TiersInOrder(s: set<Item>, i: nat, j: nat)
    requires NumberedSet(s) && i < |Service(s)| && j < |Service(s)|
    ensures Service(s)[i].key.rank < Service(s)[j].key.rank ==> i < j
    ensures Service(s)[i].key.rank == Service(s)[j].key.rank && Service(s)[i].key.at < Service(s)[j].key.at ==> i < j
    ensures Before(Service(s)[i].key, Service(s)[j].key) <==> i < j
  {
    hide Service;
    ServiceLists(s);
  }

  function Requests(xs: seq<Item>): (rs: seq<Request>)
    ensures |rs| == |xs|
  {
    seq(|xs|, i requires 0 <= i < |xs| => xs[i].request)
  }

  function Rank(request: Request, prepend: bool): nat {
    (if request.priority then 0 else 1) * 2 + (if prepend then 0 else 1)
  }

  /** Re-queued ahead of every fresh request of its own group, and a normal request
      never ahead of a priority one. */
  lemma RequeueRespectsGroups(s: set<Item>, i: nat, j: nat)
    requires NumberedSet(s) && i < |Service(s)| && j < |Service(s)|
    requires forall x :: x in s ==> Filed(x)
    ensures var a, b := Service(s)[i], Service(s)[j];
      && (a.request.priority == b.request.priority && Requeued(a) && !Requeued(b) ==> i < j)
      && (a.request.priority && !b.request.priority ==> i < j)
  {
    hide Service;
    ServiceLists(s);
    assert Service(s)[i] in Elements(Service(s)) && Service(s)[j] in Elements(Service(s));
    TiersInOrder(s, i, j);
  }

  predicate Requeued(x: Item) {
    x.key.rank == Rank(x.request, true)
  }

  /** An item's key says what its request does. */
  predicate Filed(x: Item) {
    (x.key.rank == Rank(x.request, true) || x.key.rank == Rank(x.request, false)) && x.request.enqueuedAt == Some(x.key.at)
  }

  /** The longer line is the shorter one with `x` somewhere in it. */
  predicate OneMore(longer: seq<Item>, shorter: seq<Item>, x: Item) {
    exists i :: 0 <= i < |longer| && longer[i] == x && Without(longer, i) == shorter
  }

  /** A new request takes its place and moves nobody else relative to another. */
  lemma JoinsTheLine(h: seq<Item>, h': seq<Item>, x: Item)
    requires Numbered(h') && Elements(h') == Elements(h) + {x} && x !in h
    ensures OneMore(Service(Elements(h')), Service(Elements(h)), x)
  {
    assert x in Elements(h');
    LeavesTheLine(h', x);
    assert Elements(h') - {x} == Elements(h);
    hide Service, OneMore;
  }

  lemma LeavesTheLine(h: seq<Item>, x: Item)
    requires Numbered(h) && x in h
    ensures OneMore(Service(Elements(h)), Service(Elements(h) - {x}), x)
  {
    hide Service;
    var i := CountIsPlace(h, x);
    HeapSet(h);
    RemovingOne(Elements(h), i);
  }

  /** Inserting into a sorted list by key. */
  method InsertSorted(xs: seq<Item>, x: Item, ghost s: set<Item>) returns (r: seq<Item>)
    requires Lists(xs, s) && x !in s && NumberedSet(s + {x})
    ensures Lists(r, s + {x})
  {
    var i := 0;
    while i < |xs| && Before(xs[i].key, x.key)
      invariant 0 <= i <= |xs| && forall j :: 0 <= j < i ==> Before(xs[j].key, x.key)
    {
      i := i + 1;
    }
    r := xs[..i] + [x] + xs[i..];
    InsertedLists(xs, x, s, i);
  }

  lemma InsertedLists(xs: seq<Item>, x: Item, s: set<Item>, i: nat)
    requires Lists(xs, s) && x !in s && NumberedSet(s + {x}) && i <= |xs|
    requires forall j :: 0 <= j < i ==> Before(xs[j].key, x.key)
    requires i < |xs| ==> !Before(xs[i].key, x.key)
    ensures Lists(xs[..i] + [x] + xs[i..], s + {x})
  {
    var r := xs[..i] + [x] + xs[i..];
    InsertedElements(xs, x, i);
    assert forall j :: 0 <= j < |xs| ==> xs[j] in Elements(xs);
    forall j | i <= j < |xs| ensures Before(x.key, xs[j].key) {
      DifferentNumbers(s, x, xs[j]);
    }
    InsertedInOrder(xs, x, i);
  }

  lemma InsertedElements(xs: seq<Item>, x: Item, i: nat)
    requires i <= |xs|
    ensures Elements(xs[..i] + [x] + xs[i..]) == Elements(xs) + {x}
  {
    assert xs == xs[..i] + xs[i..];
  }

  lemma DifferentNumbers(s: set<Item>, x: Item, y: Item)
    requires NumberedSet(s + {x}) && x !in s && y in s
    ensures x.key.seq_ != y.key.seq_
  {
    assert x in s + {x} && y in s + {x};
  }

  lemma InsertedInOrder(xs: seq<Item>, x: Item, i: nat)
    requires i <= |xs| && forall a, b :: 0 <= a < b < |xs| ==> Before(xs[a].key, xs[b].key)
    requires forall j :: 0 <= j < i ==> Before(xs[j].key, x.key)
    requires forall j :: i <= j < |xs| ==> Before(x.key, xs[j].key)
    ensures var r := xs[..i] + [x] + xs[i..]; forall a, b :: 0 <= a < b < |r| ==> Before(r[a].key, r[b].key)
  {
    var r := xs[..i] + [x] + xs[i..];
    hide Before;
    forall a, b | 0 <= a < b < |r| ensures Before(r[a].key, r[b].key) {
      assert r[a] == (if a < i then xs[a] else if a == i then x else xs[a - 1]);
      assert r[b] == (if b < i then xs[b] else if b == i then x else xs[b - 1]);
    }
  }

  // ------------------------------------------------------------------- the class

  class RequestQueue {
    var heap: seq<Item>
    var counter: nat

    ghost predicate Valid()
      reads this
    {
      IsHeap(heap) && forall x :: x in heap ==> Filed(x) && x.key.seq_ < counter
    }

    ghost function Line(): seq<Item>
      reads this
    {
      Service(Elements(heap))
    }

    constructor ()
      ensures Valid() && heap == [] && Line() == []
    {
      heap, counter := [], 0;
    }

    method Put(request: Request, prepend: bool, now: int) returns (ghost x: Item)
      requires Valid()
      modifies this
      ensures Valid() && Elements(heap) == Elements(old(heap)) + {x} && x !in old(heap)
      ensures x.request == request.(enqueuedAt := Some(if request.enqueuedAt.Some? then request.enqueuedAt.value else now))
      ensures x.key == Key(Rank(request, prepend), x.request.enqueuedAt.value, old(counter)) && counter == old(counter) + 1
      ensures OneMore(Line(), old(Line()), x)
    {
      hide Service, OneMore, HeapFrom;
      var at := if request.enqueuedAt.Some? then request.enqueuedAt.value else now;
      var item := Item(Key(Rank(request, prepend), at, counter), request.(enqueuedAt := Some(at)));
      x := item;
      var h := HeapPush(heap, item);
      assert forall y :: y in h ==> y in Elements(h);
      assert forall y :: y in Elements(heap) ==> y in heap;
      JoinsTheLine(heap, h, item);
      heap, counter := h, counter + 1;
    }

    /** The next request to serve; None where the source would wait for one. */
    method Get() returns (r: Option<Request>)
      requires Valid()
      modifies this
      ensures Valid()
      ensures if old(Line()) == [] then r == None && heap == old(heap)
              else r == Some(old(Line())[0].request) && Line() == old(Line())[1..]
    {
      HeapSet(heap);
      if heap == [] {
        return None;
      }
      var x, h := HeapPop(heap);
      ServingOne(Elements(heap), x);
      assert forall y :: y in h ==> y in Elements(h);
      assert forall y :: y in Elements(heap) ==> y in heap;
      r, heap := Some(x.request), h;
    }

    /** `snapshot`: the requests in the order they will be served. */
    method Snapshot() returns (rs: seq<Request>)
      requires Valid()
      ensures rs == Requests(Line())
    {
      hide Lists, NumberedSet, Service;
      var xs: seq<Item> := [];
      HeapSet(heap);
      NothingListed();
      ElementsEnds(heap);
      for i := 0 to |heap|
        invariant Lists(xs, Elements(heap[..i]))
      {
        ElementsGrow(heap, i);
        NumberedPart(heap, i + 1);
        xs := InsertSorted(xs, heap[i], Elements(heap[..i]));
      }
      ServiceIs(xs, Elements(heap));
      return Requests(xs);
    }

    /** `oldest`: nobody queued in either group has waited longer. */
    method Oldest() returns (r: Option<Request>)
      requires Valid()
      ensures r.None? <==> heap == []
      ensures r.Some? ==>
        && (exists x :: x in heap && x.request == r.value)
        && (forall x :: x in heap ==> r.value.enqueuedAt.Some? && x.request.enqueuedAt.Some?
                                      && r.value.enqueuedAt.value <= x.request.enqueuedAt.value)
    {
      if heap == [] {
        return None;
      }
      var best := heap[0];
      for i := 1 to |heap|
        invariant best in heap && forall j :: 0 <= j < i ==> best.key.at <= heap[j].key.at
      {
        if heap[i].key.at < best.key.at {
          best := heap[i];
        }
      }
      assert forall x :: x in heap ==> Filed(x) && best.key.at <= x.key.at;
      return Some(best.request);
    }

    /** `position`: the 1-based place in the service order, None exactly for a
        request that is not queued. */
    method Position(id: int) returns (r: Option<nat>)
      requires Valid()
      ensures r.None? <==> forall x :: x in heap ==> x.request.id != id
      ensures r.Some? ==> 1 <= r.value <= |Line()| && Line()[r.value - 1].request.id == id
    {
      hide Service;
      var found := Find(id);
      if found.None? {
        return None;
      }
      var key := heap[found.value].key;
      var n := 0;
      for i := 0 to |heap|
        invariant n == CountBefore(heap[..i], key)
      {
        assert heap[..i + 1][..i] == heap[..i];
        n := n + (if Before(heap[i].key, key) then 1 else 0);
      }
      assert heap[..|heap|] == heap;
      ghost var place := CountIsPlace(heap, heap[found.value]);
      return Some(1 + n);
    }

    /** The first entry of the list with this id. */
    method Find(id: int) returns (r: Option<nat>)
      ensures r.None? <==> forall x :: x in heap ==> x.request.id != id
      ensures r.Some? ==> r.value < |heap| && heap[r.value].request.id == id
    {
      for i := 0 to |heap|
        invariant forall j :: 0 <= j < i ==> heap[j].request.id != id
      {
        if heap[i].request.id == id {
          return Some(i);
        }
      }
      return None;
    }

    /** `remove`: takes exactly one entry with that id out of the line, if there is
        one, and leaves the others in the order they had. */
    method Remove(id: int) returns (r: Option<Request>, ghost x: Item)
      requires Valid()
      modifies this`heap
      ensures Valid()
      ensures r.None? <==> forall x :: x in old(heap) ==> x.request.id != id
      ensures r.None? ==> heap == old(heap)
      ensures r.Some? ==> r.value.id == id && x.request == r.value && OneMore(old(Line()), Line(), x)
    {
      hide Service, OneMore, HeapFrom;
      var found := Find(id);
      if found.None? {
        return None, *;
      }
      var h := heap[..found.value] + heap[found.value + 1..];
      x := heap[found.value];
      PoppedOne(heap, found.value);
      LeavesTheLine(heap, x);
      h := Heapify(h);
      assert forall y :: y in h ==> y in Elements(h);
      assert forall y :: y in Elements(heap) ==> y in heap;
      r, heap := Some(heap[found.value].request), h;
    }

    method Clear()
      requires Valid()
      modifies this`heap
      ensures Valid() && Line() == []
    {
      heap := [];
    }

    /** Getting until the queue is empty yields the snapshot, in order. */
    method ServeAll() returns (rs: seq<Request>)
      requires Valid()
      modifies this
      ensures Valid() && Line() == [] && rs == Requests(old(Line()))
    {
      hide Service, IsHeap;
      rs := [];
      ghost var line := Line();
      while true
        invariant Valid() && |rs| <= |line| && Line() == line[|rs|..] && rs == Requests(line[..|rs|])
        decreases |line| - |rs|
      {
        var r := Get();
        if r.None? {
          assert line[..|rs|] == line;
          return;
        }
        assert line[..|rs| + 1] == line[..|rs|] + [line[|rs|]];
        rs := rs + [r.value];
      }
    }
  }

  lemma NumberedPart(h: seq<Item>, i: nat)
    requires Numbered(h) && i <= |h|
    ensures NumberedSet(Elements(h[..i]))
  {
    HeapSet(h[..i]);
  }

  lemma PoppedOne(h: seq<Item>, i: nat)
    requires Numbered(h) && i < |h|
    ensures Numbered(h[..i] + h[i + 1..]) && Elements(h[..i] + h[i + 1..]) == Elements(h) - {h[i]}
  {
    var r := h[..i] + h[i + 1..];
    assert forall j :: 0 <= j < |r| ==> r[j] == h[if j < i then j else j + 1];
    forall y ensures y in r <==> y in h && y != h[i] {
      if y in h && y != h[i] {
        var j :| 0 <= j < |h| && h[j] == y;
        assert r[if j < i then j else j - 1] == y;
      }
    }
  }
}
