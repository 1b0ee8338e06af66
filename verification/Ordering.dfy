/** Sequences, sets and the stable sort the placement code leans on. */
module Ordering {

  datatype Option<+T> = None | Some(value: T)

  predicate Distinct<T(==)>(xs: seq<T>) {
    forall i, j :: 0 <= i < j < |xs| ==> xs[i] != xs[j]
  }

  predicate SortedBy<T>(xs: seq<T>, key: T -> int) {
    forall i, j :: 0 <= i < j < |xs| ==> key(xs[i]) <= key(xs[j])
  }

  function Elements<T(==)>(xs: seq<T>): set<T> {
    set x | x in xs
  }

  function UpTo(n: nat): (s: set<nat>)
    ensures forall i: nat :: i in s <==> i < n
    ensures |s| == n
  {
    if n == 0 then {}
    else
      var less := UpTo(n - 1);
      assert n - 1 !in less;
      less + {n - 1}
  }

  /** A sequence without repetition has as many elements as positions. */
  lemma {:induction false} DistinctCount<T>(xs: seq<T>)
    requires Distinct(xs)
    ensures |Elements(xs)| == |xs|
  {
    if xs != [] {
      var rest := xs[..|xs| - 1];
      DistinctCount(rest);
      ElementsGrow(xs, |xs| - 1);
      ElementsEnds(xs);
      hide Elements, Distinct;
    }
  }

  lemma ElementsGrow<T>(xs: seq<T>, i: nat)
    requires Distinct(xs) && i < |xs|
    ensures Elements(xs[..i + 1]) == Elements(xs[..i]) + {xs[i]}
    ensures xs[i] !in Elements(xs[..i]) && xs[i] in Elements(xs)
  {
    assert xs[..i + 1] == xs[..i] + [xs[i]];
  }

  lemma ElementsEnds<T>(xs: seq<T>)
    ensures Elements(xs[..0]) == {} && Elements(xs[..|xs|]) == Elements(xs)
  {
    assert xs[..|xs|] == xs;
  }

  /** Taking keys out of a map in two steps. */
  lemma MinusTwice<K, V>(m: map<K, V>, a: set<K>, b: set<K>)
    ensures (m - a) - b == m - (a + b)
  {
  }

  /** Puts `x` in front of the first element whose key is not smaller. */
  function Insert<T(!new)>(x: T, ys: seq<T>, key: T -> int): (zs: seq<T>)
    requires SortedBy(ys, key)
    ensures SortedBy(zs, key)
    ensures |zs| == |ys| + 1
    ensures forall z :: z in zs <==> z == x || z in ys
  {
    if ys == [] || key(x) <= key(ys[0]) then [x] + ys
    else
      var rest := Insert(x, ys[1..], key);
      assert forall i :: 0 <= i < |rest| ==> rest[i] in rest;
      assert forall z :: z in rest ==> key(ys[0]) <= key(z);
      [ys[0]] + rest
  }

  /** Python's `sorted(xs, key=key)`. */
  function SortBy<T(!new)>(xs: seq<T>, key: T -> int): (ys: seq<T>)
    ensures SortedBy(ys, key)
    ensures |ys| == |xs|
    ensures forall y :: y in ys <==> y in xs
  {
    if xs == [] then [] else Insert(xs[0], SortBy(xs[1..], key), key)
  }

  lemma {:induction false} InsertDistinct<T(!new)>(x: T, ys: seq<T>, key: T -> int)
    requires SortedBy(ys, key) && Distinct(ys) && x !in ys
    ensures Distinct(Insert(x, ys, key))
  {
    if ys != [] && key(x) > key(ys[0]) {
      InsertDistinct(x, ys[1..], key);
      assert ys[0] !in Insert(x, ys[1..], key) by {
        assert forall j :: 1 <= j < |ys| ==> ys[j] != ys[0];
      }
    }
  }

  lemma {:induction false} SortDistinct<T(!new)>(xs: seq<T>, key: T -> int)
    requires Distinct(xs)
    ensures Distinct(SortBy(xs, key))
  {
    if xs != [] {
      SortDistinct(xs[1..], key);
      assert xs[0] !in xs[1..];
      InsertDistinct(xs[0], SortBy(xs[1..], key), key);
    }
  }

  /** Some listing of a finite set: stands for whatever order a dictionary or a
      Python set is walked in. */
  method Listing<T(==)>(s: set<T>) returns (xs: seq<T>)
    ensures Distinct(xs) && |xs| == |s| && Elements(xs) == s
    ensures forall x :: x in xs <==> x in s
  {
    xs := [];
    var rest := s;
    while rest != {}
      invariant rest <= s && Distinct(xs) && |xs| + |rest| == |s|
      invariant forall x :: x in xs <==> x in s && x !in rest
      decreases |rest|
    {
      var x :| x in rest;
      assert x !in xs;
      xs := xs + [x];
      rest := rest - {x};
    }
  }
}
