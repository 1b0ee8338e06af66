/** How many cards a model takes and which actor serves it
    (`cluster/evaluator.py`, and the count at the head of `Node.evaluate`). */
module Sizing {
  import opened Ordering

  /** `math.ceil(a / b)` on exact integers. */
  function CeilDiv(a: int, b: nat): int
    requires b > 0
  {
    (a + b - 1) / b
  }

  /** The quotient is the least count of `b`-sized cards that covers `a`. */
  lemma CeilDivIsLeastCover(a: int, b: nat, q: int)
    requires b > 0
    ensures CeilDiv(a, b) <= q <==> a <= q * b
  {
    var c := CeilDiv(a, b);
    assert c * b <= a + b - 1 < (c + 1) * b by {
      var x := a + b - 1;
      assert x == (x / b) * b + x % b;
      assert (c + 1) * b == c * b + b;
    }
    if c <= q {
      MulMonotone(c, q, b);
      assert (c + 1) * b == c * b + b;
    } else {
      MulMonotone(q + 1, c, b);
      assert (q + 1) * b == q * b + b;
    }
  }

  /** `math.ceil(size / n)` for a size and a count of either sign. */
  function SharePerCard(size: int, n: int): int
    requires n != 0
  {
    if n > 0 then CeilDiv(size, n) else CeilDiv(-size, -n)
  }

  /** The share is negative when the size or the count is, but not both, and the
      size is at least as far from zero. */
  lemma NegativeShareIff(size: int, n: int)
    requires n != 0
    ensures SharePerCard(size, n) < 0 <==> (n > 0 && size <= -n) || (n < 0 && size >= -n)
    ensures SharePerCard(size, n) <= 0 <==> (n > 0 && size <= 0) || (n < 0 && size >= 0)
  {
    var a, b := if n > 0 then size else -size, if n > 0 then n else -n;
    CeilDivIsLeastCover(a, b, -1);
    CeilDivIsLeastCover(a, b, 0);
  }

  /** The share is the least that covers the model on that many cards; for a negative
      count, on that many cards of the model taken off instead of put on. */
  lemma ShareIsLeast(size: int, n: int, s: int)
    requires n != 0
    ensures n > 0 ==> (SharePerCard(size, n) <= s <==> size <= n * s)
    ensures n < 0 ==> (SharePerCard(size, n) <= s <==> -size <= -n * s)
  {
    if n > 0 {
      CeilDivIsLeastCover(size, n, s);
      assert s * n == n * s;
    } else {
      CeilDivIsLeastCover(-size, -n, s);
      assert s * -n == -n * s;
    }
  }

  lemma MulMonotone(x: int, y: int, b: nat)
    requires x <= y
    ensures x * b <= y * b
  {
  }

  predicate Divides(d: int, n: int)
    requires d > 0
  {
    n % d == 0
  }

  /** `tp_degree` as a search from `degree` upwards. */
  function FirstDivisor(limit: int, degree: int): Option<int>
    requires degree >= 2
    decreases limit - degree
  {
    if degree > limit then None
    else if Divides(degree, limit) then Some(degree)
    else FirstDivisor(limit, degree + 1)
  }

  function TpDegree(limit: Option<int>, gpus: int): Option<int> {
    if limit.None? || gpus < 2 then None else FirstDivisor(limit.value, gpus)
  }

  /** `d` is a degree the limit splits into evenly that covers `gpus` cards. */
  predicate Workable(limit: int, gpus: int, d: int) {
    gpus <= d <= limit && d >= 2 && Divides(d, limit)
  }

  lemma {:induction false} FirstDivisorIsLeast(limit: int, degree: int)
    requires degree >= 2
    ensures FirstDivisor(limit, degree).None? <==> degree > limit
    ensures FirstDivisor(limit, degree).Some? ==>
              var d := FirstDivisor(limit, degree).value;
              Workable(limit, degree, d) && forall e :: Workable(limit, degree, e) ==> d <= e
    decreases limit - degree
  {
    if degree <= limit && !Divides(degree, limit) {
      assert degree != limit;
      FirstDivisorIsLeast(limit, degree + 1);
      forall e | Workable(limit, degree, e)
        ensures Workable(limit, degree + 1, e)
      {
      }
    }
  }

  /** The degree is the least divisor of the limit that is at least the count,
      and there is none exactly when the model cannot be split, one card is
      enough, or the limit is below the count. */
  lemma TpDegreeIsLeastDivisor(limit: Option<int>, gpus: int)
    ensures TpDegree(limit, gpus).None? <==> limit.None? || gpus < 2 || limit.value < gpus
    ensures TpDegree(limit, gpus).Some? ==>
              var d := TpDegree(limit, gpus).value;
              Workable(limit.value, gpus, d) && forall e :: Workable(limit.value, gpus, e) ==> d <= e
  {
    if limit.Some? && gpus >= 2 {
      FirstDivisorIsLeast(limit.value, gpus);
    }
  }

  /** The loop of `tp_degree`. */
  method FindTpDegree(limit: Option<int>, gpus: int) returns (r: Option<int>)
    ensures r == TpDegree(limit, gpus)
  {
    if limit.None? || gpus < 2 {
      return None;
    }
    var degree := gpus;
    while degree <= limit.value
      invariant degree >= gpus
      invariant FirstDivisor(limit.value, gpus) == FirstDivisor(limit.value, degree)
    {
      if limit.value % degree == 0 {
        return Some(degree);
      }
      degree := degree + 1;
    }
    return None;
  }

  /** What asking the checkpoint for its limit came back with. */
  datatype Described = Limit(limit: Option<int>) | Unreachable | Failed

  /** `ModelEvaluator.max_tp`: `override` caps, supplies or (at 0) switches off
      the checkpoint's own limit. */
  function MaxTp(enabled: bool, override: Option<int>, described: Described): (r: Option<int>)
    ensures !enabled || override == Some(0) ==> r.None?
    ensures enabled && override.Some? && override.value != 0 ==>
              r.Some? && r.value <= override.value
    ensures r.Some? && described.Limit? && described.limit.Some? ==> r.value <= described.limit.value
    ensures r.Some? ==> r == override || (described.Limit? && r == described.limit)
    ensures r.None? && enabled && override.None? ==> described.Limit? ==> described.limit.None?
  {
    if !enabled || override == Some(0) then None
    else match described
      case Unreachable => override
      case Failed => override
      case Limit(limit) =>
        if override.None? then limit
        else if limit.None? then override
        else Some(if override.value <= limit.value then override.value else limit.value)
  }

  /** How the head of `Node.evaluate` settles the number of cards. */
  datatype Count =
    | Cards(n: int)  // as asked for, or derived; neither is checked for its sign
    | Uneven         // asked for a count the model does not split into
    | NoMemory       // `required` raises: the cards report no memory

  function CardCount(limit: Option<int>, asked: Option<int>, size: int, memory: nat): Count {
    if asked.Some? then
      if limit.Some? && asked.value > 1 && TpDegree(limit, asked.value) != Some(asked.value) then Uneven
      else Cards(asked.value)
    else if memory == 0 then NoMemory
    else
      var needed := CeilDiv(size, memory);
      match TpDegree(limit, needed)
      case None => Cards(needed)
      case Some(degree) => if degree > needed then Cards(degree) else Cards(needed)
  }

  /** `ModelEvaluator.actor_class`: whether the replica gets the tensor-parallel
      actor on the `gpus` cards it was placed on. */
  predicate RunsTensorParallel(enabled: bool, limit: Option<int>, gpus: nat) {
    enabled && gpus >= 2 && TpDegree(limit, gpus) == Some(gpus)
  }

  /** Which is exactly when it got several cards and the limit splits into that many. */
  lemma RunsTensorParallelIff(enabled: bool, limit: Option<int>, gpus: nat)
    ensures RunsTensorParallel(enabled, limit, gpus) <==>
              enabled && limit.Some? && 2 <= gpus <= limit.value && limit.value % gpus == 0
  {
    TpDegreeIsLeastDivisor(limit, gpus);
    if limit.Some? && 2 <= gpus <= limit.value && limit.value % gpus == 0 {
      assert Workable(limit.value, gpus, gpus);
    }
  }

  /** The count a derived placement is rounded up from. */
  function Derived(size: int, memory: nat): int
    requires memory > 0
  {
    CeilDiv(size, memory)
  }

  /** Sizing and actor choice agree: under one limit, an accepted multi-card
      placement is served tensor-parallel, except exactly when the count was
      derived and the limit stops short of it. */
  lemma SizingAgreesWithActor(limit: Option<int>, asked: Option<int>, size: int, memory: nat)
    requires memory > 0 && limit.Some?
    requires CardCount(limit, asked, size, memory).Cards?
    requires CardCount(limit, asked, size, memory).n >= 2
    ensures var n := CardCount(limit, asked, size, memory).n;
            RunsTensorParallel(true, limit, n)
            <==> !(asked.None? && limit.value < Derived(size, memory))
  {
    var n := CardCount(limit, asked, size, memory).n;
    TpDegreeIsLeastDivisor(limit, n);
    if asked.None? {
      TpDegreeIsLeastDivisor(limit, Derived(size, memory));
      if TpDegree(limit, Derived(size, memory)).Some? {
        assert Workable(limit.value, n, n);
      }
    }
  }

  /** An asked-for count is refused as uneven exactly when it is above one, there is
      a limit, and the limit does not split into it; otherwise it is taken as it is. */
  lemma AskedCountIsExact(limit: Option<int>, asked: int, size: int, memory: nat)
    ensures CardCount(limit, Some(asked), size, memory).Uneven? <==>
              limit.Some? && asked > 1 && !(asked <= limit.value && limit.value % asked == 0)
    ensures !CardCount(limit, Some(asked), size, memory).Uneven? ==>
              CardCount(limit, Some(asked), size, memory) == Cards(asked)
  {
    TpDegreeIsLeastDivisor(limit, asked);
    if limit.Some? && 1 < asked <= limit.value && limit.value % asked == 0 {
      assert Workable(limit.value, asked, asked);
    }
  }

  /** A degree the model splits into whose cards cover it. */
  predicate SplitCovers(limit: int, size: int, memory: nat, d: int) {
    2 <= d <= limit && limit % d == 0 && size <= d * memory
  }

  /** With no count asked for, the model gets as many cards as it takes to cover it
      and not one more; or, when it takes several and can be split into that many or
      more, the least number it splits into that covers it. */
  lemma DerivedCountIsExact(limit: Option<int>, size: int, memory: nat)
    requires memory > 0
    ensures CardCount(limit, None, size, memory).Cards?
    ensures var n := CardCount(limit, None, size, memory).n;
            if limit.None? || size <= memory || limit.value * memory < size
            then n * memory >= size > (n - 1) * memory
            else SplitCovers(limit.value, size, memory, n) && forall d :: SplitCovers(limit.value, size, memory, d) ==> n <= d
  {
    var needed := Derived(size, memory);
    CeilDivIsLeastCover(size, memory, needed);
    CeilDivIsLeastCover(size, memory, needed - 1);
    CeilDivIsLeastCover(size, memory, 1);
    TpDegreeIsLeastDivisor(limit, needed);
    if limit.Some? {
      CeilDivIsLeastCover(size, memory, limit.value);
      forall d ensures SplitCovers(limit.value, size, memory, d) <==> 2 <= d && Workable(limit.value, needed, d) {
        CeilDivIsLeastCover(size, memory, d);
      }
    }
  }

  /** A derived count has the sign of the size, except that a size above minus one
      card's memory comes to no cards at all. */
  lemma DerivedCountSign(limit: Option<int>, size: int, memory: nat)
    requires memory > 0
    ensures CardCount(limit, None, size, memory).Cards?
    ensures CardCount(limit, None, size, memory).n > 0 <==> size > 0
    ensures CardCount(limit, None, size, memory).n == 0 <==> 0 - memory < size <= 0
  {
    CeilDivIsLeastCover(size, memory, 0);
    CeilDivIsLeastCover(size, memory, -1);
    TpDegreeIsLeastDivisor(limit, Derived(size, memory));
  }

  /** A derived count is never short: each card's share fits an empty card. */
  lemma DerivedShareFitsCard(limit: Option<int>, size: int, memory: nat)
    requires memory > 0 && size > 0
    ensures CardCount(limit, None, size, memory).Cards?
    ensures var n := CardCount(limit, None, size, memory).n;
            n >= 1 && CeilDiv(size, n) <= memory && size <= n * CeilDiv(size, n)
  {
    DerivedCountSign(limit, size, memory);
    var n, needed := CardCount(limit, None, size, memory).n, Derived(size, memory);
    assert n >= needed by { TpDegreeIsLeastDivisor(limit, needed); }
    hide CardCount, TpDegree;
    CeilDivIsLeastCover(size, memory, needed);
    MulMonotone(needed, n, memory);
    assert memory * n == n * memory;
    CeilDivIsLeastCover(size, n, memory);
    CeilDivIsLeastCover(size, n, CeilDiv(size, n));
    hide CeilDiv;
  }
}
