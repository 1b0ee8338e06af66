/** One GPU node: whether it can take a replica, what it would evict to do so,
    and the placement and eviction themselves (`cluster/node.py`). */
module NodePlacement {
  import opened Ordering
  import opened Sizing
  import opened Ledger

  /** How attractive a node is for a replica, best first. */
  datatype CandidateLevel = CachedAndFree | Free | CachedAndFull | Full | CantAccommodate

  function Rank(level: CandidateLevel): nat {
    match level
    case CachedAndFree => 1
    case Free => 2
    case CachedAndFull => 3
    case Full => 4
    case CantAccommodate => 5
  }

  /** `uneven` stands for the stated reason of a refused card count. */
  datatype Candidate = Candidate(
    level: CandidateLevel, gpus: map<nat, int>, evictions: set<Key>, uneven: bool)

  const REFUSED := Candidate(CantAccommodate, map[], {}, false)

  /** The arguments of `Node.evaluate`, and the clock it reads. */
  datatype Query = Query(
    model: ModelKey, size: int, pinned: bool, exclude: set<ModelKey>,
    limit: Option<int>, asked: Option<int>, share: Option<int>, now: int)

  /** `evaluate` answers with a candidate, or raises: a count of zero cards
      divides by zero, and cards without memory cannot be counted. */
  datatype Evaluation = Chosen(candidate: Candidate) | Raised

  // ------------------------------------------------------------ specification

  predicate Evictable(d: Deployment, pinned: bool, minAge: Option<int>, now: int) {
    !d.pinned && (pinned || minAge.None? || now - d.deployed >= minAge.value)
  }

  function Reclaimable(n: NodeState, q: Query): set<Key> {
    set k | k in n.hot && k.model !in q.exclude && Evictable(n.hot[k], q.pinned, n.minAge, q.now)
  }

  predicate IsCached(n: NodeState, model: ModelKey) {
    exists k :: k in n.warm && k.model == model
  }

  /** Bytes card `g` would have free once `gone` has left it. */
  ghost function FreeWithout(n: NodeState, gone: set<Key>, g: nat): int
    requires g < |n.free|
  {
    n.free[g] + Total(Only(n.hot, gone), Gpu(g))
  }

  function Fitting(n: NodeState, share: int): set<nat> {
    set g: nat | g < |n.free| && n.free[g] >= share
  }

  ghost function Clearable(n: NodeState, allowed: set<Key>, share: int): set<nat> {
    set g: nat | g < |n.free| && FreeWithout(n, allowed, g) >= share
  }

  function CountFor(n: NodeState, q: Query): Count {
    CardCount(q.limit, q.asked, q.size, n.memory)
  }

  predicate Raises(n: NodeState, q: Query) {
    CountFor(n, q) == NoMemory || (CountFor(n, q) == Cards(0) && q.share.None?)
  }

  /** The count is one this node has enough cards for. */
  predicate Counted(n: NodeState, q: Query) {
    !Raises(n, q) && CountFor(n, q).Cards? && CountFor(n, q).n <= |n.free|
  }

  /** Bytes booked on each card. */
  function ShareFor(n: NodeState, q: Query): int
    requires Counted(n, q)
  {
    if q.share.Some? then q.share.value else SharePerCard(q.size, CountFor(n, q).n)
  }

  /** How many cards the first `count` of `fitting` are: a negative count leaves
      that many off the end. */
  function Sliced(count: int, fitting: nat): nat {
    if count > fitting then fitting
    else if count >= 0 then count
    else if fitting + count > 0 then fitting + count else 0
  }

  /** A count that is not negative takes that many, or all there are; a negative one
      leaves off exactly that many, or takes none. */
  lemma SliceLeavesOff(count: int, fitting: nat)
    ensures count >= 0 ==> Sliced(count, fitting) <= count && (Sliced(count, fitting) == count || Sliced(count, fitting) == fitting)
    ensures count < 0 && fitting >= -count ==> fitting - Sliced(count, fitting) == -count
    ensures count < 0 && fitting < -count ==> Sliced(count, fitting) == 0
    ensures Sliced(count, fitting) <= fitting
  {
  }

  /** The cards a placement on the free ones, or on cleared ones, takes. */
  function Bookable(n: NodeState, q: Query): nat
    requires Counted(n, q)
  {
    var count := CountFor(n, q).n;
    if count >= 0 then count else Sliced(count, |Fitting(n, ShareFor(n, q))|)
  }

  ghost function LevelFor(n: NodeState, q: Query): CandidateLevel {
    if !Counted(n, q) then CantAccommodate
    else
      var share := ShareFor(n, q);
      var count := CountFor(n, q).n;
      if |Fitting(n, share)| >= count then
        if IsCached(n, q.model) then CachedAndFree else Free
      else if |Clearable(n, Reclaimable(n, q), share)| < count then CantAccommodate
      else if IsCached(n, q.model) then CachedAndFull else Full
  }

  /** A placement that books the right bytes on the right number of cards, and
      whose evictions, all allowed, make the room on every one of them. */
  ghost predicate Accepts(n: NodeState, q: Query, c: Candidate)
    requires Counted(n, q)
  {
    var share := ShareFor(n, q);
    && |c.gpus| == Bookable(n, q)
    && OnCards(c.gpus, |n.free|)
    && (forall g :: g in c.gpus ==> c.gpus[g] == share)
    && c.evictions <= Reclaimable(n, q)
    && (forall g :: g in c.gpus ==> FreeWithout(n, c.evictions, g) >= share)
    && !c.level.CantAccommodate?
  }

  /** Nothing is evicted that does not hold a chosen card short of room. */
  predicate Thrifty(n: NodeState, c: Candidate, share: int) {
    forall k :: k in c.evictions ==>
      k in n.hot && exists g: nat :: g in c.gpus && g < |n.free| && n.free[g] < share && g in n.hot[k].gpus
  }

  /** With room to spare, the fullest cards that still fit are taken. */
  predicate BestFit(n: NodeState, c: Candidate, share: int) {
    forall g, h :: g in c.gpus && g < |n.free| && h in Fitting(n, share) && h !in c.gpus ==>
      n.free[g] <= n.free[h]
  }

  function Holders(n: NodeState, allowed: set<Key>, g: nat): Replicas {
    map k | k in n.hot && k in allowed && g in n.hot[k].gpus :: n.hot[k]
  }

  /** The evictions that open a card: none if it has the room, and otherwise of the
      allowed replicas on it the lightest, enough of them and not one more. */
  ghost predicate OpensLean(n: NodeState, allowed: set<Key>, share: int, g: nat, gone: set<Key>)
    requires g < |n.free|
  {
    && gone <= Holders(n, allowed, g).Keys && (n.free[g] >= share ==> gone == {})
    && FreeWithout(n, gone, g) >= share
    && (gone != {} ==> exists last :: last in gone && FreeWithout(n, gone - {last}, g) < share)
    && (forall a, b :: a in gone && b in Holders(n, allowed, g) && b !in gone ==>
          Weight(n.hot[a], Gpu(g)) <= Weight(n.hot[b], Gpu(g)))
  }

  /** Given such evictions for every card that can be opened, the booking takes the
      cards that need the fewest, and evicts just those of the cards it takes. */
  ghost predicate LeanBy(n: NodeState, allowed: set<Key>, share: int, c: Candidate, plan: map<nat, set<Key>>) {
    && plan.Keys == Clearable(n, allowed, share) && c.gpus.Keys <= plan.Keys
    && (forall g :: g in plan ==> g < |n.free| && OpensLean(n, allowed, share, g, plan[g]))
    && (forall k :: k in c.evictions <==> exists g :: g in c.gpus && k in plan[g])
    && (forall g, h :: g in c.gpus && h in plan && h !in c.gpus ==> |plan[g]| <= |plan[h]|)
  }

  ghost predicate Lean(n: NodeState, allowed: set<Key>, share: int, c: Candidate) {
    exists plan :: LeanBy(n, allowed, share, c, plan)
  }

  ghost predicate Decides(n: NodeState, q: Query, c: Candidate) {
    && c.level == LevelFor(n, q)
    && (c.uneven <==> CountFor(n, q) == Uneven)
    && if c.level == CantAccommodate then c.gpus == map[] && c.evictions == {}
       else
         && Accepts(n, q, c)
         && Thrifty(n, c, ShareFor(n, q))
         && if c.level.Free? || c.level.CachedAndFree? then c.evictions == {} && BestFit(n, c, ShareFor(n, q))
            else Lean(n, Reclaimable(n, q), ShareFor(n, q), c)
  }

  // ------------------------------------------------- what an evaluation means

  /** Some set of allowed evictions opens `count` cards. */
  ghost predicate Opens(n: NodeState, q: Query, share: int, gone: set<Key>, cards: set<nat>) {
    && gone <= Reclaimable(n, q)
    && forall g :: g in cards ==> g < |n.free| && FreeWithout(n, gone, g) >= share
  }

  lemma SubsetCount<T>(a: set<T>, b: set<T>)
    requires a <= b
    ensures |a| <= |b|
  {
    assert b == a + (b - a);
  }

  /** No replica on the cards is charged less than nothing. */
  predicate Uncredited(n: NodeState) {
    forall k :: k in n.hot ==> TakesRoom(n.hot[k].gpus, n.hot[k].size)
  }

  lemma Weighs(n: NodeState, g: nat)
    requires Uncredited(n)
    ensures NoCredit(n.hot, Gpu(g))
  {
  }

  lemma FreeOrMore(n: NodeState, gone: set<Key>, g: nat)
    requires Uncredited(n) && g < |n.free|
    ensures n.free[g] <= FreeWithout(n, gone, g)
  {
    Weighs(n, g);
    TotalNotNegative(Only(n.hot, gone), Gpu(g));
  }

  lemma FittingIsClearable(n: NodeState, allowed: set<Key>, share: int)
    requires Uncredited(n)
    ensures |Fitting(n, share)| <= |Clearable(n, allowed, share)|
  {
    forall g | g in Fitting(n, share) ensures g in Clearable(n, allowed, share) {
      FreeOrMore(n, allowed, g);
    }
    SubsetCount(Fitting(n, share), Clearable(n, allowed, share));
  }

  /** Refusal is exact: once the count is settled and the node has that many
      cards, it is refused if and only if no choice of allowed evictions
      whatever opens that many cards. */
  lemma RefusalIsExact(n: NodeState, q: Query)
    requires Counted(n, q) && Uncredited(n)
    ensures LevelFor(n, q) == CantAccommodate
            <==> !exists gone, cards :: Opens(n, q, ShareFor(n, q), gone, cards) && |cards| >= CountFor(n, q).n
  {
    var share, count := ShareFor(n, q), CountFor(n, q).n;
    var able := Clearable(n, Reclaimable(n, q), share);
    FittingIsClearable(n, Reclaimable(n, q), share);
    if LevelFor(n, q) == CantAccommodate {
      forall gone, cards | Opens(n, q, share, gone, cards)
        ensures |cards| < count
      {
        forall g | g in cards ensures g in able {
          Weighs(n, g);
          TotalOnlyMonotone(n.hot, gone, Reclaimable(n, q), Gpu(g));
        }
        SubsetCount(cards, able);
      }
    } else {
      assert Opens(n, q, share, Reclaimable(n, q), able);
    }
  }

  /** The booked bytes cover the model, when the share is the derived one, exactly
      if the count is positive or there is nothing to cover. */
  lemma BookingCoversModel(n: NodeState, q: Query, c: Candidate)
    requires Counted(n, q) && q.share.None? && Accepts(n, q, c)
    ensures q.size <= |c.gpus| * ShareFor(n, q) <==> CountFor(n, q).n > 0 || q.size <= 0
  {
    var a, b := |c.gpus|, ShareFor(n, q);
    NegativeShareIff(q.size, CountFor(n, q).n);
    if CountFor(n, q).n > 0 {
      CeilDivIsLeastCover(q.size, CountFor(n, q).n, b);
      assert a * b == b * a;
    } else {
      SignOf(a, b);
    }
  }

  lemma SignOf(a: nat, b: int)
    ensures b <= 0 ==> a * b <= 0
    ensures b >= 0 ==> a * b >= 0
  {
  }

  /** The booking gives cards room: a share below zero on one card at least. */
  predicate CreditsCards(n: NodeState, q: Query) {
    && CountFor(n, q).Cards? && CountFor(n, q).n <= |n.free|
    && var count := CountFor(n, q).n;
       (count > 0 && q.size <= -count) || (count < 0 && q.size >= -count && |n.free| > -count)
  }

  /** It gives room on the cards, or would in the cache. */
  predicate Credits(n: NodeState, q: Query) {
    Counted(n, q) && (q.size < 0 || CreditsCards(n, q))
  }

  /** A placement credits cards, instead of charging them, exactly when the count is
      positive and the size at least as far below zero, or the count is negative, the
      size at least as far above zero, and a card is left over; and it takes no
      room, on the cards or in the cache, exactly then or when the size is negative. */
  lemma CreditsIff(n: NodeState, q: Query, c: Candidate)
    requires NodeInv(n) && q.share.None? && Decides(n, q, c)
    ensures (exists g :: g in c.gpus && c.gpus[g] < 0) <==> CreditsCards(n, q)
    ensures c.level != CantAccommodate && !TakesRoom(c.gpus, q.size) <==> Credits(n, q)
  {
    hide NodeInv, Clearable, FreeWithout, Reclaimable, Thrifty, BestFit, Fitting;
    if c.level != CantAccommodate {
      BookingSign(n, q, c);
    } else {
      RefusedCreditsNothing(n, q);
    }
  }

  /** On a node that is not overdrawn every card has room for nothing, or less. */
  lemma AllFit(n: NodeState, share: int)
    requires NodeInv(n) && share <= 0
    ensures |Fitting(n, share)| == |n.free|
  {
    assert forall g :: 0 <= g < |n.free| ==> n.free[g] >= 0;
    assert Fitting(n, share) == UpTo(|n.free|);
  }

  lemma RefusedCreditsNothing(n: NodeState, q: Query)
    requires NodeInv(n) && q.share.None? && LevelFor(n, q) == CantAccommodate
    ensures !Credits(n, q) && !CreditsCards(n, q)
  {
    if Counted(n, q) {
      NegativeShareIff(q.size, CountFor(n, q).n);
      if ShareFor(n, q) <= 0 {
        AllFit(n, ShareFor(n, q));
      }
    }
    hide NodeInv, Clearable, Fitting, Reclaimable;
  }

  lemma BookingSign(n: NodeState, q: Query, c: Candidate)
    requires NodeInv(n) && q.share.None? && Counted(n, q) && Accepts(n, q, c)
    ensures (exists g :: g in c.gpus && c.gpus[g] < 0) <==> CreditsCards(n, q)
  {
    hide NodeInv, Clearable, FreeWithout, Reclaimable, Fitting;
    var count, share := CountFor(n, q).n, ShareFor(n, q);
    NegativeShareIff(q.size, count);
    if share < 0 {
      AllFit(n, share);
    }
    if |c.gpus| > 0 {
      SomeCard(c.gpus);
    } else {
      NoCard(c.gpus);
    }
  }

  lemma SomeCard(gpus: map<nat, int>)
    requires |gpus| > 0
    ensures exists g :: g in gpus
  {
    assert |gpus| == |gpus.Keys|;
    assert gpus.Keys != {};
  }

  lemma NoCard(gpus: map<nat, int>)
    requires |gpus| == 0
    ensures gpus == map[]
  {
  }

  /** An empty node with enough cards always takes a derived count. */
  lemma EmptyNodeAccepts(id: NodeId, memory: nat, cards: nat, budget: nat, minAge: Option<int>, q: Query)
    requires memory > 0 && q.asked.None? && q.share.None?
    requires Counted(EmptyNode(id, memory, cards, budget, minAge), q)
    ensures LevelFor(EmptyNode(id, memory, cards, budget, minAge), q) == Free
  {
    var n := EmptyNode(id, memory, cards, budget, minAge);
    DerivedCountSign(q.limit, q.size, memory);
    if q.size > 0 {
      DerivedShareFitsCard(q.limit, q.size, memory);
      assert Fitting(n, ShareFor(n, q)) == UpTo(cards);
    }
  }

  /** Enough cards have the room as they are. */
  predicate Roomy(n: NodeState, q: Query) {
    Counted(n, q) && |Fitting(n, ShareFor(n, q))| >= CountFor(n, q).n
  }

  /** Enough cards could be opened by the evictions allowed. */
  ghost predicate Openable(n: NodeState, q: Query) {
    Counted(n, q) && |Clearable(n, Reclaimable(n, q), ShareFor(n, q))| >= CountFor(n, q).n
  }

  /** A replica of another model, not pinned, and old enough unless the new one is
      pinned itself. */
  predicate MakesWay(n: NodeState, q: Query, k: Key)
    requires k in n.hot
  {
    k.model !in q.exclude && !n.hot[k].pinned
    && (q.pinned || n.minAge.None? || n.minAge.value <= q.now - n.hot[k].deployed)
  }

  /** A node whose every replica makes way takes any derived count it has the cards
      for. */
  lemma OldNodeMakesRoom(n: NodeState, q: Query)
    requires NodeInv(n) && Counted(n, q) && q.size > 0 && q.asked.None? && q.share.None?
    requires forall k :: k in n.hot ==> MakesWay(n, q, k)
    ensures Openable(n, q) && LevelFor(n, q) != CantAccommodate
  {
    hide Total, Registered, CpuBalanced;
    var share := ShareFor(n, q);
    DerivedShareFitsCard(q.limit, q.size, n.memory);
    assert Reclaimable(n, q) == n.hot.Keys && Only(n.hot, n.hot.Keys) == n.hot;
    forall g: nat | g < |n.free| ensures FreeWithout(n, Reclaimable(n, q), g) == n.memory {
      assert n.free[g] + Total(n.hot, Gpu(g)) == n.memory;
    }
    assert Clearable(n, Reclaimable(n, q), share) == UpTo(|n.free|);
  }

  /** `ks` evicted one after another, each still HOT when its turn comes. */
  ghost predicate EvictChain(n: NodeState, ks: seq<Key>, exclude: set<ModelKey>, now: int, n': NodeState)
    decreases |ks|
  {
    if ks == [] then n' == n
    else
      && ks[0] in n.hot && ks[0] !in n.warm
      && exists mid :: Evicts(n, ks[0], exclude, now, mid) && EvictChain(mid, ks[1..], exclude, now, n')
  }

  lemma {:induction false} ChainBalances(n: NodeState, ks: seq<Key>, exclude: set<ModelKey>, now: int, n': NodeState)
    requires NodeInv(n) && EvictChain(n, ks, exclude, now, n')
    ensures NodeInv(n') && n'.hot == n.hot - Elements(ks)
    ensures |n'.free| == |n.free| && n'.memory == n.memory
    decreases |ks|
  {
    hide NodeInv, Evicts;
    if ks == [] {
      assert n.hot - Elements(ks) == n.hot;
    } else {
      var mid :| Evicts(n, ks[0], exclude, now, mid) && EvictChain(mid, ks[1..], exclude, now, n');
      EvictBalances(n, ks[0], exclude, now, mid);
      EvictingTakes(n, ks[0], exclude, now, mid);
      ChainBalances(mid, ks[1..], exclude, now, n');
      assert Elements(ks) == {ks[0]} + Elements(ks[1..]);
      hide Elements, EvictChain;
      MinusTwice(n.hot, {ks[0]}, Elements(ks[1..]));
    }
  }

  lemma EvictingTakes(n: NodeState, k: Key, exclude: set<ModelKey>, now: int, n': NodeState)
    requires k in n.hot && k !in n.warm && Evicts(n, k, exclude, now, n')
    ensures n'.hot == n.hot - {k} && |n'.free| == |n.free| && n'.memory == n.memory
  {
    hide RoomCanBeMade, DropPlan, Total;
  }

  lemma {:induction false} ChainGrows(n: NodeState, ks: seq<Key>, exclude: set<ModelKey>, now: int, mid: NodeState,
                                      k: Key, n': NodeState)
    requires EvictChain(n, ks, exclude, now, mid) && k in mid.hot && k !in mid.warm && Evicts(mid, k, exclude, now, n')
    ensures EvictChain(n, ks + [k], exclude, now, n')
    decreases |ks|
  {
    hide Evicts;
    if ks == [] {
      assert (ks + [k])[1..] == [];
      assert EvictChain(n', [], exclude, now, n');
    } else {
      var next :| Evicts(n, ks[0], exclude, now, next) && EvictChain(next, ks[1..], exclude, now, mid);
      ChainGrows(next, ks[1..], exclude, now, mid, k, n');
      assert (ks + [k])[1..] == ks[1..] + [k];
    }
  }

  /** `ks` evicted, each once, in some order. */
  ghost predicate EvictedAll(n: NodeState, ks: set<Key>, exclude: set<ModelKey>, now: int, n': NodeState) {
    exists order :: Distinct(order) && Elements(order) == ks && EvictChain(n, order, exclude, now, n')
  }

  lemma FreeAfterLeaving(n: NodeState, gone: set<Key>, n': NodeState, g: nat)
    requires NodeInv(n) && NodeInv(n') && n'.hot == n.hot - gone
    requires |n'.free| == |n.free| && n'.memory == n.memory && g < |n.free|
    ensures n'.free[g] == FreeWithout(n, gone, g)
  {
    TotalSplit(n.hot, gone, Gpu(g));
    assert n.free[g] + Total(n.hot, Gpu(g)) == n.memory;
    assert n'.free[g] + Total(n'.hot, Gpu(g)) == n'.memory;
  }

  /** Eviction plans are sound: whatever order the evictions of an accepted
      candidate run in, no card is overdrawn by the allocation that follows,
      even where one evicted replica spans several cards. */
  lemma PlanIsSoundInAnyOrder(n: NodeState, q: Query, c: Candidate, ks: seq<Key>, n': NodeState)
    requires NodeInv(n) && Counted(n, q) && Accepts(n, q, c)
    requires Elements(ks) == c.evictions && EvictChain(n, ks, q.exclude, q.now, n')
    ensures forall g :: 0 <= g < |n'.free| ==> Allocated(n'.free, c.gpus)[g] >= 0
  {
    ChainBalances(n, ks, q.exclude, q.now, n');
    forall g | 0 <= g < |n'.free|
      ensures Allocated(n'.free, c.gpus)[g] >= 0
    {
      FreeAfterLeaving(n, c.evictions, n', g);
    }
  }

  // ---------------------------------------------------------------- placement

  /** Room on the cards for a booking, once its evictions have left. */
  ghost predicate HasRoom(n: NodeState, c: Candidate) {
    && c.evictions <= n.hot.Keys && OnCards(c.gpus, |n.free|)
    && forall g :: g in c.gpus ==> FreeWithout(n, c.evictions, g) >= c.gpus[g]
  }

  /** The evictions of one placement, done or still to do: what is left of the
      node, with nothing excluded touched. */
  predicate Cleared(n: NodeState, gone: set<Key>, exclude: set<ModelKey>, now: int, n': NodeState) {
    && n' == n.(free := n'.free, cpuFree := n'.cpuFree, hot := n.hot - gone, warm := n'.warm)
    && |n'.free| == |n.free|
    && (forall k :: k in n.warm && k.model in exclude ==> k in n'.warm)
    && (forall k :: k in n'.warm ==>
          || (k in n.warm && n'.warm[k] == n.warm[k])
          || (k in n.hot && k in gone && n'.warm[k] == Parked(n.hot[k], now)))
  }

  lemma NothingCleared(n: NodeState, exclude: set<ModelKey>, now: int)
    ensures Cleared(n, {}, exclude, now, n) && EvictChain(n, [], exclude, now, n)
  {
    assert n.hot - {} == n.hot;
  }

  lemma StillThere(n: NodeState, gone: set<Key>, exclude: set<ModelKey>, now: int, cur: NodeState, k: Key)
    requires Cleared(n, gone, exclude, now, cur) && NodeInv(cur) && k in n.hot && k !in gone
    ensures k in cur.hot && k !in cur.warm
  {
  }

  lemma ClearedStep(n: NodeState, gone: set<Key>, k: Key, exclude: set<ModelKey>, now: int,
                    a: NodeState, b: NodeState)
    requires Cleared(n, gone, exclude, now, a)
    requires k in n.hot && k !in gone && k !in a.warm && EvictsHot(a, k, exclude, now, b)
    ensures Cleared(n, gone + {k}, exclude, now, b)
  {
    assert n.hot - gone - {k} == n.hot - (gone + {k});
  }

  /** The record a placement registers. */
  function Placed(n: NodeState, k: Key, c: Candidate, size: int, pinned: bool, actor: ActorClass, now: int): Deployment {
    Deployment(k, n.id, Hot, c.gpus, size, pinned, actor, now)
  }

  /** Whether the new replica takes over the id of a parked one. */
  predicate Takes(cleared: NodeState, k: Key, nextId: ReplicaId) {
    if IsCached(cleared, k.model) then k in cleared.warm else k.replica == nextId
  }

  /** What `Node.deploy` leaves, given the node its evictions left. */
  predicate Lands(cleared: NodeState, k: Key, d: Deployment, n': NodeState) {
    && n' == cleared.(free := Allocated(cleared.free, d.gpus), hot := cleared.hot[k := d],
                      warm := n'.warm, cpuFree := n'.cpuFree)
    && if k in cleared.warm
       then n'.warm == cleared.warm - {k} && n'.cpuFree == cleared.cpuFree + cleared.warm[k].size
       else n'.warm == cleared.warm && n'.cpuFree == cleared.cpuFree
  }

  /** A whole placement: the candidate's evictions, each parked or dropped as
      evicting it alone would, and then the landing. */
  ghost predicate PlacedAfter(n: NodeState, c: Candidate, exclude: set<ModelKey>, nextId: ReplicaId, now: int,
                              k: Key, d: Deployment, n': NodeState) {
    exists mid :: EvictedAll(n, c.evictions, exclude, now, mid) && Takes(mid, k, nextId) && Lands(mid, k, d, n')
  }

  /** The room a node shows is there: whatever leaves its cards, none comes to show
      more than it has, and parking what is HOT does not give the cache room. */
  ghost predicate RoomIsReal(n: NodeState) {
    && (forall gone, g :: 0 <= g < |n.free| ==> FreeWithout(n, gone, g) <= n.memory)
    && (forall k :: k in n.hot ==> n.cpuFree - n.hot[k].size <= n.cpuFree)
  }

  lemma NeverShowsMore(n: NodeState, gone: set<Key>, g: nat)
    requires GpuBalanced(n) && g < |n.free| && NoCredit(n.hot, Gpu(g))
    ensures FreeWithout(n, gone, g) <= n.memory
  {
    TotalSplit(n.hot, gone, Gpu(g));
    TotalNotNegative(n.hot - gone, Gpu(g));
  }

  lemma ShowsMore(n: NodeState, k: Key, g: nat)
    requires GpuBalanced(n) && g < |n.free| && k in n.hot && Weight(n.hot[k], Gpu(g)) < 0
    ensures FreeWithout(n, n.hot.Keys - {k}, g) > n.memory
  {
    TotalRemove(n.hot, k, Gpu(g));
    assert Only(n.hot, n.hot.Keys - {k}) == n.hot - {k};
  }

  lemma RoomIsRealIff(n: NodeState)
    requires GpuBalanced(n) && forall k :: k in n.hot ==> OnCards(n.hot[k].gpus, |n.free|)
    ensures RoomIsReal(n) <==> Uncredited(n)
  {
    hide GpuBalanced, FreeWithout;
    if Uncredited(n) {
      forall gone, g: nat | g < |n.free| ensures FreeWithout(n, gone, g) <= n.memory {
        Weighs(n, g);
        NeverShowsMore(n, gone, g);
      }
    }
    if RoomIsReal(n) {
      forall k | k in n.hot ensures TakesRoom(n.hot[k].gpus, n.hot[k].size) {
        forall g | g in n.hot[k].gpus ensures n.hot[k].gpus[g] >= 0 {
          if n.hot[k].gpus[g] < 0 {
            ShowsMore(n, k, g);
          }
        }
      }
    }
  }

  lemma NodeRoomIsReal(n: NodeState)
    requires NodeInv(n)
    ensures RoomIsReal(n)
  {
    RoomIsRealIff(n);
    hide RoomIsReal;
  }

  /** Landing keeps free plus charged bytes exact whatever is booked; the room the
      node shows stays real, and with it the whole ledger, exactly if the booking
      takes room. */
  lemma LandingBalances(m: NodeState, k: Key, d: Deployment, n': NodeState)
    requires NodeInv(m) && k !in m.hot && Lands(m, k, d, n')
    requires d.key == k && d.node == m.id && d.level == Hot && OnCards(d.gpus, |m.free|)
    requires forall g :: g in d.gpus ==> m.free[g] >= d.gpus[g]
    ensures GpuBalanced(n') && CpuBalanced(n')
    ensures RoomIsReal(n') <==> TakesRoom(d.gpus, d.size)
    ensures NodeInv(n') <==> RoomIsReal(n')
  {
    forall g | 0 <= g < |n'.free|
      ensures n'.free[g] >= 0 && n'.free[g] + Total(n'.hot, Gpu(g)) == n'.memory
    {
      assert m.free[g] >= 0 && m.free[g] + Total(m.hot, Gpu(g)) == m.memory;
      TotalPut(m.hot, k, d, Gpu(g));
    }
    if k in m.warm {
      TotalRemove(m.warm, k, Cpu);
    }
    assert n'.hot[k] == d;
    hide Total, RoomIsReal;
    RoomIsRealIff(n');
  }

  /** A placement leaves a node showing more room than it has exactly when the query
      credits: on some card, once others have left it, exactly when it credits
      cards. */
  lemma RoomStaysRealIff(n: NodeState, q: Query, c: Candidate, ks: seq<Key>, m: NodeState, k: Key, d: Deployment, n': NodeState)
    requires NodeInv(n) && q.share.None? && Decides(n, q, c) && c.level != CantAccommodate
    requires Elements(ks) == c.evictions && EvictChain(n, ks, q.exclude, q.now, m)
    requires k !in m.hot && Lands(m, k, d, n')
    requires d.key == k && d.node == m.id && d.level == Hot && d.gpus == c.gpus && d.size == q.size
    ensures RoomIsReal(n') <==> !Credits(n, q)
    ensures (exists gone, g :: 0 <= g < |n'.free| && FreeWithout(n', gone, g) > n'.memory) <==> CreditsCards(n, q)
  {
    hide NodeInv, Decides, EvictChain, CreditsCards, Credits, RoomIsReal, GpuBalanced, CpuBalanced, FreeWithout, TakesRoom;
    CreditsIff(n, q, c);
    ChainBalances(n, ks, q.exclude, q.now, m);
    AcceptedFits(n, q, c);
    forall g | g in d.gpus ensures m.free[g] >= d.gpus[g] {
      FreeAfterLeaving(n, c.evictions, m, g);
    }
    LandingBalances(m, k, d, n');
    ShowsMoreIff(m, k, d, n');
  }

  lemma AcceptedFits(n: NodeState, q: Query, c: Candidate)
    requires Decides(n, q, c) && c.level != CantAccommodate
    ensures OnCards(c.gpus, |n.free|) && forall g :: g in c.gpus ==> FreeWithout(n, c.evictions, g) >= c.gpus[g]
  {
  }

  lemma ShowsMoreIff(m: NodeState, k: Key, d: Deployment, n': NodeState)
    requires NodeInv(m) && k !in m.hot && Lands(m, k, d, n') && OnCards(d.gpus, |m.free|) && GpuBalanced(n')
    ensures (exists gone, g :: 0 <= g < |n'.free| && FreeWithout(n', gone, g) > n'.memory)
            <==> exists g :: g in d.gpus && d.gpus[g] < 0
  {
    assert Uncredited(m);
    hide NodeInv, GpuBalanced, FreeWithout;
    if g :| g in d.gpus && d.gpus[g] < 0 {
      ShowsMore(n', k, g);
    } else {
      forall gone, g: nat | g < |n'.free| ensures FreeWithout(n', gone, g) <= n'.memory {
        NeverShowsMore(n', gone, g);
      }
    }
  }

  /** One placement of a model among `models` is a move of that call. */
  lemma LandingMoves(n: NodeState, gone: set<Key>, models: set<ModelKey>, now: int, nextId: ReplicaId,
                     m: NodeState, k: Key, d: Deployment, n': NodeState)
    requires Registered(n) && Cleared(n, gone, models, now, m)
    requires k.model in models && Takes(m, k, nextId) && k !in n.hot && Lands(m, k, d, n')
    requires forall j :: j in gone ==> j.model !in models
    ensures Moves(models, nextId, now, n, n')
  {
  }

  /** The level predicts the outcome: evictions that touch no excluded model
      leave a parked copy of `model` there exactly if there was one before. */
  lemma LevelPredictsPromotion(n: NodeState, gone: set<Key>, exclude: set<ModelKey>, now: int,
                               m: NodeState, model: ModelKey)
    requires Cleared(n, gone, exclude, now, m) && model in exclude
    requires forall j :: j in gone ==> j.model !in exclude
    ensures IsCached(m, model) <==> IsCached(n, model)
    ensures forall k: Key :: k.model == model ==> (k in m.warm <==> k in n.warm)
  {
  }

  lemma Allowed(n: NodeState, c: Candidate)
    requires HasRoom(n, c)
    ensures c.evictions <= n.hot.Keys && OnCards(c.gpus, |n.free|)
  {
  }

  /** Where a placement stands once its evictions are done. */
  lemma Emptied(n: NodeState, c: Candidate, exclude: set<ModelKey>, now: int, m: NodeState, model: ModelKey, nextId: ReplicaId)
    requires NodeInv(n) && NodeInv(m) && HasRoom(n, c) && Cleared(n, c.evictions, exclude, now, m)
    requires Key(model, nextId) !in n.hot && Key(model, nextId) !in n.warm
    ensures m.id == n.id && |m.free| == |n.free| && m.hot == n.hot - c.evictions && Key(model, nextId) !in m.warm
    ensures forall g :: g in c.gpus ==> m.free[g] >= c.gpus[g]
  {
    hide Total;
    forall g | g in c.gpus ensures m.free[g] >= c.gpus[g] {
      FreeAfterLeaving(n, c.evictions, m, g);
    }
  }

  /** And once the replica is registered. */
  lemma Landed(n: NodeState, c: Candidate, exclude: set<ModelKey>, now: int, nextId: ReplicaId,
               m: NodeState, k: Key, d: Deployment, n': NodeState)
    requires NodeInv(n) && NodeInv(m) && OnCards(c.gpus, |n.free|) && Cleared(n, c.evictions, exclude, now, m)
    requires EvictedAll(n, c.evictions, exclude, now, m)
    requires m.id == n.id && |m.free| == |n.free| && m.hot == n.hot - c.evictions
    requires forall g :: g in c.gpus ==> m.free[g] >= c.gpus[g]
    requires Takes(m, k, nextId) && Lands(m, k, d, n') && Key(k.model, nextId) !in n.hot
    requires d.gpus == c.gpus && d.key == k && d.node == m.id && d.level == Hot
    ensures (RoomIsReal(n') <==> TakesRoom(c.gpus, d.size)) && (NodeInv(n') <==> RoomIsReal(n'))
    ensures n'.hot == (n.hot - c.evictions)[k := d] && PlacedAfter(n, c, exclude, nextId, now, k, d, n')
    ensures k.model in exclude && (forall j :: j in c.evictions ==> j.model !in exclude) ==>
      && Moves(exclude, nextId, now, n, n') && k !in n.hot
      && if IsCached(n, k.model) then k in n.warm else k.replica == nextId
  {
    hide NodeInv, Moves, Cleared, EvictedAll, IsCached, RoomIsReal, Lands, GpuBalanced, CpuBalanced;
    FreshKey(m, k, nextId, n.hot.Keys);
    LandingBalances(m, k, d, n');
    assert n'.hot == (n.hot - c.evictions)[k := d] by { LandedHot(m, k, d, n'); }
    if k.model in exclude && forall j :: j in c.evictions ==> j.model !in exclude {
      LevelPredictsPromotion(n, c.evictions, exclude, now, m, k.model);
      NotHotYet(n, c.evictions, exclude, now, m, k, nextId);
      InvRegistered(n);
      LandingMoves(n, c.evictions, exclude, now, nextId, m, k, d, n');
      assert k !in n.hot;
    }
  }

  lemma LandedHot(m: NodeState, k: Key, d: Deployment, n': NodeState)
    requires Lands(m, k, d, n')
    ensures n'.hot == m.hot[k := d]
  {
  }

  lemma InvRegistered(n: NodeState)
    requires NodeInv(n)
    ensures Registered(n)
  {
  }

  lemma FreshKey(m: NodeState, k: Key, nextId: ReplicaId, keys: set<Key>)
    requires NodeInv(m) && Takes(m, k, nextId) && m.hot.Keys <= keys && Key(k.model, nextId) !in keys
    ensures k !in m.hot
  {
    hide GpuBalanced, CpuBalanced;
    assert k == Key(k.model, k.replica);
  }

  lemma NotHotYet(n: NodeState, gone: set<Key>, exclude: set<ModelKey>, now: int, m: NodeState, k: Key, nextId: ReplicaId)
    requires NodeInv(n) && Cleared(n, gone, exclude, now, m) && Takes(m, k, nextId) && Key(k.model, nextId) !in n.hot
    requires k.model in exclude && forall j :: j in gone ==> j.model !in exclude
    ensures k !in n.hot
  {
    hide GpuBalanced, CpuBalanced;
    assert k == Key(k.model, k.replica);
  }

  // ----------------------------------------------------------- greedy searches

  /** A replica and what it weighs on the meter being cleared. */
  datatype Occupant = Occupant(key: Key, bytes: int)

  function BytesOf(o: Occupant): int { o.bytes }

  /** `ks` lists the replicas of `rs`, lightest first. */
  predicate Enumerates(rs: Replicas, m: Meter, ks: seq<Key>) {
    && Distinct(ks)
    && (forall i :: 0 <= i < |ks| ==> ks[i] in rs)
    && (forall k :: k in rs ==> k in ks)
    && (forall i, j :: 0 <= i < j < |ks| ==> Weight(rs[ks[i]], m) <= Weight(rs[ks[j]], m))
  }

  predicate OccupantOf(rs: Replicas, m: Meter, o: Occupant) {
    o.key in rs && o.bytes == Weight(rs[o.key], m)
  }

  method Occupants(rs: Replicas, m: Meter) returns (os: seq<Occupant>)
    ensures Distinct(os) && forall o :: o in os <==> OccupantOf(rs, m, o)
  {
    var ks := Listing(rs.Keys);
    os := [];
    for i := 0 to |ks|
      invariant Distinct(os)
      invariant forall o :: o in os <==> o.key in ks[..i] && OccupantOf(rs, m, o)
    {
      var k := ks[i];
      assert k in ks && k !in ks[..i] && ks[..i + 1] == ks[..i] + [k];
      os := os + [Occupant(k, Weight(rs[k], m))];
    }
    assert ks[..|ks|] == ks;
  }

  /** The `sorted(..., key=bytes)` both searches start from. */
  method LightestFirst(rs: Replicas, m: Meter) returns (ks: seq<Key>)
    ensures Enumerates(rs, m, ks)
  {
    var os := Occupants(rs, m);
    SortDistinct(os, BytesOf);
    var sorted := SortBy(os, BytesOf);
    assert forall i :: 0 <= i < |sorted| ==> sorted[i] in sorted;
    ks := seq(|sorted|, i requires 0 <= i < |sorted| => sorted[i].key);
    ProjectsToEnumeration(rs, m, sorted, ks);
  }

  lemma ProjectsToEnumeration(rs: Replicas, m: Meter, sorted: seq<Occupant>, ks: seq<Key>)
    requires |ks| == |sorted| && forall i :: 0 <= i < |ks| ==> ks[i] == sorted[i].key
    requires Distinct(sorted) && SortedBy(sorted, BytesOf)
    requires forall i :: 0 <= i < |sorted| ==> OccupantOf(rs, m, sorted[i])
    requires forall k :: k in rs ==> Occupant(k, Weight(rs[k], m)) in sorted
    ensures Enumerates(rs, m, ks)
  {
    forall k | k in rs ensures k in ks {
      var i :| 0 <= i < |sorted| && sorted[i] == Occupant(k, Weight(rs[k], m));
      assert ks[i] == k;
    }
    forall i, j | 0 <= i < j < |ks|
      ensures ks[i] != ks[j] && Weight(rs[ks[i]], m) <= Weight(rs[ks[j]], m)
    {
      assert OccupantOf(rs, m, sorted[i]) && OccupantOf(rs, m, sorted[j]) && sorted[i] != sorted[j];
      assert BytesOf(sorted[i]) <= BytesOf(sorted[j]);
    }
  }

  /** What the first `i` of `ks` weigh together. */
  ghost function Freed(rs: Replicas, m: Meter, ks: seq<Key>, i: nat): int
    requires i <= |ks|
  {
    Total(Only(rs, Elements(ks[..i])), m)
  }

  lemma PrefixGrows(ks: seq<Key>, i: nat)
    requires Distinct(ks) && i < |ks|
    ensures Elements(ks[..i + 1]) == Elements(ks[..i]) + {ks[i]}
    ensures ks[i] !in Elements(ks[..i])
  {
    assert ks[..i + 1] == ks[..i] + [ks[i]];
  }

  lemma NextFreed(rs: Replicas, m: Meter, ks: seq<Key>, i: nat)
    requires Enumerates(rs, m, ks) && i < |ks|
    ensures Freed(rs, m, ks, i + 1) == Freed(rs, m, ks, i) + Weight(rs[ks[i]], m)
  {
    PrefixGrows(ks, i);
    TotalOnlyGrows(rs, Elements(ks[..i]), ks[i], m);
  }

  lemma FreedIsBounded(rs: Replicas, m: Meter, ks: seq<Key>, i: nat)
    requires Enumerates(rs, m, ks) && i <= |ks| && NoCredit(rs, m)
    ensures Freed(rs, m, ks, 0) == 0
    ensures Freed(rs, m, ks, i) <= Total(rs, m)
    ensures Freed(rs, m, ks, |ks|) == Total(rs, m)
  {
    assert Only(rs, Elements(ks[..0])) == map[];
    assert ks[..|ks|] == ks && Only(rs, Elements(ks)) == rs;
    TotalSplit(rs, Elements(ks[..i]), m);
    TotalNotNegative(rs - Elements(ks[..i]), m);
    hide Total, Enumerates;
  }

  /** The lightest replicas whose going frees `needed`: None exactly when all of
      them together would not, and never one more than it takes. */
  method ShortestPrefix(rs: Replicas, m: Meter, ks: seq<Key>, needed: int) returns (r: Option<nat>)
    requires Enumerates(rs, m, ks) && needed > 0 && NoCredit(rs, m)
    ensures r.Some? <==> Total(rs, m) >= needed
    ensures r.Some? ==>
      0 < r.value <= |ks| && Freed(rs, m, ks, r.value) >= needed && Freed(rs, m, ks, r.value - 1) < needed
  {
    var freed := 0;
    FreedIsBounded(rs, m, ks, 0);
    for i := 0 to |ks|
      invariant freed == Freed(rs, m, ks, i) && freed < needed
    {
      NextFreed(rs, m, ks, i);
      freed := freed + Weight(rs[ks[i]], m);
      if freed >= needed {
        FreedIsBounded(rs, m, ks, i + 1);
        return Some(i + 1);
      }
    }
    return None;
  }

  lemma LeftBehindIsHeavier(rs: Replicas, m: Meter, ks: seq<Key>, t: nat, a: Key, b: Key)
    requires Enumerates(rs, m, ks) && t <= |ks|
    requires a in ks[..t] && b in rs && b !in ks[..t]
    ensures a in rs && Weight(rs[a], m) <= Weight(rs[b], m)
  {
    var x :| 0 <= x < t && ks[x] == a;
    var y :| 0 <= y < |ks| && ks[y] == b;
    assert forall z :: 0 <= z < t ==> ks[z] in ks[..t];
  }

  lemma OutsideOnly(rs: Replicas, exclude: set<ModelKey>, ks: set<Key>)
    requires ks <= Outside(rs, exclude).Keys
    ensures Only(Outside(rs, exclude), ks) == Only(rs, ks)
  {
  }

  lemma PrefixIsDropPlan(n: NodeState, size: int, exclude: set<ModelKey>, ks: seq<Key>, t: nat)
    requires Enumerates(Outside(n.warm, exclude), Cpu, ks) && 0 < t <= |ks|
    requires Freed(Outside(n.warm, exclude), Cpu, ks, t) >= size - n.cpuFree
    requires Freed(Outside(n.warm, exclude), Cpu, ks, t - 1) < size - n.cpuFree
    ensures DropPlan(n, size, exclude, Elements(ks[..t]))
  {
    hide Total;
    var rs := Outside(n.warm, exclude);
    var dropped := Elements(ks[..t]);
    var last := ks[t - 1];
    PrefixGrows(ks, t - 1);
    assert dropped - {last} == Elements(ks[..t - 1]);
    assert dropped <= rs.Keys;
    OutsideOnly(n.warm, exclude, dropped);
    OutsideOnly(n.warm, exclude, dropped - {last});
    assert last in dropped && size > n.cpuFree + Total(Only(n.warm, dropped - {last}), Cpu);
    forall a, b | a in dropped && b in rs && b !in dropped
      ensures n.warm[a].size <= n.warm[b].size
    {
      LeftBehindIsHeavier(rs, Cpu, ks, t, a, b);
    }
  }

  lemma NothingToDrop(n: NodeState, size: int, exclude: set<ModelKey>)
    requires size <= n.cpuFree
    ensures DropPlan(n, size, exclude, Elements([]))
  {
    assert Only(n.warm, Elements([])) == map[];
  }

  /** Room on the CPU does not depend on the cards. */
  lemma RoomIgnoresCards(n: NodeState, free: seq<int>, size: int, exclude: set<ModelKey>)
    ensures RoomCanBeMade(n.(free := free), size, exclude) == RoomCanBeMade(n, size, exclude)
    ensures forall dropped :: DropPlan(n.(free := free), size, exclude, dropped) ==> DropPlan(n, size, exclude, dropped)
  {
  }

  /** `find_cache_evictions`: the WARM replicas to drop for `size` bytes of CPU
      room, or None exactly when dropping every one allowed would not do. */
  method FindCacheEvictions(n: NodeState, size: int, exclude: set<ModelKey>) returns (r: Option<seq<Key>>)
    requires NoCredit(n.warm, Cpu)
    ensures r.Some? <==> RoomCanBeMade(n, size, exclude)
    ensures r.Some? ==> Distinct(r.value) && DropPlan(n, size, exclude, Elements(r.value))
  {
    hide DropPlan, Total, Freed;
    var needed := size - n.cpuFree;
    if needed <= 0 {
      NothingToDrop(n, size, exclude);
      TotalNotNegative(Outside(n.warm, exclude), Cpu);
      return Some([]);
    }
    var ks := LightestFirst(Outside(n.warm, exclude), Cpu);
    var t := ShortestPrefix(Outside(n.warm, exclude), Cpu, ks, needed);
    if t.None? {
      return None;
    }
    PrefixIsDropPlan(n, size, exclude, ks, t.value);
    return Some(ks[..t.value]);
  }

  /** A card that can be opened, and what leaves it to do so. */
  datatype GpuPlan = GpuPlan(index: nat, evictions: seq<Key>)

  function CostOf(p: GpuPlan): int { |p.evictions| }

  /** The plan opens its card as it should. */
  ghost predicate OpensCard(n: NodeState, allowed: set<Key>, share: int, p: GpuPlan) {
    p.index < |n.free| && Distinct(p.evictions) && OpensLean(n, allowed, share, p.index, Elements(p.evictions))
  }

  /** The lightest replicas weigh least: no as many others weigh less. */
  lemma {:induction false} LightestWeighLeast(rs: Replicas, m: Meter, light: set<Key>, others: set<Key>)
    requires light <= rs.Keys && others <= rs.Keys && |light| <= |others| && NoCredit(rs, m)
    requires forall a, b :: a in light && b in rs && b !in light ==> Weight(rs[a], m) <= Weight(rs[b], m)
    ensures Total(Only(rs, light), m) <= Total(Only(rs, others), m)
    decreases |light - others|
  {
    hide Total, Weight;
    if light <= others {
      TotalOnlyMonotone(rs, light, others, m);
    } else {
      var a :| a in light && a !in others;
      var b := Extra(light, others);
      var swapped := others - {b} + {a};
      assert |swapped| == |others| && light - swapped == light - others - {a};
      TotalOnlyGrows(rs, others - {b}, a, m);
      TotalOnlyGrows(rs, others - {b}, b, m);
      assert others - {b} + {b} == others;
      LightestWeighLeast(rs, m, light, swapped);
    }
  }

  lemma Extra(light: set<Key>, others: set<Key>) returns (b: Key)
    requires |light| <= |others| && !(light <= others)
    ensures b in others && b !in light
  {
    assert others == (others * light) + (others - light) && light == (others * light) + (light - others);
    var a :| a in light && a !in others;
    assert a in light - others;
    assert |others - light| > 0;
    b :| b in others - light;
  }

  /** Any two ways of opening a card so take the same number of evictions. */
  lemma LeanPlansAgree(n: NodeState, allowed: set<Key>, share: int, g: nat, p: set<Key>, q: set<Key>)
    requires g < |n.free| && Uncredited(n) && OpensLean(n, allowed, share, g, p) && OpensLean(n, allowed, share, g, q)
    ensures |p| == |q|
  {
    if |p| < |q| {
      FewerDoNotOpen(n, allowed, share, g, p, q);
    } else if |q| < |p| {
      FewerDoNotOpen(n, allowed, share, g, q, p);
    }
  }

  lemma FewerDoNotOpen(n: NodeState, allowed: set<Key>, share: int, g: nat, p: set<Key>, q: set<Key>)
    requires g < |n.free| && Uncredited(n) && OpensLean(n, allowed, share, g, p) && OpensLean(n, allowed, share, g, q)
    ensures |p| >= |q|
  {
    hide Total, Uncredited;
    if |p| < |q| {
      var last :| last in q && FreeWithout(n, q - {last}, g) < share;
      var holders := Holders(n, allowed, g);
      Weighs(n, g);
      assert Only(holders, p) == Only(n.hot, p) && Only(holders, q - {last}) == Only(n.hot, q - {last});
      LightestWeighLeast(holders, Gpu(g), p, q - {last});
      assert false;
    }
  }

  lemma OnlyHoldersWeigh(n: NodeState, allowed: set<Key>, g: nat)
    ensures Total(Only(n.hot, allowed), Gpu(g)) == Total(Holders(n, allowed, g), Gpu(g))
  {
    TotalOnlyHolders(n.hot, allowed, allowed * Holders(n, allowed, g).Keys, Gpu(g));
    assert Only(n.hot, allowed * Holders(n, allowed, g).Keys) == Holders(n, allowed, g);
  }

  lemma OpenAlready(n: NodeState, allowed: set<Key>, share: int, g: nat)
    requires g < |n.free| && Uncredited(n) && n.free[g] >= share
    ensures g in Clearable(n, allowed, share) && OpensCard(n, allowed, share, GpuPlan(g, []))
  {
    hide Uncredited, FreeWithout;
    FreeOrMore(n, allowed, g);
    FreeOrMore(n, {}, g);
    assert Elements<Key>([]) == {};
  }

  /** Only the holders of a card can open it. */
  lemma HoldersDecide(n: NodeState, allowed: set<Key>, share: int, g: nat)
    requires g < |n.free| && Uncredited(n)
    ensures g in Clearable(n, allowed, share) <==> Total(Holders(n, allowed, g), Gpu(g)) >= share - n.free[g]
    ensures NoCredit(Holders(n, allowed, g), Gpu(g))
  {
    hide Total;
    OnlyHoldersWeigh(n, allowed, g);
    Weighs(n, g);
  }

  lemma PrefixOpens(n: NodeState, allowed: set<Key>, share: int, g: nat, ks: seq<Key>, t: nat)
    requires g < |n.free| && n.free[g] < share && 0 < t <= |ks|
    requires Enumerates(Holders(n, allowed, g), Gpu(g), ks)
    requires Freed(Holders(n, allowed, g), Gpu(g), ks, t) >= share - n.free[g]
    requires Freed(Holders(n, allowed, g), Gpu(g), ks, t - 1) < share - n.free[g]
    ensures OpensCard(n, allowed, share, GpuPlan(g, ks[..t]))
  {
    hide Total, Weight, Holders;
    var holders, gone, last := Holders(n, allowed, g), Elements(ks[..t]), ks[t - 1];
    assert gone <= holders.Keys;
    PrefixGrows(ks, t - 1);
    assert gone - {last} == Elements(ks[..t - 1]);
    HoldersOnly(n, allowed, g, gone);
    HoldersOnly(n, allowed, g, gone - {last});
    assert last in gone && FreeWithout(n, gone - {last}, g) < share;
    forall a, b | a in gone && b in holders && b !in gone
      ensures Weight(holders[a], Gpu(g)) <= Weight(holders[b], Gpu(g))
    {
      LeftBehindIsHeavier(holders, Gpu(g), ks, t, a, b);
    }
    hide Enumerates, Freed, Elements, FreeWithout;
    HoldersAreHot(n, allowed, g);
  }

  lemma HoldersOnly(n: NodeState, allowed: set<Key>, g: nat, gone: set<Key>)
    requires gone <= Holders(n, allowed, g).Keys
    ensures Only(Holders(n, allowed, g), gone) == Only(n.hot, gone)
  {
  }

  lemma HoldersAreHot(n: NodeState, allowed: set<Key>, g: nat)
    ensures forall k :: k in Holders(n, allowed, g) ==> k in n.hot && Holders(n, allowed, g)[k] == n.hot[k]
  {
  }

  /** The plan for one card: there is one exactly when evicting everything
      allowed would open it. */
  method PlanCard(n: NodeState, allowed: set<Key>, share: int, g: nat) returns (plan: Option<GpuPlan>)
    requires g < |n.free| && Uncredited(n)
    ensures plan.Some? <==> g in Clearable(n, allowed, share)
    ensures plan.Some? ==> plan.value.index == g && OpensCard(n, allowed, share, plan.value)
  {
    hide Clearable, OpensCard, Holders, Enumerates, NoCredit, Freed, Total, Uncredited;
    var needed := share - n.free[g];
    if needed <= 0 {
      OpenAlready(n, allowed, share, g);
      return Some(GpuPlan(g, []));
    }
    var holders := Holders(n, allowed, g);
    HoldersDecide(n, allowed, share, g);
    var ks := LightestFirst(holders, Gpu(g));
    var t := ShortestPrefix(holders, Gpu(g), ks, needed);
    if t.None? {
      return None;
    }
    PrefixOpens(n, allowed, share, g, ks, t.value);
    return Some(GpuPlan(g, ks[..t.value]));
  }

  /** There is a plan for card `g`. */
  predicate PlansFor(plans: seq<GpuPlan>, g: nat) {
    exists i :: 0 <= i < |plans| && plans[i].index == g
  }

  predicate OnePerCard(plans: seq<GpuPlan>) {
    forall i, j :: 0 <= i < j < |plans| ==> plans[i].index != plans[j].index
  }

  /** Every card that can be opened, with its plan. */
  method PlanCards(n: NodeState, allowed: set<Key>, share: int) returns (plans: seq<GpuPlan>)
    requires Uncredited(n)
    ensures OnePerCard(plans) && |plans| == |Clearable(n, allowed, share)|
    ensures forall g :: g in Clearable(n, allowed, share) ==> PlansFor(plans, g)
    ensures forall p :: p in plans ==> OpensCard(n, allowed, share, p) && p.index in Clearable(n, allowed, share)
  {
    hide OpensCard, Clearable, Uncredited, PlansFor;
    plans := [];
    ghost var able: set<nat> := {};
    NoneBelow(n, allowed, share);
    for g := 0 to |n.free|
      invariant able == Below(n, allowed, share, g)
      invariant |plans| == |able| && OnePerCard(plans)
      invariant forall h :: h in able ==> PlansFor(plans, h)
      invariant forall p :: p in plans ==> OpensCard(n, allowed, share, p) && p.index in able
    {
      var plan := PlanCard(n, allowed, share, g);
      if plan.Some? {
        assert forall i :: 0 <= i < |plans| ==> plans[i] in plans;
        OneMorePlan(plans, plan.value);
        plans := plans + [plan.value];
        able := able + {g};
      }
      NextBelow(n, allowed, share, g);
    }
  }

  /** The cards below `g` that can be opened. */
  ghost function Below(n: NodeState, allowed: set<Key>, share: int, g: nat): set<nat> {
    set h | h in Clearable(n, allowed, share) && h < g
  }

  lemma NoneBelow(n: NodeState, allowed: set<Key>, share: int)
    ensures Below(n, allowed, share, 0) == {} && Below(n, allowed, share, |n.free|) == Clearable(n, allowed, share)
  {
  }

  lemma NextBelow(n: NodeState, allowed: set<Key>, share: int, g: nat)
    ensures Below(n, allowed, share, g + 1) ==
            if g in Clearable(n, allowed, share) then Below(n, allowed, share, g) + {g} else Below(n, allowed, share, g)
    ensures g !in Below(n, allowed, share, g)
  {
    hide Clearable;
  }

  lemma OneMorePlan(plans: seq<GpuPlan>, p: GpuPlan)
    ensures forall h :: PlansFor(plans, h) || h == p.index ==> PlansFor(plans + [p], h)
  {
    forall h | PlansFor(plans, h) || h == p.index ensures PlansFor(plans + [p], h) {
      if h == p.index {
        assert (plans + [p])[|plans|].index == h;
      } else {
        var i :| 0 <= i < |plans| && plans[i].index == h;
        assert (plans + [p])[i].index == h;
      }
    }
  }

  lemma SortKeepsOnePerCard(plans: seq<GpuPlan>, sorted: seq<GpuPlan>)
    requires OnePerCard(plans) && Distinct(sorted) && forall p :: p in sorted <==> p in plans
    ensures OnePerCard(sorted)
  {
    forall i, j | 0 <= i < j < |sorted|
      ensures sorted[i].index != sorted[j].index
    {
      assert sorted[i] in sorted && sorted[j] in sorted;
      var x :| 0 <= x < |plans| && plans[x] == sorted[i];
      var y :| 0 <= y < |plans| && plans[y] == sorted[j];
    }
  }

  /** The cards and the evictions of a list of plans. */
  function CardsOf(plans: seq<GpuPlan>): set<nat> {
    if plans == [] then {}
    else CardsOf(plans[..|plans| - 1]) + {plans[|plans| - 1].index}
  }

  function Leaving(plans: seq<GpuPlan>): set<Key> {
    if plans == [] then {}
    else Leaving(plans[..|plans| - 1]) + Elements(plans[|plans| - 1].evictions)
  }

  lemma {:induction false} PlanHas(plans: seq<GpuPlan>, i: nat)
    requires i < |plans|
    ensures Elements(plans[i].evictions) <= Leaving(plans) && plans[i].index in CardsOf(plans)
  {
    if i < |plans| - 1 {
      PlanHas(plans[..|plans| - 1], i);
    }
  }

  lemma {:induction false} CardFrom(plans: seq<GpuPlan>, g: nat) returns (i: nat)
    requires g in CardsOf(plans)
    ensures i < |plans| && plans[i].index == g
  {
    i := |plans| - 1;
    if plans[i].index != g {
      i := CardFrom(plans[..|plans| - 1], g);
    }
  }

  lemma {:induction false} LeavingFrom(plans: seq<GpuPlan>, k: Key) returns (i: nat)
    requires k in Leaving(plans)
    ensures i < |plans| && k in plans[i].evictions
  {
    i := |plans| - 1;
    if k !in plans[i].evictions {
      i := LeavingFrom(plans[..|plans| - 1], k);
    }
  }

  lemma NextPlan(plans: seq<GpuPlan>, i: nat)
    requires OnePerCard(plans) && i < |plans|
    ensures CardsOf(plans[..i + 1]) == CardsOf(plans[..i]) + {plans[i].index}
    ensures plans[i].index !in CardsOf(plans[..i])
    ensures Leaving(plans[..i + 1]) == Leaving(plans[..i]) + Elements(plans[i].evictions)
  {
    var more := plans[..i + 1];
    assert more[..i] == plans[..i] && more[i] == plans[i];
    if plans[i].index in CardsOf(plans[..i]) {
      var j := CardFrom(plans[..i], plans[i].index);
      assert false;
    }
  }

  /** The evictions of every taken plan together open every taken card, are all
      allowed, and each leaves a taken card that was short. */
  lemma PlansTogether(n: NodeState, allowed: set<Key>, share: int, taken: seq<GpuPlan>, c: Candidate)
    requires Uncredited(n) && forall i :: 0 <= i < |taken| ==> OpensCard(n, allowed, share, taken[i])
    requires c.evictions == Leaving(taken) && c.gpus.Keys == CardsOf(taken)
    ensures OnCards(c.gpus, |n.free|) && c.evictions <= allowed && Thrifty(n, c, share)
    ensures forall g :: g in c.gpus ==> FreeWithout(n, c.evictions, g) >= share
  {
    forall g | g in c.gpus
      ensures g < |n.free| && FreeWithout(n, c.evictions, g) >= share
    {
      var i := CardFrom(taken, g);
      PlanHas(taken, i);
      Weighs(n, g);
      TotalOnlyMonotone(n.hot, Elements(taken[i].evictions), c.evictions, Gpu(g));
    }
    forall k | k in c.evictions
      ensures k in n.hot && k in allowed
      ensures exists g: nat :: g in c.gpus && g < |n.free| && n.free[g] < share && g in n.hot[k].gpus
    {
      var i := LeavingFrom(taken, k);
      assert OpensCard(n, allowed, share, taken[i]) && k in Elements(taken[i].evictions);
      PlanHas(taken, i);
    }
  }

  /** The plans by card. */
  function PlanMap(plans: seq<GpuPlan>): map<nat, set<Key>>
    requires OnePerCard(plans)
  {
    map i | 0 <= i < |plans| :: plans[i].index := Elements(plans[i].evictions)
  }

  lemma PlanMapAt(plans: seq<GpuPlan>, i: nat)
    requires OnePerCard(plans) && i < |plans|
    ensures plans[i].index in PlanMap(plans) && PlanMap(plans)[plans[i].index] == Elements(plans[i].evictions)
  {
  }

  lemma PlanMapFrom(plans: seq<GpuPlan>, g: nat) returns (i: nat)
    requires OnePerCard(plans) && g in PlanMap(plans)
    ensures i < |plans| && plans[i].index == g && PlanMap(plans)[g] == Elements(plans[i].evictions)
  {
    i :| 0 <= i < |plans| && plans[i].index == g;
    PlanMapAt(plans, i);
  }

  lemma TakenCard(sorted: seq<GpuPlan>, count: nat, i: nat)
    requires OnePerCard(sorted) && count <= |sorted| && i < |sorted|
    ensures sorted[i].index in CardsOf(sorted[..count]) <==> i < count
  {
    if i < count {
      PlanHas(sorted[..count], i);
    } else if sorted[i].index in CardsOf(sorted[..count]) {
      var j := CardFrom(sorted[..count], sorted[i].index);
      assert false;
    }
  }

  /** Taking the first plans, fewest evictions first, is lean. */
  lemma FewestIsLean(n: NodeState, allowed: set<Key>, share: int, sorted: seq<GpuPlan>, count: nat, c: Candidate)
    requires OnePerCard(sorted) && SortedBy(sorted, CostOf) && count <= |sorted|
    requires forall i :: 0 <= i < |sorted| ==> OpensCard(n, allowed, share, sorted[i]) && sorted[i].index in Clearable(n, allowed, share)
    requires forall g :: g in Clearable(n, allowed, share) ==> PlansFor(sorted, g)
    requires c.evictions == Leaving(sorted[..count]) && c.gpus.Keys == CardsOf(sorted[..count])
    ensures Lean(n, allowed, share, c)
  {
    hide OpensLean, Clearable, CardsOf, Leaving, Elements, OnePerCard, PlanMap;
    var plan := PlanMap(sorted);
    assert plan.Keys == Clearable(n, allowed, share) by { PlansAllCards(n, allowed, share, sorted); }
    forall g | g in plan ensures g < |n.free| && OpensLean(n, allowed, share, g, plan[g]) {
      var i := PlanMapFrom(sorted, g);
    }
    forall g | g in c.gpus ensures g in plan {
      var i := CardFrom(sorted[..count], g);
      PlanMapAt(sorted, i);
    }
    forall k ensures k in c.evictions <==> exists g :: g in c.gpus && k in plan[g] {
      EvictedByPlan(sorted, count, k, c);
    }
    forall g, h | g in c.gpus && h in plan && h !in c.gpus ensures |plan[g]| <= |plan[h]| {
      CheaperTaken(sorted, count, c, g, h);
    }
    assert LeanBy(n, allowed, share, c, plan);
  }

  lemma PlansAllCards(n: NodeState, allowed: set<Key>, share: int, sorted: seq<GpuPlan>)
    requires OnePerCard(sorted) && forall i :: 0 <= i < |sorted| ==> sorted[i].index in Clearable(n, allowed, share)
    requires forall g :: g in Clearable(n, allowed, share) ==> PlansFor(sorted, g)
    ensures PlanMap(sorted).Keys == Clearable(n, allowed, share)
  {
    hide Clearable;
  }

  lemma EvictedByPlan(sorted: seq<GpuPlan>, count: nat, k: Key, c: Candidate)
    requires OnePerCard(sorted) && count <= |sorted|
    requires c.evictions == Leaving(sorted[..count]) && c.gpus.Keys == CardsOf(sorted[..count]) && c.gpus.Keys <= PlanMap(sorted).Keys
    ensures k in c.evictions <==> exists g :: g in c.gpus && k in PlanMap(sorted)[g]
  {
    hide CardsOf, Leaving, PlanMap, OnePerCard;
    if k in c.evictions {
      var i := LeavingFrom(sorted[..count], k);
      PlanHas(sorted[..count], i);
      PlanMapAt(sorted, i);
      assert sorted[i].index in c.gpus && k in PlanMap(sorted)[sorted[i].index];
    }
    if g :| g in c.gpus && k in PlanMap(sorted)[g] {
      var i := CardFrom(sorted[..count], g);
      PlanMapAt(sorted, i);
      PlanHas(sorted[..count], i);
    }
  }

  lemma CheaperTaken(sorted: seq<GpuPlan>, count: nat, c: Candidate, g: nat, h: nat)
    requires OnePerCard(sorted) && SortedBy(sorted, CostOf) && count <= |sorted| && c.gpus.Keys == CardsOf(sorted[..count])
    requires forall i :: 0 <= i < |sorted| ==> Distinct(sorted[i].evictions)
    requires g in c.gpus && g in PlanMap(sorted) && h in PlanMap(sorted) && h !in c.gpus
    ensures |PlanMap(sorted)[g]| <= |PlanMap(sorted)[h]|
  {
    hide CardsOf, PlanMap, Elements, Distinct;
    var i := CardFrom(sorted[..count], g);
    PlanMapAt(sorted, i);
    var j := PlanMapFrom(sorted, h);
    TakenCard(sorted, count, j);
    DistinctCount(sorted[i].evictions);
    DistinctCount(sorted[j].evictions);
    assert CostOf(sorted[i]) <= CostOf(sorted[j]);
  }

  /** The allowed evictions that open `count` cards, fewest per card first;
      nothing when that many cannot be opened. */
  method FindEvictions(n: NodeState, allowed: set<Key>, count: nat, share: int)
      returns (evictions: set<Key>, gpus: map<nat, int>)
    requires count > 0 && allowed <= n.hot.Keys && Uncredited(n)
    ensures |Clearable(n, allowed, share)| < count ==> evictions == {} && gpus == map[]
    ensures |Clearable(n, allowed, share)| >= count ==>
      && |gpus| == count && OnCards(gpus, |n.free|) && evictions <= allowed
      && (forall g :: g in gpus ==> gpus[g] == share && FreeWithout(n, evictions, g) >= share)
      && Thrifty(n, Candidate(Full, gpus, evictions, false), share)
      && Lean(n, allowed, share, Candidate(Full, gpus, evictions, false))
  {
    hide Clearable, OpensCard, Thrifty, FreeWithout, Uncredited, Leaving, CardsOf, Lean;
    var plans := PlanCards(n, allowed, share);
    evictions, gpus := {}, map[];
    if |plans| < count {
      return;
    }
    assert Distinct(plans);
    SortDistinct(plans, CostOf);
    var sorted := SortBy(plans, CostOf);
    SortKeepsOnePerCard(plans, sorted);
    evictions, gpus := TakePlans(sorted, count, share);
    assert forall i :: 0 <= i < |sorted| ==> sorted[i] in sorted;
    PlansTogether(n, allowed, share, sorted[..count], Candidate(Full, gpus, evictions, false));
    SortKeepsCards(plans, sorted);
    FewestIsLean(n, allowed, share, sorted, count, Candidate(Full, gpus, evictions, false));
  }

  lemma SortKeepsCards(plans: seq<GpuPlan>, sorted: seq<GpuPlan>)
    requires forall p :: p in sorted <==> p in plans
    ensures forall g :: PlansFor(plans, g) ==> PlansFor(sorted, g)
  {
    forall g | PlansFor(plans, g) ensures PlansFor(sorted, g) {
      var i :| 0 <= i < |plans| && plans[i].index == g;
      assert plans[i] in sorted;
      var j :| 0 <= j < |sorted| && sorted[j] == plans[i];
    }
  }

  /** The same share on each of `cards`. */
  function Booked(cards: set<nat>, share: int): (gpus: map<nat, int>)
    ensures gpus.Keys == cards
  {
    map g | g in cards :: share
  }

  lemma NoPlans(sorted: seq<GpuPlan>)
    ensures CardsOf(sorted[..0]) == {} && Leaving(sorted[..0]) == {}
    ensures forall share :: Booked({}, share) == map[]
  {
    assert sorted[..0] == [];
  }

  lemma BookOneMore(cards: set<nat>, share: int, g: nat)
    requires g !in cards
    ensures Booked(cards, share)[g := share] == Booked(cards + {g}, share)
    ensures |Booked(cards, share)| == |cards| && |Booked(cards + {g}, share)| == |cards| + 1
  {
    assert |Booked(cards, share).Keys| == |cards|;
    assert |Booked(cards + {g}, share).Keys| == |cards + {g}|;
  }

  method TakePlans(sorted: seq<GpuPlan>, count: nat, share: int) returns (evictions: set<Key>, gpus: map<nat, int>)
    requires OnePerCard(sorted) && count <= |sorted|
    ensures |gpus| == count && gpus == Booked(CardsOf(sorted[..count]), share)
    ensures evictions == Leaving(sorted[..count])
  {
    hide CardsOf, Leaving, OnePerCard, Booked, Elements;
    evictions, gpus := {}, map[];
    NoPlans(sorted);
    for i := 0 to count
      invariant |gpus| == i && gpus == Booked(CardsOf(sorted[..i]), share)
      invariant evictions == Leaving(sorted[..i])
    {
      NextPlan(sorted, i);
      evictions := evictions + Elements(sorted[i].evictions);
      BookOneMore(CardsOf(sorted[..i]), share, sorted[i].index);
      gpus := gpus[sorted[i].index := share];
    }
  }

  datatype Card = Card(index: nat, available: int)

  function AvailableOf(c: Card): int { c.available }

  /** `cards` lists the cards with room, fullest first. */
  predicate ListsFitting(n: NodeState, share: int, cards: seq<Card>) {
    && Distinct(cards) && SortedBy(cards, AvailableOf)
    && (forall c :: c in cards ==> c.index in Fitting(n, share) && c.available == n.free[c.index])
    && (forall g :: g in Fitting(n, share) ==> Card(g, n.free[g]) in cards)
  }

  /** `GPUResources.fitting`. */
  method FittingCards(n: NodeState, share: int) returns (cards: seq<Card>)
    ensures |cards| == |Fitting(n, share)| && ListsFitting(n, share, cards)
  {
    cards := [];
    ghost var fit: set<nat> := {};
    for g := 0 to |n.free|
      invariant fit == set h | h in Fitting(n, share) && h < g
      invariant |cards| == |fit| && Distinct(cards)
      invariant forall c :: c in cards ==> c.index in fit && c.available == n.free[c.index]
      invariant forall h :: h in fit ==> Card(h, n.free[h]) in cards
    {
      if n.free[g] >= share {
        cards := cards + [Card(g, n.free[g])];
        fit := fit + {g};
      }
    }
    assert fit == Fitting(n, share);
    SortDistinct(cards, AvailableOf);
    cards := SortBy(cards, AvailableOf);
  }

  function Indices(cards: seq<Card>): set<nat> {
    set i | 0 <= i < |cards| :: cards[i].index
  }

  lemma {:induction false} IndicesCount(cards: seq<Card>)
    requires forall i, j :: 0 <= i < j < |cards| ==> cards[i].index != cards[j].index
    ensures |Indices(cards)| == |cards|
  {
    if cards != [] {
      var rest := cards[..|cards| - 1];
      IndicesCount(rest);
      assert Indices(cards) == Indices(rest) + {cards[|cards| - 1].index} by {
        assert forall i :: 0 <= i < |rest| ==> rest[i] == cards[i];
      }
    }
  }

  lemma FittingIndicesDiffer(n: NodeState, share: int, cards: seq<Card>)
    requires ListsFitting(n, share, cards)
    ensures forall i, j :: 0 <= i < j < |cards| ==> cards[i].index != cards[j].index
  {
    forall i, j | 0 <= i < j < |cards| ensures cards[i].index != cards[j].index {
      assert cards[i] in cards && cards[j] in cards && cards[i] != cards[j];
    }
  }

  /** Books `share` on `fitting_gpus[:count]`. */
  function BookFitting(cards: seq<Card>, count: int, share: int): map<nat, int> {
    Booked(Indices(cards[..Sliced(count, |cards|)]), share)
  }

  lemma BookingIsBestFit(n: NodeState, count: int, share: int, cards: seq<Card>, c: Candidate)
    requires ListsFitting(n, share, cards) && c.gpus == BookFitting(cards, count, share)
    ensures BestFit(n, c, share) && c.gpus.Keys <= Fitting(n, share) && |c.gpus| == Sliced(count, |cards|)
  {
    var taken := Sliced(count, |cards|);
    FittingIndicesDiffer(n, share, cards);
    IndicesCount(cards[..taken]);
    assert |c.gpus| == |c.gpus.Keys| && c.gpus.Keys == Indices(cards[..taken]);
    assert forall i :: 0 <= i < taken ==> cards[..taken][i] == cards[i] && cards[i] in cards;
    hide Distinct, Sliced;
    forall g, h | g in c.gpus && g < |n.free| && h in Fitting(n, share) && h !in c.gpus
      ensures n.free[g] <= n.free[h]
    {
      var x :| 0 <= x < taken && cards[..taken][x].index == g;
      var y :| 0 <= y < |cards| && cards[y] == Card(h, n.free[h]);
      assert forall z :: 0 <= z < taken ==> cards[z].index in c.gpus;
      assert AvailableOf(cards[x]) <= AvailableOf(cards[y]);
    }
  }

  lemma FreeDecision(n: NodeState, q: Query, cards: seq<Card>, c: Candidate)
    requires Counted(n, q) && CountFor(n, q).n <= |cards|
    requires ListsFitting(n, ShareFor(n, q), cards) && |cards| == |Fitting(n, ShareFor(n, q))|
    requires c == Candidate(if IsCached(n, q.model) then CachedAndFree else Free,
                            BookFitting(cards, CountFor(n, q).n, ShareFor(n, q)), {}, false)
    ensures Decides(n, q, c)
  {
    BookingIsBestFit(n, CountFor(n, q).n, ShareFor(n, q), cards, c);
  }

  lemma FullDecision(n: NodeState, q: Query, c: Candidate)
    requires Counted(n, q)
    requires |Fitting(n, ShareFor(n, q))| < CountFor(n, q).n <= |Clearable(n, Reclaimable(n, q), ShareFor(n, q))|
    requires c.level == (if IsCached(n, q.model) then CachedAndFull else Full) && !c.uneven
    requires |c.gpus| == CountFor(n, q).n && OnCards(c.gpus, |n.free|) && c.evictions <= Reclaimable(n, q)
    requires forall g :: g in c.gpus ==>
      c.gpus[g] == ShareFor(n, q) && FreeWithout(n, c.evictions, g) >= ShareFor(n, q)
    requires Thrifty(n, c, ShareFor(n, q)) && Lean(n, Reclaimable(n, q), ShareFor(n, q), c)
    ensures Decides(n, q, c)
  {
    hide Thrifty, Lean, FreeWithout;
  }

  /** Being lean is about the cards and the evictions. */
  lemma LeanWhateverTheLevel(n: NodeState, allowed: set<Key>, share: int, c: Candidate, c': Candidate)
    requires Lean(n, allowed, share, c) && c'.gpus == c.gpus && c'.evictions == c.evictions
    ensures Lean(n, allowed, share, c')
  {
    hide OpensLean, Clearable;
    var plan :| LeanBy(n, allowed, share, c, plan);
    assert LeanBy(n, allowed, share, c', plan);
  }

  /** The last two branches of `evaluate`, once the count and share are known. */
  method Fit(n: NodeState, q: Query, count: int, share: int) returns (c: Candidate)
    requires Counted(n, q) && CountFor(n, q) == Cards(count) && share == ShareFor(n, q) && Uncredited(n)
    ensures Decides(n, q, c)
  {
    hide Lean, Thrifty, FreeWithout, ListsFitting, BookFitting, Decides, Reclaimable, Fitting, Counted, CardCount;
    var cached := exists k :: k in n.warm && k.model == q.model;
    var cards := FittingCards(n, share);
    if |cards| >= count {
      c := Candidate(if cached then CachedAndFree else Free, BookFitting(cards, count, share), {}, false);
      FreeDecision(n, q, cards, c);
    } else {
      c := FitByEvicting(n, q, count, share, cached);
    }
  }

  method FitByEvicting(n: NodeState, q: Query, count: int, share: int, cached: bool) returns (c: Candidate)
    requires Counted(n, q) && CountFor(n, q) == Cards(count) && share == ShareFor(n, q) && Uncredited(n)
    requires |Fitting(n, share)| < count && cached == IsCached(n, q.model)
    ensures Decides(n, q, c)
  {
    hide Lean, Thrifty, FreeWithout, Decides, IsCached, Fitting, Clearable, Counted, CardCount, Uncredited;
    var evictions, gpus := FindEvictions(n, Reclaimable(n, q), count, share);
    if gpus == map[] {
      c := REFUSED;
      RefusedDecision(n, q);
    } else {
      c := Candidate(if cached then CachedAndFull else Full, gpus, evictions, false);
      LeanWhateverTheLevel(n, Reclaimable(n, q), share, Candidate(Full, gpus, evictions, false), c);
      ThriftyWhateverTheLevel(n, share, Candidate(Full, gpus, evictions, false), c);
      FullDecision(n, q, c);
    }
  }

  lemma RefusedDecision(n: NodeState, q: Query)
    requires Counted(n, q) && |Fitting(n, ShareFor(n, q))| < CountFor(n, q).n
    requires |Clearable(n, Reclaimable(n, q), ShareFor(n, q))| < CountFor(n, q).n
    ensures Decides(n, q, REFUSED)
  {
    hide Fitting, Clearable, Reclaimable;
  }

  lemma ThriftyWhateverTheLevel(n: NodeState, share: int, c: Candidate, c': Candidate)
    requires Thrifty(n, c, share) && c'.gpus == c.gpus && c'.evictions == c.evictions
    ensures Thrifty(n, c', share)
  {
  }

  // ------------------------------------------------------------- the node itself

  class Node {
    const id: NodeId
    const memory: nat
    const minAge: Option<int>
    const budget: int
    var free: seq<int>
    var cpuFree: int
    var deployments: Replicas
    var cache: Replicas

    function Value(): NodeState
      reads this
    {
      NodeState(id, memory, minAge, free, budget, cpuFree, deployments, cache)
    }

    constructor (id: NodeId, memory: nat, cards: nat, budget: nat, minAge: Option<int>)
      ensures Value() == EmptyNode(id, memory, cards, budget, minAge)
    {
      this.id, this.memory, this.minAge, this.budget := id, memory, minAge, budget;
      free := seq(cards, _ => memory);
      cpuFree := budget;
      deployments, cache := map[], map[];
    }

    /** `GPUResources.allocate`: deducts a booking card by card. */
    method AllocateCards(gpus: map<nat, int>)
      requires OnCards(gpus, |free|)
      modifies this`free
      ensures free == Allocated(old(free), gpus)
    {
      var cards := Listing(gpus.Keys);
      for i := 0 to |cards|
        invariant |free| == |old(free)|
        invariant forall g :: 0 <= g < |free| ==>
          free[g] == old(free)[g] - (if g in cards[..i] then gpus[g] else 0)
      {
        assert cards[i] in cards && cards[i] !in cards[..i] && cards[..i + 1] == cards[..i] + [cards[i]];
        free := free[cards[i] := free[cards[i]] - gpus[cards[i]]];
      }
      assert cards[..|cards|] == cards;
    }

    /** `GPUResources.release`. */
    method ReleaseCards(gpus: map<nat, int>)
      requires OnCards(gpus, |free|)
      modifies this`free
      ensures free == Released(old(free), gpus)
    {
      var cards := Listing(gpus.Keys);
      for i := 0 to |cards|
        invariant |free| == |old(free)|
        invariant forall g :: 0 <= g < |free| ==>
          free[g] == old(free)[g] + (if g in cards[..i] then gpus[g] else 0)
      {
        assert cards[i] in cards && cards[i] !in cards[..i] && cards[..i + 1] == cards[..i] + [cards[i]];
        free := free[cards[i] := free[cards[i]] + gpus[cards[i]]];
      }
      assert cards[..|cards|] == cards;
    }

    /** Drops the listed WARM replicas, returning their bytes. */
    method DropCached(ks: seq<Key>)
      requires Distinct(ks) && Elements(ks) <= cache.Keys
      modifies this`cache, this`cpuFree
      ensures cache == old(cache) - Elements(ks)
      ensures cpuFree == old(cpuFree) + Total(Only(old(cache), Elements(ks)), Cpu)
    {
      assert Only(cache, Elements(ks[..0])) == map[];
      for i := 0 to |ks|
        invariant cache == old(cache) - Elements(ks[..i])
        invariant cpuFree == old(cpuFree) + Total(Only(old(cache), Elements(ks[..i])), Cpu)
      {
        var k := ks[i];
        assert k in Elements(ks);
        PrefixGrows(ks, i);
        TotalOnlyGrows(old(cache), Elements(ks[..i]), k, Cpu);
        cpuFree := cpuFree + cache[k].size;
        cache := cache - {k};
      }
      assert ks[..|ks|] == ks;
    }

    /** Makes CPU room for `size` bytes if that can be done at all. */
    method MakeRoom(size: int, exclude: set<ModelKey>) returns (made: bool, ghost dropped: set<Key>)
      requires NoCredit(cache, Cpu)
      modifies this`cache, this`cpuFree
      ensures made <==> RoomCanBeMade(old(Value()), size, exclude)
      ensures made ==> DropPlan(old(Value()), size, exclude, dropped)
      ensures cache == old(cache) - dropped
      ensures cpuFree == old(cpuFree) + Total(Only(old(cache), dropped), Cpu)
      ensures !made ==> cache == old(cache) && cpuFree == old(cpuFree)
    {
      var plan := FindCacheEvictions(Value(), size, exclude);
      made, dropped := plan.Some?, {};
      if made {
        dropped := Elements(plan.value);
        DropCached(plan.value);
      } else {
        assert Only(cache, {}) == map[];
      }
    }

    /** `Node.evict`: a WARM replica is dropped; a HOT one leaves its cards and
        is parked when its actor can be and CPU room can be made, and is gone
        otherwise. */
    method Evict(k: Key, exclude: set<ModelKey>, now: int)
      requires NodeInv(Value()) && (k in deployments || k in cache)
      modifies this
      ensures Evicts(old(Value()), k, exclude, now, Value())
      ensures NodeInv(Value())
    {
      ghost var n := Value();
      if k in cache {
        var cached := cache[k];
        cache := cache - {k};
        cpuFree := cpuFree + cached.size;
        EvictWarmBalances(n, k, Value());
      } else {
        EvictFromCards(k, exclude, now);
        EvictBalances(n, k, exclude, now, Value());
      }
    }

    method EvictFromCards(k: Key, exclude: set<ModelKey>, now: int)
      requires k in deployments && OnCards(deployments[k].gpus, |free|) && NoCredit(cache, Cpu)
      modifies this
      ensures EvictsHot(old(Value()), k, exclude, now, Value())
    {
      hide RoomCanBeMade, DropPlan, Total, OnCards;
      ghost var n := Value();
      var d := deployments[k];
      ReleaseCards(d.gpus);
      var parks := d.actor.cacheable;
      ghost var dropped := {};
      RoomIgnoresCards(n, free, d.size, exclude);
      assert Value() == n.(free := free);
      if parks {
        parks, dropped := MakeRoom(d.size, exclude);
        assert parks <==> RoomCanBeMade(n, d.size, exclude);
      }
      deployments := deployments - {k};
      if parks {
        cpuFree := cpuFree - d.size;
        cache := cache[k := Deployment(d.key, d.node, Warm, map[], d.size, false, d.actor, now)];
        assert DropPlan(n, d.size, exclude, dropped) && cache == (n.warm - dropped)[k := Parked(d, now)];
      }
    }

    /** `Node.evaluate`: whether and how this node would take the replica. */
    method Evaluate(q: Query) returns (r: Evaluation)
      requires NodeInv(Value())
      ensures r.Raised? <==> Raises(Value(), q)
      ensures r.Chosen? ==> Decides(Value(), q, r.candidate)
    {
      var count := CardCount(q.limit, q.asked, q.size, memory);
      if count.Uneven? {
        return Chosen(REFUSED.(uneven := true));
      }
      if count.NoMemory? {
        return Raised;
      }
      if count.n > |free| {
        return Chosen(REFUSED);
      }
      if q.share.None? && count.n == 0 {
        return Raised;
      }
      var share := if q.share.Some? then q.share.value else SharePerCard(q.size, count.n);
      var c := Fit(Value(), q, count.n, share);
      return Chosen(c);
    }

    /** Runs a candidate's evictions, in whatever order the set comes. */
    method ClearFor(ks: set<Key>, exclude: set<ModelKey>, now: int)
      requires NodeInv(Value()) && ks <= deployments.Keys
      modifies this
      ensures NodeInv(Value()) && Cleared(old(Value()), ks, exclude, now, Value())
      ensures EvictedAll(old(Value()), ks, exclude, now, Value())
    {
      hide NodeInv, Cleared, EvictChain, EvictsHot, Elements, Distinct;
      var todo := Listing(ks);
      ghost var n := Value();
      ElementsEnds(todo);
      NothingCleared(n, exclude, now);
      for i := 0 to |todo|
        invariant NodeInv(Value()) && Cleared(n, Elements(todo[..i]), exclude, now, Value())
        invariant EvictChain(n, todo[..i], exclude, now, Value())
      {
        var k := todo[i];
        ghost var before := Value();
        ElementsGrow(todo, i);
        StillThere(n, Elements(todo[..i]), exclude, now, before, k);
        Evict(k, exclude, now);
        ClearedStep(n, Elements(todo[..i]), k, exclude, now, before, Value());
        ChainGrows(n, todo[..i], exclude, now, before, k, Value());
        assert todo[..i] + [k] == todo[..i + 1];
      }
      assert todo[..|todo|] == todo;
    }

    /** Books the cards and registers the replica, under the id of a parked one
        of the same model when there is one. */
    method Register(model: ModelKey, c: Candidate, size: int, pinned: bool, actor: ActorClass,
                    nextId: ReplicaId, now: int) returns (k: Key)
      requires OnCards(c.gpus, |free|) && Key(model, nextId) !in cache
      modifies this
      ensures k.model == model && Takes(old(Value()), k, nextId)
      ensures Lands(old(Value()), k, Placed(old(Value()), k, c, size, pinned, actor, now), Value())
    {
      AllocateCards(c.gpus);
      k := Key(model, nextId);
      if j :| j in cache && j.model == model {
        k := j;
        var cached := cache[k];
        cache := cache - {k};
        cpuFree := cpuFree + cached.size;
      }
      deployments := deployments[k := Deployment(k, id, Hot, c.gpus, size, pinned, actor, now)];
    }

    /** `Node.deploy`: evict, book the cards, take over a parked id or a new
        one, register the replica. */
    method Deploy(model: ModelKey, c: Candidate, size: int, pinned: bool, exclude: set<ModelKey>,
                  actor: ActorClass, nextId: ReplicaId, now: int) returns (k: Key)
      requires NodeInv(Value()) && HasRoom(Value(), c)
      requires Key(model, nextId) !in deployments && Key(model, nextId) !in cache
      modifies this
      ensures k.model == model && (NodeInv(Value()) <==> RoomIsReal(Value()))
      ensures RoomIsReal(Value()) <==> TakesRoom(c.gpus, size)
      ensures deployments ==
        (old(deployments) - c.evictions)[k := Placed(old(Value()), k, c, size, pinned, actor, now)]
      ensures PlacedAfter(old(Value()), c, exclude, nextId, now, k,
                          Placed(old(Value()), k, c, size, pinned, actor, now), Value())
      ensures model in exclude && (forall j :: j in c.evictions ==> j.model !in exclude) ==>
        && Moves(exclude, nextId, now, old(Value()), Value())
        && k !in old(deployments)
        && if IsCached(old(Value()), model) then k in old(cache) else k.replica == nextId
    {
      hide NodeInv, Moves, Cleared, EvictedAll, IsCached, Takes, Lands, HasRoom, RoomIsReal;
      ghost var n := Value();
      Allowed(n, c);
      ClearFor(c.evictions, exclude, now);
      ghost var m := Value();
      Emptied(n, c, exclude, now, m, model, nextId);
      k := Register(model, c, size, pinned, actor, nextId, now);
      Landed(n, c, exclude, now, nextId, m, k, Placed(n, k, c, size, pinned, actor, now), Value());
    }

    /** What `_remove_deployment_from_state` does here: drops the replica
        registered under the record's key, releasing what the record says. */
    method Forget(d: Deployment)
      requires d.key in deployments ==> OnCards(d.gpus, |free|)
      modifies this
      ensures Value() == WithoutRecord(old(Value()), d)
    {
      if d.key in deployments {
        ReleaseCards(d.gpus);
        deployments := deployments - {d.key};
      }
      if d.key in cache {
        cpuFree := cpuFree + d.size;
        cache := cache - {d.key};
      }
    }
  }
}
