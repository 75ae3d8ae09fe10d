/** The matcher itself: preparation, the mutable groups, the allocation loops and the results (pkg/netting/matcher/matcher.go). */
module Matcher {
  import opened Base
  import opened ByteStrings
  import opened Model
  import opened Sums
  import opened Sorting
  import opened Allocations
  import opened Matching
  import opened MatchingProofs

  datatype Output = Output(results: seq<IntentResult>, allocations: seq<Allocation>)

  /** The intents of one call by identifier. */
  type Book = map<Hash, PaymentIntent>

  // ---- acceptance ----

  function PaymentShape(p: PaymentIntent, chainId: Uint64): Result<()> {
    if p.version != CURRENT_VERSION then Err(UnsupportedVersion)
    else if p.chainId != chainId then Err(WrongChain)
    else if p.amount <= 0 then Err(InvalidAmount)
    else if p.sender == p.recipient then Err(SameParticipant)
    else if p.sourceShard < 0 then Err(InvalidSourceShard)
    else if p.destinationShard < 0 then Err(InvalidDestinationShard)
    else if p.sourceShard == p.destinationShard then Err(SameShard)
    else if p.assetId != NATIVE_ASSET then Err(UnsupportedAsset)
    else Ok(())
  }

  function IdRank(h: Hasher): PaymentIntent -> int {
    (p: PaymentIntent) => match IntentId(h, p) case Ok(id) => id case Err(_) => -1
  }

  /** A batch the matcher accepts: every intent well formed for the first one's chain, no identifier twice. */
  ghost predicate Acceptable(h: Hasher, payments: seq<PaymentIntent>) {
    && (forall i :: 0 <= i < |payments| ==> PaymentShape(payments[i], payments[0].chainId).Ok? && IntentId(h, payments[i]).Ok?)
    && Distinct(payments, IdRank(h))
  }

  ghost function BookOf(h: Hasher, payments: seq<PaymentIntent>): Book {
    if payments == [] then map[] else
      var last := payments[|payments| - 1];
      var book := BookOf(h, payments[..|payments| - 1]);
      match IntentId(h, last) case Ok(id) => book[id := last] case Err(_) => book
  }

  /** The book lists exactly the intents of the batch, each under its identifier. */
  ghost predicate Lists(h: Hasher, book: Book, payments: seq<PaymentIntent>) {
    && (forall k :: 0 <= k < |payments| ==> IntentId(h, payments[k]).Ok? && IntentId(h, payments[k]).value in book && book[IntentId(h, payments[k]).value] == payments[k])
    && (forall id :: id in book ==> book[id] in payments && IntentId(h, book[id]) == Ok(id))
  }

  lemma {:induction false} BookContains(h: Hasher, payments: seq<PaymentIntent>)
    requires Distinct(payments, IdRank(h)) && forall i :: 0 <= i < |payments| ==> IntentId(h, payments[i]).Ok?
    ensures Lists(h, BookOf(h, payments), payments)
  {
    if payments != [] {
      var n := |payments| - 1;
      BookContains(h, payments[..n]);
      ListsSnoc(h, BookOf(h, payments[..n]), payments[..n], payments[n]);
      assert payments == payments[..n] + [payments[n]];
    }
  }

  lemma ListsSnoc(h: Hasher, book: Book, init: seq<PaymentIntent>, last: PaymentIntent)
    requires Lists(h, book, init) && IntentId(h, last).Ok? && Distinct(init + [last], IdRank(h))
    ensures Lists(h, book[IntentId(h, last).value := last], init + [last])
    ensures IntentId(h, last).value !in book
  {
    var id := IntentId(h, last).value;
    var all := init + [last];
    assert IdRank(h)(all[|init|]) == id;
    forall k | 0 <= k < |init| ensures IntentId(h, init[k]).value != id {
      assert all[k] == init[k];
      assert IdRank(h)(all[k]) != id;
    }
    forall j | j in book ensures j != id {
      assert book[j] in init;
    }
  }

  lemma ListsSubset(h: Hasher, a: Book, b: Book, p: seq<PaymentIntent>, q: seq<PaymentIntent>)
    requires Lists(h, a, p) && Lists(h, b, q) && forall x :: x in p ==> x in q
    ensures forall id :: id in a ==> id in b && b[id] == a[id]
  {
    forall id | id in a ensures id in b && b[id] == a[id] {
      var k :| 0 <= k < |q| && q[k] == a[id];
    }
  }

  /** Acceptance and the book do not depend on the order of the batch. */
  lemma BookOrderIndependent(h: Hasher, p: seq<PaymentIntent>, q: seq<PaymentIntent>)
    requires multiset(p) == multiset(q)
    ensures Acceptable(h, p) <==> Acceptable(h, q)
    ensures Acceptable(h, p) ==> BookOf(h, p) == BookOf(h, q)
  {
    if Acceptable(h, p) {
      AcceptablePermutes(h, p, q);
      SameBook(h, p, q);
    } else if Acceptable(h, q) {
      AcceptablePermutes(h, q, p);
    }
  }

  lemma SameBook(h: Hasher, p: seq<PaymentIntent>, q: seq<PaymentIntent>)
    requires multiset(p) == multiset(q) && Acceptable(h, p) && Acceptable(h, q)
    ensures BookOf(h, p) == BookOf(h, q)
  {
    BookContains(h, p);
    BookContains(h, q);
    SameElements(p, q);
    ListsSubset(h, BookOf(h, p), BookOf(h, q), p, q);
    ListsSubset(h, BookOf(h, q), BookOf(h, p), q, p);
  }

  lemma AcceptablePermutes(h: Hasher, p: seq<PaymentIntent>, q: seq<PaymentIntent>)
    requires multiset(p) == multiset(q) && Acceptable(h, p)
    ensures Acceptable(h, q)
  {
    SameElements(p, q);
    DistinctPermutes(p, q, IdRank(h));
    forall i | 0 <= i < |q| ensures PaymentShape(q[i], q[0].chainId).Ok? && IntentId(h, q[i]).Ok? {
      assert q[i] in p && q[0] in p;
    }
  }

  // ---- the result as a function of the book ----

  function GroupOf(p: PaymentIntent): GroupKey {
    if p.sourceShard > p.destinationShard then GroupKey(p.destinationShard, p.sourceShard, p.assetId)
    else GroupKey(p.sourceShard, p.destinationShard, p.assetId)
  }

  predicate LowerToHigher(p: PaymentIntent) {
    p.sourceShard <= p.destinationShard
  }

  ghost function LowerIds(book: Book, key: GroupKey): set<Hash> {
    set i | i in book && GroupOf(book[i]) == key && LowerToHigher(book[i])
  }

  ghost function HigherIds(book: Book, key: GroupKey): set<Hash> {
    set i | i in book && GroupOf(book[i]) == key && !LowerToHigher(book[i])
  }

  ghost function Initial(book: Book, key: GroupKey): Remaining {
    map i | i in book && GroupOf(book[i]) == key :: book[i].amount
  }

  ghost predicate PositiveAmounts(book: Book) {
    forall i :: i in book ==> book[i].amount > 0
  }

  lemma InitialWellFormed(book: Book, key: GroupKey)
    requires PositiveAmounts(book)
    ensures WellFormed(LowerIds(book, key), HigherIds(book, key), Initial(book, key))
  {
  }

  ghost function AllocsOf(book: Book, key: GroupKey, mode: string): seq<Allocation> {
    GroupAllocs(key, LowerIds(book, key), HigherIds(book, key), Initial(book, key), mode)
  }

  /** What the group leaves unmatched of each of its intents. */
  ghost function Final(book: Book, key: GroupKey, mode: string): Remaining {
    ApplyAll(Initial(book, key), AllocsOf(book, key, mode))
  }

  function KeyRank(): GroupKey -> int {
    (k: GroupKey) => ((k.lower + TWO_63) * TWO_64 + k.higher + TWO_63) * TWO_256 + k.asset
  }

  lemma KeyRankInjective(keys: set<GroupKey>)
    ensures Injective(keys, KeyRank())
  {
    forall a, b | a in keys && b in keys && KeyRank()(a) == KeyRank()(b) ensures a == b {
      var x, y := (a.lower + TWO_63) * TWO_64 + a.higher + TWO_63, (b.lower + TWO_63) * TWO_64 + b.higher + TWO_63;
      assert x * TWO_256 + a.asset == y * TWO_256 + b.asset;
      assert x == y;
    }
  }

  ghost function Groups(book: Book): set<GroupKey> {
    set i | i in book :: GroupOf(book[i])
  }

  ghost function AllocsOver(book: Book, keys: seq<GroupKey>, mode: string): seq<Allocation> {
    if keys == [] then [] else AllocsOver(book, keys[..|keys| - 1], mode) + AllocsOf(book, keys[|keys| - 1], mode)
  }

  ghost function ResultOf(book: Book, mode: string, id: Hash): IntentResult
    requires id in book
  {
    var left := if id in Final(book, GroupOf(book[id]), mode) then Final(book, GroupOf(book[id]), mode)[id] else 0;
    IntentResult(book[id], id, book[id].amount - left, left)
  }

  ghost function Ids(book: Book): (r: seq<Hash>)
    ensures |r| == |book.Keys| && forall i :: i in r <==> i in book
  {
    Ordered(book.Keys, ById())
  }

  ghost function ResultsOf(book: Book, mode: string): (r: seq<IntentResult>)
    ensures |r| == |Ids(book)|
  {
    seq(|Ids(book)|, i requires 0 <= i < |Ids(book)| => assert Ids(book)[i] in Ids(book); ResultOf(book, mode, Ids(book)[i]))
  }

  /** The whole output, determined by the set of intents alone. */
  ghost function Netting(book: Book, mode: string): Output {
    Output(ResultsOf(book, mode), AllocsOver(book, Ordered(Groups(book), KeyRank()), mode))
  }

  /** The matcher's outcome as a function of its input sequence. */
  ghost function Outcome(h: Hasher, payments: seq<PaymentIntent>, mode: string): Option<Output> {
    if Acceptable(h, payments) then Some(Netting(BookOf(h, payments), NormalizeMode(mode))) else None
  }

  /** Order independence: permuting the batch changes neither acceptance nor results nor the allocation sequence. */
  lemma MatchOrderIndependent(h: Hasher, p: seq<PaymentIntent>, q: seq<PaymentIntent>, mode: string)
    requires multiset(p) == multiset(q)
    ensures Outcome(h, p, mode) == Outcome(h, q, mode)
  {
    BookOrderIndependent(h, p, q);
  }

  // ---- the mutable group ----

  /** A key of the counter tree: the amount under which an item was inserted, and its identifier. */
  datatype TreeKey = TreeKey(amount: int, id: Hash)

  /** Every intent's amount is split between what is matched and what remains. */
  ghost predicate Conserved(amounts: Remaining, remaining: Remaining, matched: Remaining) {
    && remaining.Keys == amounts.Keys && matched.Keys == amounts.Keys
    && forall i :: i in amounts ==> remaining[i] + matched[i] == amounts[i]
  }

  lemma ReduceConserves(amounts: Remaining, remaining: Remaining, matched: Remaining, id: Hash, amount: int)
    requires Conserved(amounts, remaining, matched) && id in amounts
    ensures Conserved(amounts, Reduce(remaining, id, amount), Reduce(matched, id, -amount))
  {
  }

  class Group {
    const key: GroupKey
    const lower: seq<Hash>
    const higher: seq<Hash>
    const amounts: Remaining
    var remaining: Remaining
    var matched: Remaining

    ghost predicate Valid()
      reads this
    {
      && NoDuplicates(lower) && NoDuplicates(higher) && Elements(lower) !! Elements(higher)
      && amounts.Keys == Elements(lower) + Elements(higher)
      && Conserved(amounts, remaining, matched)
    }

    constructor (key: GroupKey, lower: seq<Hash>, higher: seq<Hash>, amounts: Remaining)
      requires NoDuplicates(lower) && NoDuplicates(higher) && Elements(lower) !! Elements(higher)
      requires amounts.Keys == Elements(lower) + Elements(higher)
      ensures Valid() && this.key == key && this.lower == lower && this.higher == higher && this.amounts == amounts
      ensures remaining == amounts
    {
      this.key, this.lower, this.higher, this.amounts := key, lower, higher, amounts;
      remaining := amounts;
      matched := map i | i in amounts :: 0;
    }

    method Allocate(lowerId: Hash, higherId: Hash, amount: int, phase: Phase) returns (a: Allocation)
      requires Valid() && lowerId in amounts && higherId in amounts && lowerId != higherId
      modifies this
      ensures Valid() && a == Allocation(key, lowerId, higherId, amount, phase)
      ensures remaining == Apply(old(remaining), a)
    {
      ReduceConserves(amounts, remaining, matched, lowerId, amount);
      remaining := Reduce(remaining, lowerId, amount);
      matched := Reduce(matched, lowerId, -amount);
      ReduceConserves(amounts, remaining, matched, higherId, amount);
      remaining := Reduce(remaining, higherId, amount);
      matched := Reduce(matched, higherId, -amount);
      a := Allocation(key, lowerId, higherId, amount, phase);
    }

    method AllocateByDirection(
      active: Hash, counter: Hash, amount: int, phase: Phase, activeIsLower: bool) returns (a: Allocation)
      requires Valid() && active in amounts && counter in amounts && active != counter
      modifies this
      ensures Valid() && a == Allot(key, active, counter, amount, phase, activeIsLower)
      ensures remaining == Apply(old(remaining), a)
    {
      if activeIsLower {
        a := Allocate(active, counter, amount, phase);
      } else {
        a := Allocate(counter, active, amount, phase);
      }
    }

    // ---- exact phase ----

    /** Pairs the buckets of one amount in identifier order. */
    method PairBuckets(amount: int, ls: seq<Hash>, rs: seq<Hash>) returns (allocs: seq<Allocation>)
      requires Valid() && forall i :: i in ls ==> i in Elements(lower)
      requires forall i :: i in rs ==> i in Elements(higher)
      modifies this
      ensures Valid() && allocs == Pairs(key, amount, ls, rs)
      ensures remaining == ApplyAll(old(remaining), allocs)
    {
      allocs := [];
      var idx := 0;
      assert ls[0..] == ls && rs[0..] == rs;
      while idx < |ls| && idx < |rs|
        invariant 0 <= idx <= |ls| && idx <= |rs| && Valid()
        invariant allocs + Pairs(key, amount, ls[idx..], rs[idx..]) == Pairs(key, amount, ls, rs)
        invariant remaining == ApplyAll(old(remaining), allocs)
        decreases |ls| - idx
      {
        assert ls[idx] in ls && rs[idx] in rs;
        var a := Allocate(ls[idx], rs[idx], amount, Exact);
        ApplyAllSnoc(old(remaining), allocs, a);
        PairsUnfold(key, amount, ls, rs, idx, allocs);
        allocs := allocs + [a];
        idx := idx + 1;
      }
    }

    method MatchExact() returns (allocs: seq<Allocation>)
      requires Valid()
      modifies this
      ensures Valid() && allocs == ExactAllocs(key, Elements(lower), Elements(higher), old(remaining))
      ensures remaining == ApplyAll(old(remaining), allocs)
    {
      ghost var ls, hs := Elements(lower), Elements(higher);
      var lowerBuckets, lowerKeys := BucketByAmount(lower, remaining);
      var higherBuckets, higherKeys := BucketByAmount(higher, remaining);
      var amounts := CommonDescending(lowerKeys, lowerBuckets.Keys, higherBuckets);
      assert lowerBuckets.Keys * higherBuckets.Keys == Amounts(ls, remaining) * Amounts(hs, remaining);
      allocs := MatchAmounts(lowerBuckets, higherBuckets, amounts);
    }

    method MatchAmounts(
      lowerBuckets: map<int, seq<Hash>>, higherBuckets: map<int, seq<Hash>>, amounts: seq<int>)
      returns (allocs: seq<Allocation>)
      requires Valid() && (forall k :: 0 <= k < |amounts| ==> amounts[k] in lowerBuckets && amounts[k] in higherBuckets)
      requires IsBuckets(lowerBuckets, Elements(lower), remaining)
      requires IsBuckets(higherBuckets, Elements(higher), remaining)
      modifies this
      ensures Valid() && allocs == ExactOver(key, Elements(lower), Elements(higher), old(remaining), amounts)
      ensures remaining == ApplyAll(old(remaining), allocs)
    {
      ghost var rem := remaining;
      ghost var goal := ExactOver(key, Elements(lower), Elements(higher), rem, amounts);
      allocs := [];
      assert amounts[0..] == amounts;
      for k := 0 to |amounts|
        invariant Valid()
        invariant allocs + ExactOver(key, Elements(lower), Elements(higher), rem, amounts[k..]) == goal
        invariant remaining == ApplyAll(rem, allocs)
      {
        var pairs := MatchAmount(lowerBuckets, higherBuckets, amounts[k], rem);
        ApplyAllConcat(rem, allocs, pairs);
        ExactOverUnfold(key, Elements(lower), Elements(higher), rem, amounts, k, allocs);
        allocs := allocs + pairs;
      }
    }

    method MatchAmount(
      lowerBuckets: map<int, seq<Hash>>, higherBuckets: map<int, seq<Hash>>, a: int, ghost rem: Remaining)
      returns (pairs: seq<Allocation>)
      requires Valid() && a in lowerBuckets && a in higherBuckets
      requires IsBuckets(lowerBuckets, Elements(lower), rem) && IsBuckets(higherBuckets, Elements(higher), rem)
      modifies this
      ensures Valid() && pairs == Pairs(key, a, Bucket(Elements(lower), rem, a), Bucket(Elements(higher), rem, a))
      ensures remaining == ApplyAll(old(remaining), pairs)
    {
      BucketSorts(lowerBuckets, Elements(lower), rem, a);
      BucketSorts(higherBuckets, Elements(higher), rem, a);
      pairs := PairBuckets(a, SortBy(lowerBuckets[a], ById()), SortBy(higherBuckets[a], ById()));
    }

    // ---- best-fit and split phases ----

    /** The sum of the remaining amounts of one direction. */
    method SumRemaining(items: seq<Hash>) returns (total: int)
      requires Valid() && NoDuplicates(items) && forall i :: i in items ==> i in amounts
      ensures total == SumOn(Elements(items), remaining)
    {
      total := 0;
      assert On(Elements([]), remaining) == map[];
      for k := 0 to |items|
        invariant total == SumOn(Elements(items[..k]), remaining)
      {
        var item := items[k];
        assert items[..k + 1] == items[..k] + [item];
        assert On(Elements(items[..k + 1]), remaining) == On(Elements(items[..k]), remaining)[item := remaining[item]];
        SumUpdate(On(Elements(items[..k]), remaining), item, remaining[item]);
        total := total + remaining[item];
      }
      assert items[..|items|] == items;
    }

    /** The items with something left, in their original order. */
    method PositiveRemaining(items: seq<Hash>) returns (r: seq<Hash>)
      requires Valid() && NoDuplicates(items) && forall i :: i in items ==> i in amounts
      ensures NoDuplicates(r) && forall i :: i in r <==> i in Positive(Elements(items), remaining)
    {
      r := [];
      for k := 0 to |items|
        invariant NoDuplicates(r) && forall i :: i in r <==> i in items[..k] && remaining[i] > 0
      {
        assert items[..k + 1] == items[..k] + [items[k]];
        if remaining[items[k]] > 0 {
          NoDuplicatesSnoc(r, items[k]);
          r := r + [items[k]];
        }
      }
      assert items[..|items|] == items;
    }

    /**
     * Takes an amount from a candidate of the tree. The tree holds keys taken at insertion: the candidate is deleted
     * under its key before its amount changes and inserted again, if anything is left, under the new one.
     */
    method Draw(
      a: Hash, candidate: Hash, amount: int, phase: Phase, activeIsLower: bool, tree0: seq<TreeKey>,
      ghost items: set<Hash>)
      returns (r: Option<Allocation>, tree: seq<TreeKey>)
      requires Valid() && a in amounts && a !in items && candidate in items && items <= amounts.Keys
      requires Ready(items, remaining)
      requires IsTree(tree0, items, remaining)
      modifies this
      ensures Valid() && r == Some(Allot(key, a, candidate, amount, phase, activeIsLower))
      ensures remaining == Apply(old(remaining), r.value) && IsTree(tree, Live(items, remaining), remaining)
    {
      tree := tree0;
      var deleted := DeleteItem(tree, items, remaining, candidate);
      if deleted.None? {
        return None, tree;
      }
      tree := deleted.value;
      ghost var rem := remaining;
      var step := AllocateByDirection(a, candidate, amount, phase, activeIsLower);
      AllotEffect(key, a, candidate, amount, phase, activeIsLower, rem);
      TreeWithout(tree, items - {candidate}, rem, remaining);
      LiveAfter(items, rem, remaining, a, candidate);
      if remaining[candidate] > 0 {
        InsertItem(tree, items - {candidate}, remaining, candidate);
        tree := InsertBy(TreeKey(remaining[candidate], candidate), tree, TreeRank());
      }
      r := Some(step);
    }

    /** One round of a split: the largest counter item gives what it can. */
    method SplitOnce(a: Hash, tree0: seq<TreeKey>, ghost items: set<Hash>, activeIsLower: bool)
      returns (r: Option<Allocation>, tree: seq<TreeKey>)
      requires Valid() && a in amounts && a !in items && items <= amounts.Keys && Ready(items, remaining)
      requires remaining[a] > 0
      requires IsTree(tree0, items, remaining)
      modifies this
      ensures Valid() && (r.None? <==> items == {})
      ensures r.Some? ==> r.value == SplitStep(key, a, items, old(remaining), activeIsLower) && remaining == Apply(old(remaining), r.value)
      ensures r.Some? ==> IsTree(tree, Live(items, remaining), remaining)
    {
      var found := LargestSmallestId(tree0, items, remaining);
      if found.None? {
        return None, tree0;
      }
      var candidate := found.value;
      r, tree := Draw(a, candidate, Min(remaining[a], remaining[candidate]), Split, activeIsLower, tree0, items);
    }

    /** Splits one active intent over the tree, largest counter items first. */
    method SplitActive(a: Hash, tree0: seq<TreeKey>, ghost items: set<Hash>, activeIsLower: bool)
      returns (r: Result<seq<Allocation>>, tree: seq<TreeKey>)
      requires Valid() && a in amounts && a !in items && items <= amounts.Keys && Ready(items, remaining)
      requires IsTree(tree0, items, remaining)
      modifies this
      ensures Valid()
      ensures r.Err? <==> SplitOver(key, a, items, old(remaining), activeIsLower).exhausted
      ensures r.Ok? ==> r.value == SplitOver(key, a, items, old(remaining), activeIsLower).allocs
      ensures r.Ok? ==> remaining == ApplyAll(old(remaining), r.value) && IsTree(tree, Live(items, remaining), remaining)
    {
      tree := tree0;
      var allocs: seq<Allocation> := [];
      ghost var live := items;
      ghost var goal := SplitOver(key, a, items, remaining, activeIsLower);
      assert Live(items, remaining) == items;
      while remaining[a] > 0
        invariant Valid() && live <= items && Ready(live, remaining) && IsTree(tree, live, remaining)
        invariant remaining == ApplyAll(old(remaining), allocs) && live == Live(items, remaining)
        invariant Continues(goal, allocs, SplitOver(key, a, live, remaining, activeIsLower))
        decreases Work(a, live, remaining)
      {
        if live != {} {
          SplitContinues(key, a, live, remaining, activeIsLower, goal, allocs);
          LiveLive(key, a, items, live, remaining, activeIsLower);
        }
        var step;
        step, tree := SplitOnce(a, tree, live, activeIsLower);
        if step.None? {
          return Err(MatchingInvariant), tree;
        }
        ApplyAllSnoc(old(remaining), allocs, step.value);
        allocs := allocs + [step.value];
        live := Live(live, remaining);
      }
      r := Ok(allocs);
    }

    method MatchRemaining(allowSplit: bool) returns (r: Result<seq<Allocation>>)
      requires Valid()
      modifies this
      ensures Valid()
      ensures var fill := RemainingAllocs(key, Elements(lower), Elements(higher), old(remaining), allowSplit);
        (r.Err? <==> fill.exhausted) && (r.Ok? ==> r.value == fill.allocs)
      ensures r.Ok? ==> remaining == ApplyAll(old(remaining), r.value)
    {
      var lowerTotal := SumRemaining(lower);
      var higherTotal := SumRemaining(higher);
      var active, counter, activeIsLower := lower, higher, true;
      if lowerTotal > higherTotal {
        active, counter, activeIsLower := higher, lower, false;
      }
      ghost var actives, counters := Elements(active), Elements(counter);
      active := PositiveRemaining(active);
      counter := PositiveRemaining(counter);
      ActiveRankInjective(Positive(actives, remaining), remaining);
      SortsToOrdered(active, Positive(actives, remaining), ActiveRank(remaining));
      active := SortBy(active, ActiveRank(remaining));
      ActiveOrderQueued(actives, counters, remaining);
      var tree := BuildTree(counter, Positive(counters, remaining), remaining);
      r := ServeActive(active, tree, Positive(counters, remaining), allowSplit, activeIsLower);
    }

    /** The loop over the active intents. */
    method ServeActive(
      active: seq<Hash>, tree0: seq<TreeKey>, ghost items: set<Hash>, allowSplit: bool, activeIsLower: bool)
      returns (r: Result<seq<Allocation>>)
      requires Valid() && Queued(active, items, remaining) && Ready(items, remaining) && IsTree(tree0, items, remaining)
      modifies this
      ensures Valid()
      ensures var fill := Serve(key, active, items, old(remaining), allowSplit, activeIsLower);
        (r.Err? <==> fill.exhausted) && (r.Ok? ==> r.value == fill.allocs)
      ensures r.Ok? ==> remaining == ApplyAll(old(remaining), r.value)
    {
      var tree := tree0;
      var allocs: seq<Allocation> := [];
      ghost var live := items;
      ghost var goal := Serve(key, active, items, remaining, allowSplit, activeIsLower);
      assert active[0..] == active;
      for k := 0 to |active|
        invariant Valid() && Queued(active[k..], live, remaining) && Ready(live, remaining) && IsTree(tree, live, remaining)
        invariant remaining == ApplyAll(old(remaining), allocs)
        invariant Continues(goal, allocs, Serve(key, active[k..], live, remaining, allowSplit, activeIsLower))
      {
        assert active[k..][1..] == active[k + 1..];
        var served;
        served, tree := ServeOne(active[k..], tree, live, allowSplit, activeIsLower, goal, allocs);
        if served.Err? {
          return Err(served.error);
        }
        ApplyAllConcat(old(remaining), allocs, served.value);
        allocs := allocs + served.value;
        live := Live(live, remaining);
      }
      r := Ok(allocs);
    }

    /** One active intent: best fit, else nothing or a split. */
    method ServeOne(acts: seq<Hash>, tree0: seq<TreeKey>, ghost items: set<Hash>, allowSplit: bool, activeIsLower: bool,
                    ghost goal: Fill, ghost done: seq<Allocation>)
      returns (r: Result<seq<Allocation>>, tree: seq<TreeKey>)
      requires Valid() && acts != [] && Queued(acts, items, remaining) && Ready(items, remaining)
      requires IsTree(tree0, items, remaining)
      requires Continues(goal, done, Serve(key, acts, items, remaining, allowSplit, activeIsLower))
      modifies this
      ensures Valid()
      ensures r.Err? ==> goal.exhausted
      ensures r.Ok? ==> remaining == ApplyAll(old(remaining), r.value)
      ensures r.Ok? ==> Queued(acts[1..], Live(items, remaining), remaining) && Ready(Live(items, remaining), remaining)
      ensures r.Ok? ==> IsTree(tree, Live(items, remaining), remaining)
      ensures r.Ok? ==> Continues(goal, done + r.value, Serve(key, acts[1..], Live(items, remaining), remaining, allowSplit, activeIsLower))
    {
      var a := acts[0];
      assert a in remaining;
      var candidate := FindLowerBound(tree0, items, remaining, remaining[a]);
      if candidate.Some? {
        r, tree := ServeBestFit(acts, candidate.value, tree0, items, allowSplit, activeIsLower, goal, done);
      } else if !allowSplit {
        assert Live(items, remaining) == items;
        r, tree := Ok([]), tree0;
      } else {
        SplitContinuesServe(key, acts, items, remaining, activeIsLower, goal, done);
        r, tree := SplitActive(a, tree0, items, activeIsLower);
      }
    }

    method ServeBestFit(acts: seq<Hash>, candidate: Hash, tree0: seq<TreeKey>, ghost items: set<Hash>, allowSplit: bool, activeIsLower: bool,
                        ghost goal: Fill, ghost done: seq<Allocation>)
      returns (r: Result<seq<Allocation>>, tree: seq<TreeKey>)
      requires Valid() && acts != [] && Queued(acts, items, remaining) && Ready(items, remaining)
      requires IsTree(tree0, items, remaining)
      requires Covered(items, remaining, remaining[acts[0]])
      requires candidate == LowerBound(items, remaining, remaining[acts[0]])
      requires Continues(goal, done, Serve(key, acts, items, remaining, allowSplit, activeIsLower))
      modifies this
      ensures Valid() && r.Ok? && remaining == ApplyAll(old(remaining), r.value)
      ensures Queued(acts[1..], Live(items, remaining), remaining) && Ready(Live(items, remaining), remaining)
      ensures IsTree(tree, Live(items, remaining), remaining)
      ensures Continues(goal, done + r.value, Serve(key, acts[1..], Live(items, remaining), remaining, allowSplit, activeIsLower))
    {
      ghost var rem := remaining;
      BestFitContinues(key, acts, items, remaining, allowSplit, activeIsLower, goal, done);
      var step;
      step, tree := Draw(acts[0], candidate, remaining[acts[0]], BestFit, activeIsLower, tree0, items);
      if step.None? {
        return Err(MatchingInvariant), tree;
      }
      ApplyAllSnoc(rem, [], step.value);
      assert [] + [step.value] == [step.value];
      r := Ok([step.value]);
    }
  }

  lemma BestFitContinues(
    key: GroupKey, acts: seq<Hash>, tree: set<Hash>, rem: Remaining, allowSplit: bool, activeIsLower: bool,
    goal: Fill, done: seq<Allocation>)
    requires acts != [] && Queued(acts, tree, rem) && Ready(tree, rem) && Covered(tree, rem, rem[acts[0]])
    requires Continues(goal, done, Serve(key, acts, tree, rem, allowSplit, activeIsLower))
    ensures var step := BestFitStep(key, acts[0], tree, rem, activeIsLower);
      var next := Apply(rem, step);
      && Ready(Live(tree, next), next) && Queued(acts[1..], Live(tree, next), next)
      && Continues(goal, done + [step], Serve(key, acts[1..], Live(tree, next), next, allowSplit, activeIsLower))
  {
    BestFitProgress(key, acts, tree, rem, activeIsLower);
  }

  lemma SplitContinuesServe(
    key: GroupKey, acts: seq<Hash>, tree: set<Hash>, rem: Remaining, activeIsLower: bool, goal: Fill,
    done: seq<Allocation>)
    requires acts != [] && Queued(acts, tree, rem) && Ready(tree, rem) && !Covered(tree, rem, rem[acts[0]])
    requires Continues(goal, done, Serve(key, acts, tree, rem, true, activeIsLower))
    ensures var split := SplitOver(key, acts[0], tree, rem, activeIsLower);
      if split.exhausted then goal.exhausted else
        var next := ApplyAll(rem, split.allocs);
        && Ready(Live(tree, next), next) && Queued(acts[1..], Live(tree, next), next)
        && Continues(goal, done + split.allocs, Serve(key, acts[1..], Live(tree, next), next, true, activeIsLower))
  {
    SplitLeaves(key, acts, tree, rem, activeIsLower);
    var split := SplitOver(key, acts[0], tree, rem, activeIsLower);
    if !split.exhausted {
      var next := ApplyAll(rem, split.allocs);
      ConcatAssociative(done, split.allocs, Serve(key, acts[1..], Live(tree, next), next, true, activeIsLower).allocs);
    }
  }

  /** The counter items inserted one by one. */
  method BuildTree(counter: seq<Hash>, ghost items: set<Hash>, rem: Remaining) returns (tree: seq<TreeKey>)
    requires NoDuplicates(counter) && (forall c :: c in counter <==> c in items) && items <= rem.Keys
    ensures IsTree(tree, items, rem)
  {
    tree := [];
    for k := 0 to |counter|
      invariant IsTree(tree, Elements(counter[..k]), rem)
    {
      var c := counter[k];
      assert c in counter && c !in counter[..k];
      InsertItem(tree, Elements(counter[..k]), rem, c);
      assert counter[..k + 1] == counter[..k] + [c];
      assert Elements(counter[..k + 1]) == Elements(counter[..k]) + {c};
      tree := InsertBy(TreeKey(rem[c], c), tree, TreeRank());
    }
    assert counter[..|counter|] == counter;
    assert Elements(counter) == items;
  }

  /** The rest of a phase completes the part already done. */
  ghost predicate Continues(goal: Fill, done: seq<Allocation>, rest: Fill) {
    goal.exhausted == rest.exhausted && goal.allocs == done + rest.allocs
  }

  lemma SplitContinues(
    key: GroupKey, a: Hash, tree: set<Hash>, rem: Remaining, activeIsLower: bool, goal: Fill,
    done: seq<Allocation>)
    requires a in rem && a !in tree && Ready(tree, rem) && rem[a] > 0 && tree != {}
    requires Continues(goal, done, SplitOver(key, a, tree, rem, activeIsLower))
    ensures var step := SplitStep(key, a, tree, rem, activeIsLower);
      var next := Apply(rem, step);
      && a in next && Ready(Live(tree, next), next) && Work(a, Live(tree, next), next) < Work(a, tree, rem)
      && Continues(goal, done + [step], SplitOver(key, a, Live(tree, next), next, activeIsLower))
  {
    SplitProgress(key, a, tree, rem, activeIsLower);
  }

  lemma LiveLive(key: GroupKey, a: Hash, items: set<Hash>, live: set<Hash>, rem: Remaining, activeIsLower: bool)
    requires items <= rem.Keys && a in rem && a !in items && live == Live(items, rem) && live != {} && rem[a] > 0
    ensures var next := Apply(rem, SplitStep(key, a, live, rem, activeIsLower));
      Live(live, next) == Live(items, next)
  {
    var c := Largest(live, rem);
    AllotEffect(key, a, c, Min(rem[a], rem[c]), Split, activeIsLower, rem);
  }

  /** The key order of the tree. */
  function TreeRank(): TreeKey -> int {
    (k: TreeKey) => k.amount * TWO_256 + k.id
  }

  /**
   * The tree, as its keys in order, holds exactly the current keys of the items: items are re-keyed only while
   * outside the tree.
   */
  predicate KeyLess(x: TreeKey, y: TreeKey) {
    x.amount < y.amount || (x.amount == y.amount && x.id < y.id)
  }

  ghost predicate IsTree(tree: seq<TreeKey>, items: set<Hash>, rem: Remaining) {
    && items <= rem.Keys
    && (forall i, j :: 0 <= i < j < |tree| ==> KeyLess(tree[i], tree[j]))
    && (forall i :: 0 <= i < |tree| ==> tree[i].id in items && rem[tree[i].id] == tree[i].amount)
    && (forall c :: c in items ==> TreeKey(rem[c], c) in tree)
  }

  lemma LowerBoundUnique(items: set<Hash>, rem: Remaining, amount: int, c: Hash)
    requires items <= rem.Keys && IsLowerBound(c, items, rem, amount)
    ensures Covered(items, rem, amount) && c == LowerBound(items, rem, amount)
  {
  }

  lemma LargestUnique(items: set<Hash>, rem: Remaining, c: Hash)
    requires items <= rem.Keys && IsLargest(c, items, rem)
    ensures items != {} && c == Largest(items, rem)
  {
  }

  /** The tree's least key at or above the amount. */
  method FindLowerBound(
    tree: seq<TreeKey>, ghost items: set<Hash>, ghost rem: Remaining, amount: int) returns (r: Option<Hash>)
    requires IsTree(tree, items, rem)
    ensures r.None? <==> !Covered(items, rem, amount)
    ensures r.Some? ==> r.value == LowerBound(items, rem, amount)
  {
    var i := 0;
    while i < |tree|
      invariant 0 <= i <= |tree| && forall j :: 0 <= j < i ==> tree[j].amount < amount
    {
      if tree[i].amount >= amount {
        var c := tree[i].id;
        assert rem[c] >= amount;
        forall d | d in items && rem[d] >= amount ensures rem[c] < rem[d] || (rem[c] == rem[d] && c <= d) {
          assert TreeKey(rem[d], d) in tree;
          var k :| 0 <= k < |tree| && tree[k] == TreeKey(rem[d], d);
          assert k >= i;
        }
        LowerBoundUnique(items, rem, amount, c);
        return Some(c);
      }
      i := i + 1;
    }
    forall d | d in items ensures rem[d] < amount {
      assert TreeKey(rem[d], d) in tree;
    }
    r := None;
  }

  /** The largest amount in the tree, and the smallest identifier that has it. */
  method LargestSmallestId(tree: seq<TreeKey>, ghost items: set<Hash>, ghost rem: Remaining) returns (r: Option<Hash>)
    requires IsTree(tree, items, rem)
    ensures r.None? <==> items == {}
    ensures r.Some? ==> items != {} && r.value == Largest(items, rem)
  {
    if tree == [] {
      assert forall c :: c in items ==> TreeKey(rem[c], c) in tree;
      return None;
    }
    var top := tree[|tree| - 1];
    assert top.id in items && rem[top.id] >= top.amount;
    r := FindLowerBound(tree, items, rem, top.amount);
    var c := r.value;
    forall d | d in items ensures rem[d] < rem[c] || (rem[d] == rem[c] && c <= d) {
      assert TreeKey(rem[d], d) in tree;
      assert rem[d] <= top.amount;
    }
    LargestUnique(items, rem, c);
  }

  function Skip(i: nat, k: nat): nat {
    if k < i then k else k + 1
  }

  lemma WithoutAt(tree: seq<TreeKey>, i: nat) returns (rest: seq<TreeKey>)
    requires i < |tree|
    ensures rest == tree[..i] + tree[i + 1..] && |rest| == |tree| - 1
    ensures forall k :: 0 <= k < |rest| ==> rest[k] == tree[Skip(i, k)]
    ensures forall k :: 0 <= k < |tree| && k != i ==> tree[k] in rest
  {
    rest := tree[..i] + tree[i + 1..];
    forall k | 0 <= k < |tree| && k != i ensures tree[k] in rest {
      assert rest[if k < i then k else k - 1] == tree[k];
    }
  }

  lemma SkipOrdered(tree: seq<TreeKey>, i: nat, rest: seq<TreeKey>)
    requires i < |tree| && |rest| == |tree| - 1 && forall k :: 0 <= k < |rest| ==> rest[k] == tree[Skip(i, k)]
    requires forall j, k :: 0 <= j < k < |tree| ==> KeyLess(tree[j], tree[k])
    ensures forall j, k :: 0 <= j < k < |rest| ==> KeyLess(rest[j], rest[k])
  {
    forall j, k | 0 <= j < k < |rest| ensures KeyLess(rest[j], rest[k]) {
      assert KeyLess(tree[Skip(i, j)], tree[Skip(i, k)]);
    }
  }

  lemma RemoveKey(tree: seq<TreeKey>, items: set<Hash>, rem: Remaining, i: nat)
    requires IsTree(tree, items, rem) && i < |tree|
    ensures IsTree(tree[..i] + tree[i + 1..], items - {tree[i].id}, rem)
  {
    var rest := WithoutAt(tree, i);
    SkipOrdered(tree, i, rest);
    forall d | d in items - {tree[i].id} ensures TreeKey(rem[d], d) in rest {
      assert TreeKey(rem[d], d) in tree;
    }
  }

  /** deleteItem: removes an item under its current key. */
  method DeleteItem(
    tree: seq<TreeKey>, ghost items: set<Hash>, rem: Remaining, c: Hash) returns (r: Option<seq<TreeKey>>)
    requires IsTree(tree, items, rem) && c in rem
    ensures r.Some? <==> c in items
    ensures r.Some? ==> IsTree(r.value, items - {c}, rem)
  {
    var i := 0;
    while i < |tree|
      invariant 0 <= i <= |tree| && forall j :: 0 <= j < i ==> tree[j] != TreeKey(rem[c], c)
    {
      if tree[i] == TreeKey(rem[c], c) {
        RemoveKey(tree, items, rem, i);
        return Some(tree[..i] + tree[i + 1..]);
      }
      i := i + 1;
    }
    r := None;
  }

  lemma TreeWithout(tree: seq<TreeKey>, items: set<Hash>, rem: Remaining, next: Remaining)
    requires IsTree(tree, items, rem) && next.Keys == rem.Keys && forall c :: c in items ==> next[c] == rem[c]
    ensures IsTree(tree, items, next)
  {
  }

  /** ReplaceOrInsert: adds an item under its current key. */
  lemma InsertItem(tree: seq<TreeKey>, items: set<Hash>, rem: Remaining, c: Hash)
    requires IsTree(tree, items, rem) && c in rem && c !in items
    ensures IsTree(InsertBy(TreeKey(rem[c], c), tree, TreeRank()), items + {c}, rem)
  {
    var key := TreeKey(rem[c], c);
    var next := InsertBy(key, tree, TreeRank());
    TreeSorted(tree, items, rem);
    InsertByProperties(key, tree, TreeRank());
    assert multiset(next) == multiset(tree + [key]);
    SameElements(next, tree + [key]);
    InsertDistinct(tree, key, next);
    InsertedItems(tree, items, rem, c, next);
    InsertedTree(next, items + {c}, rem);
  }

  lemma TreeSorted(tree: seq<TreeKey>, items: set<Hash>, rem: Remaining)
    requires IsTree(tree, items, rem)
    ensures Sorted(tree, TreeRank())
  {
    forall i, j | 0 <= i < j < |tree| ensures TreeRank()(tree[i]) <= TreeRank()(tree[j]) {
      assert KeyLess(tree[i], tree[j]);
    }
  }

  lemma InsertedTree(tree: seq<TreeKey>, items: set<Hash>, rem: Remaining)
    requires items <= rem.Keys && forall i, j :: 0 <= i < j < |tree| ==> KeyLess(tree[i], tree[j])
    requires forall i :: 0 <= i < |tree| ==> tree[i].id in items && rem[tree[i].id] == tree[i].amount
    requires forall c :: c in items ==> TreeKey(rem[c], c) in tree
    ensures IsTree(tree, items, rem)
  {
  }

  lemma InsertedItems(tree: seq<TreeKey>, items: set<Hash>, rem: Remaining, c: Hash, next: seq<TreeKey>)
    requires IsTree(tree, items, rem) && c in rem && forall k :: k in next <==> k in tree + [TreeKey(rem[c], c)]
    ensures forall i :: 0 <= i < |next| ==> next[i].id in items + {c} && rem[next[i].id] == next[i].amount
    ensures forall d :: d in items + {c} ==> TreeKey(rem[d], d) in next
  {
    var key := TreeKey(rem[c], c);
    forall i | 0 <= i < |next| ensures next[i].id in items + {c} && rem[next[i].id] == next[i].amount {
      assert next[i] in tree + [key];
    }
    forall d | d in items + {c} ensures TreeKey(rem[d], d) in next {
      if d == c {
        assert (tree + [key])[|tree|] == key;
      } else {
        assert TreeKey(rem[d], d) in tree;
      }
      assert TreeKey(rem[d], d) in tree + [key];
    }
  }

  lemma InsertDistinct(tree: seq<TreeKey>, key: TreeKey, next: seq<TreeKey>)
    requires forall i, j :: 0 <= i < j < |tree| ==> tree[i].amount < tree[j].amount || (tree[i].amount == tree[j].amount && tree[i].id < tree[j].id)
    requires forall i :: 0 <= i < |tree| ==> tree[i].id != key.id
    requires multiset(next) == multiset(tree + [key]) && Sorted(next, TreeRank())
    ensures forall i, j :: 0 <= i < j < |next| ==> next[i].amount < next[j].amount || (next[i].amount == next[j].amount && next[i].id < next[j].id)
  {
    var all := tree + [key];
    assert Distinct(all, TreeRank());
    DistinctPermutes(all, next, TreeRank());
    forall i, j | 0 <= i < j < |next|
      ensures next[i].amount < next[j].amount || (next[i].amount == next[j].amount && next[i].id < next[j].id)
    {
      assert TreeRank()(next[i]) < TreeRank()(next[j]);
    }
  }

  lemma LiveAfter(live: set<Hash>, rem: Remaining, next: Remaining, a: Hash, c: Hash)
    requires Ready(live, rem) && a in rem && a !in live && c in live && next.Keys == rem.Keys
    requires forall i :: i in rem && i != a && i != c ==> next[i] == rem[i]
    ensures Live(live, next) == (if next[c] > 0 then live - {c} + {c} else live - {c})
  {
  }

  lemma PairsUnfold(key: GroupKey, amount: int, ls: seq<Hash>, rs: seq<Hash>, k: nat, prefix: seq<Allocation>)
    requires k < |ls| && k < |rs|
    ensures prefix + Pairs(key, amount, ls[k..], rs[k..]) ==
      prefix + [Allocation(key, ls[k], rs[k], amount, Exact)] + Pairs(key, amount, ls[k + 1..], rs[k + 1..])
  {
    assert ls[k..][1..] == ls[k + 1..] && rs[k..][1..] == rs[k + 1..];
    ConcatAssociative(prefix, [Allocation(key, ls[k], rs[k], amount, Exact)], Pairs(key, amount, ls[k + 1..], rs[k + 1..]));
  }

  lemma ExactOverUnfold(
    key: GroupKey, lower: set<Hash>, higher: set<Hash>, rem: Remaining, amounts: seq<int>, k: nat,
    prefix: seq<Allocation>)
    requires k < |amounts|
    ensures prefix + ExactOver(key, lower, higher, rem, amounts[k..]) ==
      prefix + Pairs(key, amounts[k], Bucket(lower, rem, amounts[k]), Bucket(higher, rem, amounts[k])) +
      ExactOver(key, lower, higher, rem, amounts[k + 1..])
  {
    var rest := amounts[k..];
    assert rest[1..] == amounts[k + 1..] && rest[0] == amounts[k];
    ConcatAssociative(prefix, Pairs(key, rest[0], Bucket(lower, rem, rest[0]), Bucket(higher, rem, rest[0])),
                      ExactOver(key, lower, higher, rem, rest[1..]));
  }

  /** Each bucket lists, without repetition, the items of its amount. */
  ghost predicate IsBuckets(buckets: map<int, seq<Hash>>, s: set<Hash>, rem: Remaining) {
    forall a :: a in buckets ==> NoDuplicates(buckets[a]) && Elements(buckets[a]) == WithAmount(s, rem, a)
  }

  lemma BucketSorts(buckets: map<int, seq<Hash>>, s: set<Hash>, rem: Remaining, a: int)
    requires IsBuckets(buckets, s, rem) && a in buckets
    ensures SortBy(buckets[a], ById()) == Bucket(s, rem, a)
    ensures forall i :: i in SortBy(buckets[a], ById()) ==> i in s
  {
    assert forall i :: i in buckets[a] <==> i in Elements(buckets[a]);
    SortsToOrdered(buckets[a], WithAmount(s, rem, a), ById());
  }

  lemma BucketsExtend(buckets: map<int, seq<Hash>>, s: set<Hash>, rem: Remaining, item: Hash)
    requires IsBuckets(buckets, s, rem) && buckets.Keys == Amounts(s, rem) && item !in s && item in rem
    ensures var a := rem[item];
      var next := if a > 0 then buckets[a := (if a in buckets then buckets[a] else []) + [item]] else buckets;
      IsBuckets(next, s + {item}, rem) && next.Keys == Amounts(s + {item}, rem)
  {
    var a := rem[item];
    if a > 0 {
      var old' := if a in buckets then buckets[a] else [];
      assert Elements(old') == WithAmount(s, rem, a) by {
        if a !in buckets {
          assert WithAmount(s, rem, a) == {};
        }
      }
      assert forall i :: i in old' ==> i in s by {
        forall i | i in old' ensures i in s {
          assert i in Elements(old');
        }
      }
      NoDuplicatesSnoc(old', item);
      assert Elements(old' + [item]) == Elements(old') + {item};
      assert WithAmount(s + {item}, rem, a) == WithAmount(s, rem, a) + {item};
    }
    forall b | b != a ensures WithAmount(s + {item}, rem, b) == WithAmount(s, rem, b) {
    }
  }

  /** The buckets and their amounts in insertion order; the order of the amounts never reaches the result. */
  method BucketByAmount(items: seq<Hash>, rem: Remaining) returns (buckets: map<int, seq<Hash>>, keys: seq<int>)
    requires NoDuplicates(items) && forall i :: i in items ==> i in rem
    ensures buckets.Keys == Amounts(Elements(items), rem) && IsBuckets(buckets, Elements(items), rem)
    ensures NoDuplicates(keys) && forall a :: a in keys <==> a in buckets
  {
    buckets, keys := map[], [];
    for k := 0 to |items|
      invariant buckets.Keys == Amounts(Elements(items[..k]), rem) && IsBuckets(buckets, Elements(items[..k]), rem)
      invariant NoDuplicates(keys) && forall a :: a in keys <==> a in buckets
    {
      var item := items[k];
      assert item !in items[..k];
      BucketsExtend(buckets, Elements(items[..k]), rem, item);
      assert items[..k + 1] == items[..k] + [item];
      assert Elements(items[..k + 1]) == Elements(items[..k]) + {item};
      if rem[item] > 0 {
        var a := rem[item];
        if a !in buckets {
          NoDuplicatesSnoc(keys, a);
          keys := keys + [a];
        }
        buckets := buckets[a := (if a in buckets then buckets[a] else []) + [item]];
      }
    }
    assert items[..|items|] == items;
  }

  method CommonDescending(keys: seq<int>, ghost left: set<int>, right: map<int, seq<Hash>>) returns (amounts: seq<int>)
    requires NoDuplicates(keys) && forall a :: a in keys <==> a in left
    ensures amounts == Ordered(left * right.Keys, Descending())
    ensures forall k :: 0 <= k < |amounts| ==> amounts[k] in left && amounts[k] in right
  {
    var list: seq<int> := [];
    for i := 0 to |keys|
      invariant NoDuplicates(list) && forall a :: a in list <==> a in keys[..i] && a in right
    {
      if keys[i] in right {
        NoDuplicatesSnoc(list, keys[i]);
        list := list + [keys[i]];
      }
      assert keys[..i + 1] == keys[..i] + [keys[i]];
    }
    assert keys[..|keys|] == keys;
    ghost var common := left * right.Keys;
    assert forall a: int :: a in list <==> a in common;
    SortsToOrdered(list, common, Descending());
    amounts := SortBy(list, Descending());
    forall k | 0 <= k < |amounts| ensures amounts[k] in left && amounts[k] in right {
      assert amounts[k] in amounts;
    }
  }
}
