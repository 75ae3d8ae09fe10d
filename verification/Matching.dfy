/**
 * The netting of one group as a function of the set of its intents: exact, best-fit and split allocation
 * (pkg/netting/matcher/matcher.go), with what the three phases achieve.
 */
module Matching {
  import opened Base
  import opened ByteStrings
  import opened Sums
  import opened Sorting
  import opened Allocations

  // ---- orders ----

  function ById(): Hash -> int {
    (i: Hash) => i
  }

  function Descending(): int -> int {
    (a: int) => -a
  }

  /** Larger remaining amount first, then smaller identifier: one integer orders the pair. */
  function ActiveRank(rem: Remaining): Hash -> int {
    (i: Hash) => (if i in rem then -rem[i] * TWO_256 else 0) + i
  }

  lemma ActiveRankOrders(rem: Remaining, i: Hash, j: Hash)
    requires i in rem && j in rem
    ensures ActiveRank(rem)(i) <= ActiveRank(rem)(j) <==> rem[i] > rem[j] || (rem[i] == rem[j] && i <= j)
  {
  }

  lemma ActiveRankInjective(s: set<Hash>, rem: Remaining)
    requires s <= rem.Keys
    ensures Injective(s, ActiveRank(rem))
  {
    forall i, j | i in s && j in s && ActiveRank(rem)(i) == ActiveRank(rem)(j) ensures i == j {
      ActiveRankOrders(rem, i, j);
      ActiveRankOrders(rem, j, i);
    }
  }

  ghost function Elements(ids: seq<Hash>): set<Hash> {
    set i | i in ids
  }

  // ---- exact phase ----

  ghost function Amounts(s: set<Hash>, rem: Remaining): set<int> {
    set i | i in s && i in rem && rem[i] > 0 :: rem[i]
  }

  ghost function WithAmount(s: set<Hash>, rem: Remaining, a: int): set<Hash> {
    set i | i in s && i in rem && rem[i] == a
  }

  ghost function Bucket(s: set<Hash>, rem: Remaining, a: int): seq<Hash> {
    Ordered(WithAmount(s, rem, a), ById())
  }

  function Pairs(key: GroupKey, a: int, ls: seq<Hash>, rs: seq<Hash>): seq<Allocation> {
    if ls == [] || rs == [] then [] else [Allocation(key, ls[0], rs[0], a, Exact)] + Pairs(key, a, ls[1..], rs[1..])
  }

  ghost function ExactOver(
    key: GroupKey, lower: set<Hash>, higher: set<Hash>, rem: Remaining, amounts: seq<int>): seq<Allocation> {
    if amounts == [] then [] else
      Pairs(key, amounts[0], Bucket(lower, rem, amounts[0]), Bucket(higher, rem, amounts[0])) +
      ExactOver(key, lower, higher, rem, amounts[1..])
  }

  ghost function CommonAmounts(lower: set<Hash>, higher: set<Hash>, rem: Remaining): seq<int> {
    Ordered(Amounts(lower, rem) * Amounts(higher, rem), Descending())
  }

  ghost function ExactAllocs(key: GroupKey, lower: set<Hash>, higher: set<Hash>, rem: Remaining): seq<Allocation> {
    ExactOver(key, lower, higher, rem, CommonAmounts(lower, higher, rem))
  }

  // ---- best-fit and split phases ----

  /** The least counter item, by amount then identifier, that covers the amount. */
  ghost predicate IsLowerBound(c: Hash, tree: set<Hash>, rem: Remaining, amount: int)
    requires tree <= rem.Keys
  {
    c in tree && rem[c] >= amount &&
    forall d :: d in tree && rem[d] >= amount ==> rem[c] < rem[d] || (rem[c] == rem[d] && c <= d)
  }

  /** The counter item with the largest amount, the smallest identifier among equals. */
  ghost predicate IsLargest(c: Hash, tree: set<Hash>, rem: Remaining)
    requires tree <= rem.Keys
  {
    c in tree && forall d :: d in tree ==> rem[d] < rem[c] || (rem[d] == rem[c] && c <= d)
  }

  ghost predicate Covered(tree: set<Hash>, rem: Remaining, amount: int)
    requires tree <= rem.Keys
  {
    exists c :: c in tree && rem[c] >= amount
  }

  lemma {:induction false} LowerBoundExists(tree: set<Hash>, rem: Remaining, amount: int)
    requires tree <= rem.Keys && Covered(tree, rem, amount)
    ensures exists c :: IsLowerBound(c, tree, rem, amount)
    decreases |tree|
  {
    var d :| d in tree && rem[d] >= amount;
    var rest := tree - {d};
    if Covered(rest, rem, amount) {
      LowerBoundExists(rest, rem, amount);
      var c :| IsLowerBound(c, rest, rem, amount);
      if rem[d] < rem[c] || (rem[d] == rem[c] && d < c) {
        assert IsLowerBound(d, tree, rem, amount);
      } else {
        assert IsLowerBound(c, tree, rem, amount);
      }
    } else {
      assert forall e :: e in tree && rem[e] >= amount ==> e == d || e in rest;
      assert IsLowerBound(d, tree, rem, amount);
    }
  }

  lemma {:induction false} LargestExists(tree: set<Hash>, rem: Remaining)
    requires tree <= rem.Keys && tree != {}
    ensures exists c :: IsLargest(c, tree, rem)
    decreases |tree|
  {
    var d :| d in tree;
    var rest := tree - {d};
    if rest == {} {
      assert tree == {d};
      assert IsLargest(d, tree, rem);
    } else {
      LargestExists(rest, rem);
      var c :| IsLargest(c, rest, rem);
      if rem[d] > rem[c] || (rem[d] == rem[c] && d < c) {
        assert IsLargest(d, tree, rem);
      } else {
        assert IsLargest(c, tree, rem);
      }
    }
  }

  ghost function LowerBound(tree: set<Hash>, rem: Remaining, amount: int): (c: Hash)
    requires tree <= rem.Keys && Covered(tree, rem, amount)
    ensures IsLowerBound(c, tree, rem, amount)
  {
    LowerBoundExists(tree, rem, amount);
    var c :| IsLowerBound(c, tree, rem, amount);
    c
  }

  ghost function Largest(tree: set<Hash>, rem: Remaining): (c: Hash)
    requires tree <= rem.Keys && tree != {}
    ensures IsLargest(c, tree, rem)
  {
    LargestExists(tree, rem);
    var c :| IsLargest(c, tree, rem);
    c
  }

  function Allot(
    key: GroupKey, active: Hash, counter: Hash, amount: int, phase: Phase, activeIsLower: bool): Allocation {
    if activeIsLower then Allocation(key, active, counter, amount, phase) else Allocation(key, counter, active, amount, phase)
  }

  function Min(x: int, y: int): int {
    if x <= y then x else y
  }

  /** The counter items still in the tree: those with something left. */
  ghost function Live(tree: set<Hash>, rem: Remaining): set<Hash> {
    set c | c in tree && c in rem && rem[c] > 0
  }

  /** The allocations of a phase, and whether the counter tree was exhausted on the way. */
  datatype Fill = Fill(exhausted: bool, allocs: seq<Allocation>)

  ghost predicate Ready(tree: set<Hash>, rem: Remaining) {
    tree <= rem.Keys && forall c :: c in tree ==> rem[c] > 0
  }

  lemma AllotEffect(key: GroupKey, a: Hash, c: Hash, amount: int, phase: Phase, activeIsLower: bool, rem: Remaining)
    requires a in rem && c in rem && a != c
    ensures Apply(rem, Allot(key, a, c, amount, phase, activeIsLower)) == rem[a := rem[a] - amount][c := rem[c] - amount]
  {
  }

  ghost function SplitStep(key: GroupKey, a: Hash, tree: set<Hash>, rem: Remaining, activeIsLower: bool): Allocation
    requires a in rem && tree != {} && Ready(tree, rem)
  {
    var c := Largest(tree, rem);
    Allot(key, a, c, Min(rem[a], rem[c]), Split, activeIsLower)
  }

  ghost function Work(a: Hash, tree: set<Hash>, rem: Remaining): nat
    requires a in rem
  {
    |tree| + (if rem[a] > 0 then 1 else 0)
  }

  lemma SplitProgress(key: GroupKey, a: Hash, tree: set<Hash>, rem: Remaining, activeIsLower: bool)
    requires a in rem && a !in tree && tree != {} && Ready(tree, rem) && rem[a] > 0
    ensures var next := Apply(rem, SplitStep(key, a, tree, rem, activeIsLower));
      a in next && next[a] >= 0 && Ready(Live(tree, next), next) && Work(a, Live(tree, next), next) < Work(a, tree, rem)
  {
    var c := Largest(tree, rem);
    AllotEffect(key, a, c, Min(rem[a], rem[c]), Split, activeIsLower, rem);
    var next := Apply(rem, SplitStep(key, a, tree, rem, activeIsLower));
    if next[c] == 0 {
      assert Live(tree, next) <= tree - {c};
      SubsetSize(Live(tree, next), tree - {c});
    } else {
      SubsetSize(Live(tree, next), tree);
    }
  }

  /** One active intent split over the largest counter items. */
  ghost function SplitOver(key: GroupKey, a: Hash, tree: set<Hash>, rem: Remaining, activeIsLower: bool): Fill
    requires a in rem && a !in tree && Ready(tree, rem)
    decreases Work(a, tree, rem)
  {
    if rem[a] <= 0 then Fill(false, [])
    else if tree == {} then Fill(true, [])
    else
      SplitProgress(key, a, tree, rem, activeIsLower);
      var step := SplitStep(key, a, tree, rem, activeIsLower);
      var next := Apply(rem, step);
      var rest := SplitOver(key, a, Live(tree, next), next, activeIsLower);
      Fill(rest.exhausted, [step] + rest.allocs)
  }

  ghost function BestFitStep(key: GroupKey, a: Hash, tree: set<Hash>, rem: Remaining, activeIsLower: bool): Allocation
    requires a in rem && tree <= rem.Keys && Covered(tree, rem, rem[a])
  {
    Allot(key, a, LowerBound(tree, rem, rem[a]), rem[a], BestFit, activeIsLower)
  }

  /** The active intents still to be served are positive, distinct and outside the counter tree. */
  ghost predicate Queued(acts: seq<Hash>, tree: set<Hash>, rem: Remaining) {
    NoDuplicates(acts) && forall i :: 0 <= i < |acts| ==> acts[i] in rem && rem[acts[i]] > 0 && acts[i] !in tree
  }

  lemma BestFitProgress(key: GroupKey, acts: seq<Hash>, tree: set<Hash>, rem: Remaining, activeIsLower: bool)
    requires acts != [] && Queued(acts, tree, rem) && Ready(tree, rem) && Covered(tree, rem, rem[acts[0]])
    ensures var next := Apply(rem, BestFitStep(key, acts[0], tree, rem, activeIsLower));
      Ready(Live(tree, next), next) && Queued(acts[1..], Live(tree, next), next) && next[acts[0]] == 0
  {
    var a := acts[0];
    var c := LowerBound(tree, rem, rem[a]);
    AllotEffect(key, a, c, rem[a], BestFit, activeIsLower, rem);
  }

  /** What splitting one active intent leaves: other active intents untouched, counter items only reduced. */
  lemma {:induction false} SplitFrame(key: GroupKey, a: Hash, tree: set<Hash>, rem: Remaining, activeIsLower: bool)
    requires a in rem && a !in tree && Ready(tree, rem)
    ensures var next := ApplyAll(rem, SplitOver(key, a, tree, rem, activeIsLower).allocs);
      && next.Keys == rem.Keys
      && (forall i :: i in rem && i != a && i !in tree ==> next[i] == rem[i])
      && (forall c :: c in tree ==> 0 <= next[c] <= rem[c])
      && (rem[a] >= 0 ==> 0 <= next[a] <= rem[a])
    decreases Work(a, tree, rem)
  {
    if rem[a] > 0 && tree != {} {
      SplitProgress(key, a, tree, rem, activeIsLower);
      var c := Largest(tree, rem);
      AllotEffect(key, a, c, Min(rem[a], rem[c]), Split, activeIsLower, rem);
      var step := SplitStep(key, a, tree, rem, activeIsLower);
      var next := Apply(rem, step);
      assert a in next && a !in Live(tree, next);
      SplitFrame(key, a, Live(tree, next), next, activeIsLower);
      assert SplitOver(key, a, tree, rem, activeIsLower).allocs[1..] == SplitOver(key, a, Live(tree, next), next, activeIsLower).allocs;
    }
  }

  lemma SplitLeaves(key: GroupKey, acts: seq<Hash>, tree: set<Hash>, rem: Remaining, activeIsLower: bool)
    requires acts != [] && Queued(acts, tree, rem) && Ready(tree, rem)
    ensures var next := ApplyAll(rem, SplitOver(key, acts[0], tree, rem, activeIsLower).allocs);
      Ready(Live(tree, next), next) && Queued(acts[1..], Live(tree, next), next)
  {
    SplitFrame(key, acts[0], tree, rem, activeIsLower);
  }

  /** The loop over the active intents: best fit first, then (when allowed) splitting. */
  ghost function Serve(
    key: GroupKey, acts: seq<Hash>, tree: set<Hash>, rem: Remaining, allowSplit: bool, activeIsLower: bool): Fill
    requires Queued(acts, tree, rem) && Ready(tree, rem)
    decreases |acts|
  {
    if acts == [] then Fill(false, [])
    else if Covered(tree, rem, rem[acts[0]]) then
      BestFitProgress(key, acts, tree, rem, activeIsLower);
      var step := BestFitStep(key, acts[0], tree, rem, activeIsLower);
      var next := Apply(rem, step);
      var rest := Serve(key, acts[1..], Live(tree, next), next, allowSplit, activeIsLower);
      Fill(rest.exhausted, [step] + rest.allocs)
    else if !allowSplit then Serve(key, acts[1..], tree, rem, allowSplit, activeIsLower)
    else
      var split := SplitOver(key, acts[0], tree, rem, activeIsLower);
      if split.exhausted then split else
        SplitLeaves(key, acts, tree, rem, activeIsLower);
        var next := ApplyAll(rem, split.allocs);
        var rest := Serve(key, acts[1..], Live(tree, next), next, allowSplit, activeIsLower);
        Fill(rest.exhausted, split.allocs + rest.allocs)
  }

  /** The smaller side is active; ties make the lower-to-higher side active. */
  ghost predicate LowerIsActive(lower: set<Hash>, higher: set<Hash>, rem: Remaining) {
    SumOn(lower, rem) <= SumOn(higher, rem)
  }

  ghost function ActiveOrder(active: set<Hash>, rem: Remaining): seq<Hash> {
    Ordered(Positive(active, rem), ActiveRank(rem))
  }

  lemma ActiveOrderQueued(active: set<Hash>, counter: set<Hash>, rem: Remaining)
    requires active !! counter
    ensures Queued(ActiveOrder(active, rem), Positive(counter, rem), rem)
    ensures Ready(Positive(counter, rem), rem)
  {
    ActiveRankInjective(Positive(active, rem), rem);
    OrderedDistinct(Positive(active, rem), ActiveRank(rem));
    var acts := ActiveOrder(active, rem);
    forall i | 0 <= i < |acts| ensures acts[i] in Positive(active, rem) {
      assert acts[i] in acts;
    }
  }

  ghost function RemainingAllocs(
    key: GroupKey, lower: set<Hash>, higher: set<Hash>, rem: Remaining, allowSplit: bool): Fill
    requires lower !! higher
  {
    var lowerActive := LowerIsActive(lower, higher, rem);
    var active := if lowerActive then lower else higher;
    var counter := if lowerActive then higher else lower;
    ActiveOrderQueued(active, counter, rem);
    Serve(key, ActiveOrder(active, rem), Positive(counter, rem), rem, allowSplit, lowerActive)
  }
}
