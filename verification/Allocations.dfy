/** What every sequence of legal bilateral allocations keeps, whatever rule chose it. */
module Allocations {
  import opened Base
  import opened ByteStrings
  import opened Sums

  datatype Phase = Exact | BestFit | Split
  datatype GroupKey = GroupKey(lower: Int64, higher: Int64, asset: Hash)
  datatype Allocation = Allocation(group: GroupKey, lowerId: Hash, higherId: Hash, amount: int, phase: Phase)

  /** Amounts still to be matched, by intent. */
  type Remaining = map<Hash, int>

  function Reduce(rem: Remaining, id: Hash, amount: int): Remaining {
    rem[id := (if id in rem then rem[id] else 0) - amount]
  }

  function Apply(rem: Remaining, a: Allocation): Remaining {
    Reduce(Reduce(rem, a.lowerId, a.amount), a.higherId, a.amount)
  }

  function ApplyAll(rem: Remaining, allocs: seq<Allocation>): Remaining
    decreases |allocs|
  {
    if allocs == [] then rem else ApplyAll(Apply(rem, allocs[0]), allocs[1..])
  }

  lemma {:induction false} ApplyAllConcat(rem: Remaining, xs: seq<Allocation>, ys: seq<Allocation>)
    ensures ApplyAll(rem, xs + ys) == ApplyAll(ApplyAll(rem, xs), ys)
    decreases |xs|
  {
    if xs == [] {
      assert xs + ys == ys;
    } else {
      ApplyAllConcat(Apply(rem, xs[0]), xs[1..], ys);
      assert (xs + ys)[1..] == xs[1..] + ys;
    }
  }

  lemma ApplyAllSnoc(rem: Remaining, xs: seq<Allocation>, a: Allocation)
    ensures ApplyAll(rem, xs + [a]) == Apply(ApplyAll(rem, xs), a)
  {
    ApplyAllConcat(rem, xs, [a]);
    assert [a][1..] == [];
  }

  /** An allocation takes a positive amount that both sides still have and uses one of them up. */
  ghost predicate LegalStep(lower: set<Hash>, higher: set<Hash>, rem: Remaining, a: Allocation) {
    && a.lowerId in lower && a.higherId in higher && a.lowerId in rem && a.higherId in rem
    && 0 < a.amount <= rem[a.lowerId] && a.amount <= rem[a.higherId]
    && (a.amount == rem[a.lowerId] || a.amount == rem[a.higherId])
  }

  ghost predicate Legal(lower: set<Hash>, higher: set<Hash>, rem: Remaining, allocs: seq<Allocation>)
    decreases |allocs|
  {
    allocs == [] || (LegalStep(lower, higher, rem, allocs[0]) && Legal(lower, higher, Apply(rem, allocs[0]), allocs[1..]))
  }

  lemma {:induction false} LegalConcat(
    lower: set<Hash>, higher: set<Hash>, rem: Remaining, xs: seq<Allocation>, ys: seq<Allocation>)
    requires Legal(lower, higher, rem, xs) && Legal(lower, higher, ApplyAll(rem, xs), ys)
    ensures Legal(lower, higher, rem, xs + ys)
    decreases |xs|
  {
    if xs == [] {
      assert xs + ys == ys;
    } else {
      LegalConcat(lower, higher, Apply(rem, xs[0]), xs[1..], ys);
      assert (xs + ys)[1..] == xs[1..] + ys;
      assert (xs + ys)[0] == xs[0];
    }
  }

  ghost function Total(allocs: seq<Allocation>): int {
    if allocs == [] then 0 else allocs[0].amount + Total(allocs[1..])
  }

  lemma {:induction false} TotalConcat(xs: seq<Allocation>, ys: seq<Allocation>)
    ensures Total(xs + ys) == Total(xs) + Total(ys)
    decreases |xs|
  {
    if xs == [] {
      assert xs + ys == ys;
    } else {
      TotalConcat(xs[1..], ys);
      assert (xs + ys)[1..] == xs[1..] + ys;
    }
  }

  /** The part of a map on a set of keys. */
  ghost function On(s: set<Hash>, m: Remaining): Remaining {
    map i | i in s && i in m :: m[i]
  }

  ghost function SumOn(s: set<Hash>, m: Remaining): int {
    Sum(On(s, m))
  }

  ghost function Positive(s: set<Hash>, rem: Remaining): set<Hash> {
    set i | i in s && i in rem && rem[i] > 0
  }

  /** The two directions of a group and its remaining amounts. */
  ghost predicate WellFormed(lower: set<Hash>, higher: set<Hash>, rem: Remaining) {
    lower !! higher && rem.Keys == lower + higher && forall i :: i in rem ==> rem[i] >= 0
  }

  lemma SumOnReduce(s: set<Hash>, rem: Remaining, id: Hash, amount: int)
    requires id in rem
    ensures SumOn(s, Reduce(rem, id, amount)) == SumOn(s, rem) - (if id in s then amount else 0)
  {
    if id in s {
      assert On(s, Reduce(rem, id, amount)) == On(s, rem)[id := rem[id] - amount];
      SumUpdate(On(s, rem), id, rem[id] - amount);
    } else {
      assert On(s, Reduce(rem, id, amount)) == On(s, rem);
    }
  }

  lemma LegalStepKeeps(lower: set<Hash>, higher: set<Hash>, rem: Remaining, a: Allocation)
    requires WellFormed(lower, higher, rem) && LegalStep(lower, higher, rem, a)
    ensures WellFormed(lower, higher, Apply(rem, a))
    ensures forall i :: i in rem ==> Apply(rem, a)[i] <= rem[i]
    ensures SumOn(lower, Apply(rem, a)) == SumOn(lower, rem) - a.amount
    ensures SumOn(higher, Apply(rem, a)) == SumOn(higher, rem) - a.amount
  {
    var mid := Reduce(rem, a.lowerId, a.amount);
    SumOnReduce(lower, rem, a.lowerId, a.amount);
    SumOnReduce(higher, rem, a.lowerId, a.amount);
    SumOnReduce(lower, mid, a.higherId, a.amount);
    SumOnReduce(higher, mid, a.higherId, a.amount);
  }

  /** Legal allocations never overdraw an intent and take the same total from both directions. */
  lemma {:induction false} LegalKeeps(lower: set<Hash>, higher: set<Hash>, rem: Remaining, allocs: seq<Allocation>)
    requires WellFormed(lower, higher, rem) && Legal(lower, higher, rem, allocs)
    ensures WellFormed(lower, higher, ApplyAll(rem, allocs))
    ensures forall i :: i in rem ==> ApplyAll(rem, allocs)[i] <= rem[i]
    ensures SumOn(lower, ApplyAll(rem, allocs)) == SumOn(lower, rem) - Total(allocs)
    ensures SumOn(higher, ApplyAll(rem, allocs)) == SumOn(higher, rem) - Total(allocs)
    ensures Total(allocs) >= 0
    decreases |allocs|
  {
    if allocs != [] {
      LegalStepKeeps(lower, higher, rem, allocs[0]);
      LegalKeeps(lower, higher, Apply(rem, allocs[0]), allocs[1..]);
    }
  }

  ghost function AtLeastOne(n: nat): nat {
    if n == 0 then 1 else n
  }

  lemma LegalStepUsesUp(lower: set<Hash>, higher: set<Hash>, rem: Remaining, a: Allocation)
    requires WellFormed(lower, higher, rem) && LegalStep(lower, higher, rem, a)
    ensures |Positive(rem.Keys, Apply(rem, a))| < |Positive(rem.Keys, rem)|
    ensures |Positive(rem.Keys, rem)| >= 2
  {
    var before, after := Positive(rem.Keys, rem), Positive(rem.Keys, Apply(rem, a));
    assert {a.lowerId, a.higherId} <= before;
    SubsetSize({a.lowerId, a.higherId}, before);
    var gone := if a.amount == rem[a.lowerId] then a.lowerId else a.higherId;
    assert after <= before - {gone};
    SubsetSize(after, before - {gone});
  }

  /** The number of legal allocations stays below the number of intents that had something to match. */
  lemma {:induction false} LegalCount(lower: set<Hash>, higher: set<Hash>, rem: Remaining, allocs: seq<Allocation>)
    requires WellFormed(lower, higher, rem) && Legal(lower, higher, rem, allocs)
    ensures |allocs| + AtLeastOne(|Positive(rem.Keys, ApplyAll(rem, allocs))|) <= AtLeastOne(|Positive(rem.Keys, rem)|)
    decreases |allocs|
  {
    if allocs != [] {
      var next := Apply(rem, allocs[0]);
      LegalStepKeeps(lower, higher, rem, allocs[0]);
      LegalStepUsesUp(lower, higher, rem, allocs[0]);
      LegalCount(lower, higher, next, allocs[1..]);
      assert next.Keys == rem.Keys;
    }
  }
}
