/** What the exact, best-fit and split phases achieve for one group. */
module MatchingProofs {
  import opened Base
  import opened ByteStrings
  import opened Sums
  import opened Sorting
  import opened Allocations
  import opened Matching

  // ---- the exact phase is legal ----

  lemma {:induction false} PairsLegal(
    key: GroupKey, a: int, ls: seq<Hash>, rs: seq<Hash>, lower: set<Hash>, higher: set<Hash>, cur: Remaining)
    requires lower !! higher && a > 0 && NoDuplicates(ls) && NoDuplicates(rs)
    requires forall i :: 0 <= i < |ls| ==> ls[i] in lower && ls[i] in cur && cur[ls[i]] == a
    requires forall i :: 0 <= i < |rs| ==> rs[i] in higher && rs[i] in cur && cur[rs[i]] == a
    ensures Legal(lower, higher, cur, Pairs(key, a, ls, rs))
    ensures ApplyAll(cur, Pairs(key, a, ls, rs)).Keys == cur.Keys
    ensures forall i :: i in cur && i !in ls && i !in rs ==> ApplyAll(cur, Pairs(key, a, ls, rs))[i] == cur[i]
    decreases |ls|
  {
    if ls != [] && rs != [] {
      var step := Allocation(key, ls[0], rs[0], a, Exact);
      var next := Apply(cur, step);
      forall i | 0 <= i < |ls[1..]| ensures ls[1..][i] in next && next[ls[1..][i]] == a {
        assert ls[1..][i] == ls[i + 1];
      }
      forall i | 0 <= i < |rs[1..]| ensures rs[1..][i] in next && next[rs[1..][i]] == a {
        assert rs[1..][i] == rs[i + 1];
      }
      PairsLegal(key, a, ls[1..], rs[1..], lower, higher, next);
      assert Pairs(key, a, ls, rs)[1..] == Pairs(key, a, ls[1..], rs[1..]);
      assert ls == [ls[0]] + ls[1..] && rs == [rs[0]] + rs[1..];
    }
  }

  lemma BucketProperties(s: set<Hash>, rem: Remaining, a: int)
    ensures NoDuplicates(Bucket(s, rem, a))
    ensures forall i :: 0 <= i < |Bucket(s, rem, a)| ==> Bucket(s, rem, a)[i] in WithAmount(s, rem, a)
  {
    OrderedDistinct(WithAmount(s, rem, a), ById());
    var b := Bucket(s, rem, a);
    forall i | 0 <= i < |b| ensures b[i] in WithAmount(s, rem, a) {
      assert b[i] in b;
    }
  }

  /** Intents whose amount is still on the list have not been touched. */
  ghost predicate Untouched(rem: Remaining, cur: Remaining, amounts: seq<int>) {
    cur.Keys == rem.Keys && forall i :: i in rem && rem[i] in amounts ==> cur[i] == rem[i]
  }

  lemma ExactStep(key: GroupKey, lower: set<Hash>, higher: set<Hash>, rem: Remaining, amounts: seq<int>, cur: Remaining)
    requires lower !! higher && amounts != [] && NoDuplicates(amounts) && amounts[0] > 0 && Untouched(rem, cur, amounts)
    ensures var ps := Pairs(key, amounts[0], Bucket(lower, rem, amounts[0]), Bucket(higher, rem, amounts[0]));
      Legal(lower, higher, cur, ps) && Untouched(rem, ApplyAll(cur, ps), amounts[1..])
  {
    var a := amounts[0];
    var ls, rs := Bucket(lower, rem, a), Bucket(higher, rem, a);
    BucketProperties(lower, rem, a);
    BucketProperties(higher, rem, a);
    PairsLegal(key, a, ls, rs, lower, higher, cur);
    var next := ApplyAll(cur, Pairs(key, a, ls, rs));
    forall i | i in rem && rem[i] in amounts[1..] ensures next[i] == rem[i] {
      assert rem[i] != a;
      assert i !in ls && i !in rs;
    }
  }

  lemma {:induction false} ExactOverLegal(
    key: GroupKey, lower: set<Hash>, higher: set<Hash>, rem: Remaining, amounts: seq<int>, cur: Remaining)
    requires lower !! higher && NoDuplicates(amounts) && (forall k :: 0 <= k < |amounts| ==> amounts[k] > 0)
    requires Untouched(rem, cur, amounts)
    ensures Legal(lower, higher, cur, ExactOver(key, lower, higher, rem, amounts))
    decreases |amounts|
  {
    if amounts != [] {
      var ps := Pairs(key, amounts[0], Bucket(lower, rem, amounts[0]), Bucket(higher, rem, amounts[0]));
      ExactStep(key, lower, higher, rem, amounts, cur);
      ExactOverLegal(key, lower, higher, rem, amounts[1..], ApplyAll(cur, ps));
      LegalConcat(lower, higher, cur, ps, ExactOver(key, lower, higher, rem, amounts[1..]));
    }
  }

  lemma ExactLegal(key: GroupKey, lower: set<Hash>, higher: set<Hash>, rem: Remaining)
    requires lower !! higher
    ensures Legal(lower, higher, rem, ExactAllocs(key, lower, higher, rem))
  {
    var common := Amounts(lower, rem) * Amounts(higher, rem);
    OrderedDistinct(common, Descending());
    var amounts := CommonAmounts(lower, higher, rem);
    forall k | 0 <= k < |amounts| ensures amounts[k] > 0 {
      assert amounts[k] in amounts;
    }
    ExactOverLegal(key, lower, higher, rem, amounts, rem);
  }

  // ---- the other phases are legal ----

  /** Which direction is active. */
  ghost predicate Sides(
    lower: set<Hash>, higher: set<Hash>, active: set<Hash>, counter: set<Hash>, activeIsLower: bool) {
    lower !! higher && if activeIsLower then active == lower && counter == higher else active == higher && counter == lower
  }

  lemma AllotLegal(key: GroupKey, a: Hash, c: Hash, amount: int, phase: Phase, activeIsLower: bool,
                   lower: set<Hash>, higher: set<Hash>, active: set<Hash>, counter: set<Hash>, rem: Remaining)
    requires Sides(lower, higher, active, counter, activeIsLower) && a in active && c in counter && a in rem && c in rem
    requires 0 < amount <= rem[a] && amount <= rem[c] && (amount == rem[a] || amount == rem[c])
    ensures LegalStep(lower, higher, rem, Allot(key, a, c, amount, phase, activeIsLower))
  {
  }

  lemma {:induction false} SplitLegal(key: GroupKey, a: Hash, tree: set<Hash>, rem: Remaining, activeIsLower: bool,
                                      lower: set<Hash>, higher: set<Hash>, active: set<Hash>, counter: set<Hash>)
    requires Sides(lower, higher, active, counter, activeIsLower) && a in active && tree <= counter
    requires a in rem && a !in tree && Ready(tree, rem)
    ensures Legal(lower, higher, rem, SplitOver(key, a, tree, rem, activeIsLower).allocs)
    decreases Work(a, tree, rem)
  {
    if rem[a] > 0 && tree != {} {
      SplitProgress(key, a, tree, rem, activeIsLower);
      var c := Largest(tree, rem);
      AllotLegal(key, a, c, Min(rem[a], rem[c]), Split, activeIsLower, lower, higher, active, counter, rem);
      var step := SplitStep(key, a, tree, rem, activeIsLower);
      var next := Apply(rem, step);
      SplitLegal(key, a, Live(tree, next), next, activeIsLower, lower, higher, active, counter);
      var fill := SplitOver(key, a, tree, rem, activeIsLower);
      assert fill.allocs[0] == step;
      assert fill.allocs[1..] == SplitOver(key, a, Live(tree, next), next, activeIsLower).allocs;
    }
  }

  ghost predicate SidesHold(acts: seq<Hash>, tree: set<Hash>, active: set<Hash>, counter: set<Hash>) {
    tree <= counter && forall i :: 0 <= i < |acts| ==> acts[i] in active
  }

  lemma {:induction false} ServeLegal(key: GroupKey, acts: seq<Hash>, tree: set<Hash>, rem: Remaining, allowSplit: bool, activeIsLower: bool,
                                      lower: set<Hash>, higher: set<Hash>, active: set<Hash>, counter: set<Hash>)
    requires Sides(lower, higher, active, counter, activeIsLower) && SidesHold(acts, tree, active, counter)
    requires Queued(acts, tree, rem) && Ready(tree, rem)
    ensures Legal(lower, higher, rem, Serve(key, acts, tree, rem, allowSplit, activeIsLower).allocs)
    decreases |acts|
  {
    if acts != [] {
      var a := acts[0];
      if Covered(tree, rem, rem[a]) {
        BestFitProgress(key, acts, tree, rem, activeIsLower);
        var step := BestFitStep(key, a, tree, rem, activeIsLower);
        AllotLegal(key, a, LowerBound(tree, rem, rem[a]), rem[a], BestFit, activeIsLower, lower, higher, active, counter, rem);
        var next := Apply(rem, step);
        ServeLegal(key, acts[1..], Live(tree, next), next, allowSplit, activeIsLower, lower, higher, active, counter);
        var fill := Serve(key, acts, tree, rem, allowSplit, activeIsLower);
        assert fill.allocs[0] == step;
        assert fill.allocs[1..] == Serve(key, acts[1..], Live(tree, next), next, allowSplit, activeIsLower).allocs;
      } else if !allowSplit {
        ServeLegal(key, acts[1..], tree, rem, allowSplit, activeIsLower, lower, higher, active, counter);
      } else {
        var split := SplitOver(key, a, tree, rem, activeIsLower);
        SplitLegal(key, a, tree, rem, activeIsLower, lower, higher, active, counter);
        if !split.exhausted {
          SplitLeaves(key, acts, tree, rem, activeIsLower);
          var next := ApplyAll(rem, split.allocs);
          ServeLegal(key, acts[1..], Live(tree, next), next, allowSplit, activeIsLower, lower, higher, active, counter);
          LegalConcat(lower, higher, rem, split.allocs, Serve(key, acts[1..], Live(tree, next), next, allowSplit, activeIsLower).allocs);
        }
      }
    }
  }

  lemma RemainingLegal(key: GroupKey, lower: set<Hash>, higher: set<Hash>, rem: Remaining, allowSplit: bool)
    requires lower !! higher
    ensures Legal(lower, higher, rem, RemainingAllocs(key, lower, higher, rem, allowSplit).allocs)
  {
    var lowerActive := LowerIsActive(lower, higher, rem);
    var active := if lowerActive then lower else higher;
    var counter := if lowerActive then higher else lower;
    ActiveOrderQueued(active, counter, rem);
    var acts := ActiveOrder(active, rem);
    forall i | 0 <= i < |acts| ensures acts[i] in active {
      assert acts[i] in acts;
    }
    ServeLegal(key, acts, Positive(counter, rem), rem, allowSplit, lowerActive, lower, higher, active, counter);
  }

  // ---- splitting never exhausts the counter tree and serves every active intent in full ----

  lemma SumLive(tree: set<Hash>, rem: Remaining)
    requires tree <= rem.Keys && forall c :: c in tree ==> rem[c] >= 0
    ensures SumOn(Live(tree, rem), rem) == SumOn(tree, rem)
  {
    var zero := On(tree - Live(tree, rem), rem);
    SumZero(zero);
    SumUnion(On(Live(tree, rem), rem), zero);
    assert On(tree, rem) == On(Live(tree, rem), rem) + zero;
  }

  lemma AllotSum(
    key: GroupKey, a: Hash, c: Hash, amount: int, phase: Phase, activeIsLower: bool, tree: set<Hash>,
    rem: Remaining)
    requires a in rem && c in rem && c in tree && a !in tree
    ensures SumOn(tree, Apply(rem, Allot(key, a, c, amount, phase, activeIsLower))) == SumOn(tree, rem) - amount
  {
    var step := Allot(key, a, c, amount, phase, activeIsLower);
    var mid := Reduce(rem, step.lowerId, amount);
    SumOnReduce(tree, rem, step.lowerId, amount);
    SumOnReduce(tree, mid, step.higherId, amount);
  }

  lemma EmptySum(rem: Remaining)
    ensures SumOn({}, rem) == 0
  {
    assert On({}, rem) == map[];
  }

  lemma {:induction false} SplitServes(key: GroupKey, a: Hash, tree: set<Hash>, rem: Remaining, activeIsLower: bool)
    requires a in rem && a !in tree && Ready(tree, rem) && 0 <= rem[a] <= SumOn(tree, rem)
    ensures var fill := SplitOver(key, a, tree, rem, activeIsLower);
      var next := ApplyAll(rem, fill.allocs);
      !fill.exhausted && a in next && next[a] == 0 && SumOn(tree, next) == SumOn(tree, rem) - rem[a]
    decreases Work(a, tree, rem)
  {
    if rem[a] > 0 {
      if tree == {} {
        EmptySum(rem);
        assert false;
      } else {
        SplitServesStep(key, a, tree, rem, activeIsLower);
        var step := SplitStep(key, a, tree, rem, activeIsLower);
        var next := Apply(rem, step);
        var live := Live(tree, next);
        SplitServes(key, a, live, next, activeIsLower);
        var rest := SplitOver(key, a, live, next, activeIsLower);
        assert SplitOver(key, a, tree, rem, activeIsLower).allocs[1..] == rest.allocs;
        SplitFrame(key, a, live, next, activeIsLower);
        SumOutsideLive(tree, next, ApplyAll(next, rest.allocs));
      }
    }
  }

  lemma SplitServesStep(key: GroupKey, a: Hash, tree: set<Hash>, rem: Remaining, activeIsLower: bool)
    requires a in rem && a !in tree && tree != {} && Ready(tree, rem) && 0 < rem[a] <= SumOn(tree, rem)
    ensures var next := Apply(rem, SplitStep(key, a, tree, rem, activeIsLower));
      && a in next && Ready(Live(tree, next), next) && Work(a, Live(tree, next), next) < Work(a, tree, rem)
      && 0 <= next[a] <= SumOn(Live(tree, next), next) && next.Keys == rem.Keys
      && (forall c :: c in tree ==> next[c] >= 0)
      && SumOn(tree, next) - next[a] == SumOn(tree, rem) - rem[a]
      && SumOn(Live(tree, next), next) == SumOn(tree, next)
  {
    SplitProgress(key, a, tree, rem, activeIsLower);
    var c := Largest(tree, rem);
    var amount := Min(rem[a], rem[c]);
    AllotEffect(key, a, c, amount, Split, activeIsLower, rem);
    AllotSum(key, a, c, amount, Split, activeIsLower, tree, rem);
    SumLive(tree, Apply(rem, SplitStep(key, a, tree, rem, activeIsLower)));
  }

  /** Items that left the tree keep their zero, so sums over the tree and over its live part agree afterwards too. */
  lemma SumOutsideLive(tree: set<Hash>, before: Remaining, after: Remaining)
    requires tree <= before.Keys && after.Keys == before.Keys
    requires forall c :: c in tree ==> before[c] >= 0
    requires forall i :: i in tree && i !in Live(tree, before) ==> after[i] == before[i]
    ensures SumOn(tree, after) == SumOn(Live(tree, before), after)
  {
    var live := Live(tree, before);
    var zero := On(tree - live, after);
    SumZero(zero);
    SumUnion(On(live, after), zero);
    assert On(tree, after) == On(live, after) + zero;
  }

  lemma SumHead(acts: seq<Hash>, rem: Remaining)
    requires acts != [] && NoDuplicates(acts) && forall i :: i in acts ==> i in rem
    ensures SumOn(Elements(acts), rem) == rem[acts[0]] + SumOn(Elements(acts[1..]), rem)
  {
    var m := On(Elements(acts), rem);
    assert acts == [acts[0]] + acts[1..];
    assert acts[0] in acts;
    SumRemove(m, acts[0]);
    assert m - {acts[0]} == On(Elements(acts[1..]), rem);
  }

  lemma SumAgree(s: set<Hash>, m: Remaining, n: Remaining)
    requires s <= m.Keys && s <= n.Keys && forall i :: i in s ==> m[i] == n[i]
    ensures SumOn(s, m) == SumOn(s, n)
  {
    assert On(s, m) == On(s, n);
  }

  /** What a served prefix leaves for the rest: the sums shrink alike and finished intents stay at zero. */
  ghost predicate ServedOne(acts: seq<Hash>, tree: set<Hash>, rem: Remaining, next: Remaining) {
    && acts != [] && next.Keys == rem.Keys && acts[0] in next && next[acts[0]] == 0
    && Ready(Live(tree, next), next) && Queued(acts[1..], Live(tree, next), next)
    && SumOn(Elements(acts[1..]), next) <= SumOn(Live(tree, next), next)
  }

  /** Serving the first active intent in full shrinks the sums of both sides by its amount. */
  lemma ServedSums(acts: seq<Hash>, tree: set<Hash>, rem: Remaining, next: Remaining)
    requires acts != [] && Queued(acts, tree, rem) && tree <= rem.Keys && next.Keys == rem.Keys
    requires SumOn(Elements(acts), rem) <= SumOn(tree, rem) && SumOn(tree, next) == SumOn(tree, rem) - rem[acts[0]]
    requires forall i :: i in rem && i != acts[0] && i !in tree ==> next[i] == rem[i]
    requires forall c :: c in tree ==> next[c] >= 0
    ensures SumOn(Elements(acts[1..]), next) <= SumOn(Live(tree, next), next)
  {
    SumLive(tree, next);
    SumHead(acts, rem);
    assert acts[0] !in Elements(acts[1..]);
    forall i | i in Elements(acts[1..]) ensures i in rem && next[i] == rem[i] {
      var k :| 0 <= k < |acts[1..]| && acts[1..][k] == i;
      assert acts[k + 1] == i;
    }
    SumAgree(Elements(acts[1..]), rem, next);
  }

  lemma BestFitServesOne(key: GroupKey, acts: seq<Hash>, tree: set<Hash>, rem: Remaining, activeIsLower: bool)
    requires acts != [] && Queued(acts, tree, rem) && Ready(tree, rem) && Covered(tree, rem, rem[acts[0]])
    requires SumOn(Elements(acts), rem) <= SumOn(tree, rem)
    ensures ServedOne(acts, tree, rem, Apply(rem, BestFitStep(key, acts[0], tree, rem, activeIsLower)))
  {
    var a := acts[0];
    var c := LowerBound(tree, rem, rem[a]);
    var next := Apply(rem, BestFitStep(key, a, tree, rem, activeIsLower));
    BestFitProgress(key, acts, tree, rem, activeIsLower);
    AllotEffect(key, a, c, rem[a], BestFit, activeIsLower, rem);
    AllotSum(key, a, c, rem[a], BestFit, activeIsLower, tree, rem);
    ServedSums(acts, tree, rem, next);
  }

  lemma SplitServesOne(key: GroupKey, acts: seq<Hash>, tree: set<Hash>, rem: Remaining, activeIsLower: bool)
    requires acts != [] && Queued(acts, tree, rem) && Ready(tree, rem)
    requires SumOn(Elements(acts), rem) <= SumOn(tree, rem)
    ensures !SplitOver(key, acts[0], tree, rem, activeIsLower).exhausted
    ensures ServedOne(acts, tree, rem, ApplyAll(rem, SplitOver(key, acts[0], tree, rem, activeIsLower).allocs))
  {
    var a := acts[0];
    SumHead(acts, rem);
    SumNonNegative(On(Elements(acts[1..]), rem));
    SplitServes(key, a, tree, rem, activeIsLower);
    SplitFrame(key, a, tree, rem, activeIsLower);
    SplitLeaves(key, acts, tree, rem, activeIsLower);
    ServedSums(acts, tree, rem, ApplyAll(rem, SplitOver(key, a, tree, rem, activeIsLower).allocs));
  }

  /** Intents that are neither active nor counter are untouched, and counter items are only reduced. */
  ghost predicate Framed(acts: seq<Hash>, tree: set<Hash>, rem: Remaining, next: Remaining) {
    && next.Keys == rem.Keys && tree <= rem.Keys
    && (forall i :: i in rem && i !in acts && i !in tree ==> next[i] == rem[i])
    && (forall c :: c in tree ==> next[c] <= rem[c])
  }

  lemma FramedCompose(
    acts: seq<Hash>, tree: set<Hash>, live: set<Hash>, rem: Remaining, next: Remaining, last: Remaining)
    requires acts != [] && live <= tree && (forall c :: c in tree ==> c !in acts)
    requires Framed(acts[..1], tree, rem, next) && Framed(acts[1..], live, next, last)
    ensures Framed(acts, tree, rem, last)
  {
    assert acts == acts[..1] + acts[1..];
  }

  lemma {:induction false} ServeFrame(
    key: GroupKey, acts: seq<Hash>, tree: set<Hash>, rem: Remaining, allowSplit: bool, activeIsLower: bool)
    requires Queued(acts, tree, rem) && Ready(tree, rem)
    ensures Framed(acts, tree, rem, ApplyAll(rem, Serve(key, acts, tree, rem, allowSplit, activeIsLower).allocs))
    decreases |acts|
  {
    if acts != [] {
      var a := acts[0];
      assert acts[..1] == [a];
      if Covered(tree, rem, rem[a]) {
        BestFitProgress(key, acts, tree, rem, activeIsLower);
        AllotEffect(key, a, LowerBound(tree, rem, rem[a]), rem[a], BestFit, activeIsLower, rem);
        var next := Apply(rem, BestFitStep(key, a, tree, rem, activeIsLower));
        var rest := Serve(key, acts[1..], Live(tree, next), next, allowSplit, activeIsLower);
        ServeFrame(key, acts[1..], Live(tree, next), next, allowSplit, activeIsLower);
        assert Serve(key, acts, tree, rem, allowSplit, activeIsLower).allocs[1..] == rest.allocs;
        FramedCompose(acts, tree, Live(tree, next), rem, next, ApplyAll(next, rest.allocs));
      } else if !allowSplit {
        ServeFrame(key, acts[1..], tree, rem, allowSplit, activeIsLower);
        FramedCompose(acts, tree, tree, rem, rem, ApplyAll(rem, Serve(key, acts[1..], tree, rem, allowSplit, activeIsLower).allocs));
      } else {
        ServeFrameSplit(key, acts, tree, rem, activeIsLower);
      }
    }
  }

  lemma {:induction false} ServeFrameSplit(
    key: GroupKey, acts: seq<Hash>, tree: set<Hash>, rem: Remaining, activeIsLower: bool)
    requires acts != [] && Queued(acts, tree, rem) && Ready(tree, rem) && !Covered(tree, rem, rem[acts[0]])
    ensures Framed(acts, tree, rem, ApplyAll(rem, Serve(key, acts, tree, rem, true, activeIsLower).allocs))
    decreases |acts|, 0
  {
    var a := acts[0];
    assert acts[..1] == [a];
    var split := SplitOver(key, a, tree, rem, activeIsLower);
    SplitFrame(key, a, tree, rem, activeIsLower);
    var next := ApplyAll(rem, split.allocs);
    if split.exhausted {
      assert Framed(acts, tree, rem, next);
    } else {
      SplitLeaves(key, acts, tree, rem, activeIsLower);
      var rest := Serve(key, acts[1..], Live(tree, next), next, true, activeIsLower);
      ServeFrame(key, acts[1..], Live(tree, next), next, true, activeIsLower);
      ApplyAllConcat(rem, split.allocs, rest.allocs);
      FramedCompose(acts, tree, Live(tree, next), rem, next, ApplyAll(next, rest.allocs));
    }
  }

  /** Without splitting the tree is never exhausted. */
  lemma {:induction false} BestFitNeverExhausts(
    key: GroupKey, acts: seq<Hash>, tree: set<Hash>, rem: Remaining, activeIsLower: bool)
    requires Queued(acts, tree, rem) && Ready(tree, rem)
    ensures !Serve(key, acts, tree, rem, false, activeIsLower).exhausted
    decreases |acts|
  {
    if acts != [] {
      if Covered(tree, rem, rem[acts[0]]) {
        BestFitProgress(key, acts, tree, rem, activeIsLower);
        var next := Apply(rem, BestFitStep(key, acts[0], tree, rem, activeIsLower));
        BestFitNeverExhausts(key, acts[1..], Live(tree, next), next, activeIsLower);
      } else {
        BestFitNeverExhausts(key, acts[1..], tree, rem, activeIsLower);
      }
    }
  }

  /** With splitting, a counter side at least as large as the active side serves every active intent in full. */
  lemma {:induction false} SplitServesAll(
    key: GroupKey, acts: seq<Hash>, tree: set<Hash>, rem: Remaining, activeIsLower: bool)
    requires Queued(acts, tree, rem) && Ready(tree, rem) && SumOn(Elements(acts), rem) <= SumOn(tree, rem)
    ensures var fill := Serve(key, acts, tree, rem, true, activeIsLower);
      var next := ApplyAll(rem, fill.allocs);
      !fill.exhausted && next.Keys == rem.Keys && forall i :: 0 <= i < |acts| ==> next[acts[i]] == 0
    decreases |acts|
  {
    if acts != [] {
      var a := acts[0];
      ServeFrame(key, acts, tree, rem, true, activeIsLower);
      if Covered(tree, rem, rem[a]) {
        BestFitServesOne(key, acts, tree, rem, activeIsLower);
        var next := Apply(rem, BestFitStep(key, a, tree, rem, activeIsLower));
        SplitServesRest(key, acts, tree, rem, next, activeIsLower);
        assert Serve(key, acts, tree, rem, true, activeIsLower).allocs[1..]
            == Serve(key, acts[1..], Live(tree, next), next, true, activeIsLower).allocs;
      } else {
        SplitServesOne(key, acts, tree, rem, activeIsLower);
        var split := SplitOver(key, a, tree, rem, activeIsLower);
        var next := ApplyAll(rem, split.allocs);
        SplitServesRest(key, acts, tree, rem, next, activeIsLower);
        ApplyAllConcat(rem, split.allocs, Serve(key, acts[1..], Live(tree, next), next, true, activeIsLower).allocs);
      }
    }
  }

  lemma {:induction false} SplitServesRest(
    key: GroupKey, acts: seq<Hash>, tree: set<Hash>, rem: Remaining, next: Remaining, activeIsLower: bool)
    requires acts != [] && Queued(acts, tree, rem) && Ready(tree, rem) && ServedOne(acts, tree, rem, next)
    ensures var fill := Serve(key, acts[1..], Live(tree, next), next, true, activeIsLower);
      var last := ApplyAll(next, fill.allocs);
      !fill.exhausted && last.Keys == rem.Keys && forall i :: 0 <= i < |acts| ==> last[acts[i]] == 0
    decreases |acts|, 0
  {
    var rest, live := acts[1..], Live(tree, next);
    SplitServesAll(key, rest, live, next, activeIsLower);
    ServeFrame(key, rest, live, next, true, activeIsLower);
    assert acts[0] !in rest && acts[0] !in live;
    var last := ApplyAll(next, Serve(key, rest, live, next, true, activeIsLower).allocs);
    forall i | 0 <= i < |acts| ensures last[acts[i]] == 0 {
      if i > 0 {
        assert acts[i] == rest[i - 1];
      }
    }
  }

  // ---- what best fit leaves over ----

  /** An active intent left over by best fit exceeds every residual counter item. */
  lemma {:induction false} BestFitResidual(
    key: GroupKey, acts: seq<Hash>, tree: set<Hash>, rem: Remaining, activeIsLower: bool)
    requires Queued(acts, tree, rem) && Ready(tree, rem)
    ensures var next := ApplyAll(rem, Serve(key, acts, tree, rem, false, activeIsLower).allocs);
      && next.Keys == rem.Keys
      && forall i, c :: 0 <= i < |acts| && next[acts[i]] > 0 && c in tree && next[c] > 0 ==> next[c] < next[acts[i]]
    decreases |acts|
  {
    if acts != [] {
      var a := acts[0];
      ServeFrame(key, acts, tree, rem, false, activeIsLower);
      var last := ApplyAll(rem, Serve(key, acts, tree, rem, false, activeIsLower).allocs);
      if Covered(tree, rem, rem[a]) {
        BestFitProgress(key, acts, tree, rem, activeIsLower);
        var next := Apply(rem, BestFitStep(key, a, tree, rem, activeIsLower));
        var live := Live(tree, next);
        BestFitResidual(key, acts[1..], live, next, activeIsLower);
        ServeFrame(key, acts[1..], live, next, false, activeIsLower);
        assert Serve(key, acts, tree, rem, false, activeIsLower).allocs[1..] == Serve(key, acts[1..], live, next, false, activeIsLower).allocs;
        ResidualCons(acts, tree, live, next, last);
      } else {
        BestFitResidual(key, acts[1..], tree, rem, activeIsLower);
        ServeFrame(key, acts[1..], tree, rem, false, activeIsLower);
        assert a !in acts[1..];
        forall i, c | 0 <= i < |acts| && last[acts[i]] > 0 && c in tree && last[c] > 0 ensures last[c] < last[acts[i]] {
          if i == 0 {
            assert rem[c] < rem[a];
          } else {
            assert acts[i] == acts[1..][i - 1];
          }
        }
      }
    }
  }

  lemma ResidualCons(acts: seq<Hash>, tree: set<Hash>, live: set<Hash>, next: Remaining, last: Remaining)
    requires acts != [] && tree <= next.Keys && last.Keys == next.Keys && live == Live(tree, next)
    requires forall i :: 0 <= i < |acts| ==> acts[i] in next
    requires next[acts[0]] == 0 && acts[0] !in acts[1..] && acts[0] !in live
    requires forall i :: i in next && i !in acts[1..] && i !in live ==> last[i] == next[i]
    requires forall i, c :: 0 <= i < |acts[1..]| && last[acts[1..][i]] > 0 && c in live && last[c] > 0 ==> last[c] < last[acts[1..][i]]
    requires forall c :: c in tree ==> c !in acts[1..]
    ensures forall i, c :: 0 <= i < |acts| && last[acts[i]] > 0 && c in tree && last[c] > 0 ==> last[c] < last[acts[i]]
  {
    forall i, c | 0 <= i < |acts| && last[acts[i]] > 0 && c in tree && last[c] > 0 ensures last[c] < last[acts[i]] {
      if i > 0 {
        assert acts[i] == acts[1..][i - 1];
      }
    }
  }

  // ---- the whole group ----

  const FULL := "full"
  const BEST_FIT := "best_fit"
  const EXACT_ONLY := "exact_only"

  /** Unknown and empty modes mean full. */
  function NormalizeMode(mode: string): string {
    if mode == BEST_FIT || mode == EXACT_ONLY then mode else FULL
  }

  ghost function GroupAllocs(
    key: GroupKey, lower: set<Hash>, higher: set<Hash>, rem: Remaining, mode: string): seq<Allocation>
    requires lower !! higher
  {
    var exact := ExactAllocs(key, lower, higher, rem);
    if mode == EXACT_ONLY then exact
    else exact + RemainingAllocs(key, lower, higher, ApplyAll(rem, exact), mode == FULL).allocs
  }

  /** Active intents in the queue are served in full; the others had nothing left. */
  lemma AllServed(active: set<Hash>, acts: seq<Hash>, tree: set<Hash>, rem: Remaining, next: Remaining)
    requires active <= rem.Keys && Elements(acts) == Positive(active, rem) && active !! tree && next.Keys == rem.Keys
    requires forall k :: 0 <= k < |acts| ==> acts[k] in next && next[acts[k]] == 0
    requires forall i :: i in rem && i !in acts && i !in tree ==> next[i] == rem[i]
    requires forall i :: i in active ==> rem[i] >= 0
    ensures forall i :: i in active ==> i in next && next[i] == 0
  {
    forall i | i in active ensures i in next && next[i] == 0 {
      if rem[i] > 0 {
        assert i in Elements(acts);
        var k :| 0 <= k < |acts| && acts[k] == i;
      } else {
        assert i !in Elements(acts);
      }
    }
  }

  /** No mode ever runs out of counter intents, so the matching-invariant errors are unreachable. */
  lemma NeverExhausted(key: GroupKey, lower: set<Hash>, higher: set<Hash>, rem: Remaining, allowSplit: bool)
    requires WellFormed(lower, higher, rem)
    ensures !RemainingAllocs(key, lower, higher, rem, allowSplit).exhausted
    ensures allowSplit ==>
      var next := ApplyAll(rem, RemainingAllocs(key, lower, higher, rem, allowSplit).allocs);
      forall i :: i in (if LowerIsActive(lower, higher, rem) then lower else higher) ==> i in next && next[i] == 0
  {
    var lowerActive := LowerIsActive(lower, higher, rem);
    var active := if lowerActive then lower else higher;
    var counter := if lowerActive then higher else lower;
    var acts, tree := ActiveOrder(active, rem), Positive(counter, rem);
    ActiveOrderQueued(active, counter, rem);
    if allowSplit {
      assert Elements(acts) == Positive(active, rem);
      assert Live(active, rem) == Positive(active, rem) && Live(counter, rem) == tree;
      SumLive(active, rem);
      SumLive(counter, rem);
      SplitServesAll(key, acts, tree, rem, lowerActive);
      ServeFrame(key, acts, tree, rem, true, lowerActive);
      var next := ApplyAll(rem, Serve(key, acts, tree, rem, true, lowerActive).allocs);
      AllServed(active, acts, tree, rem, next);
    } else {
      BestFitNeverExhausts(key, acts, tree, rem, lowerActive);
    }
  }

  /** In every mode the allocations of a group are legal, one after the other. */
  lemma GroupLegal(key: GroupKey, lower: set<Hash>, higher: set<Hash>, rem: Remaining, mode: string)
    requires lower !! higher
    ensures Legal(lower, higher, rem, GroupAllocs(key, lower, higher, rem, mode))
  {
    var exact := ExactAllocs(key, lower, higher, rem);
    ExactLegal(key, lower, higher, rem);
    if mode != EXACT_ONLY {
      var next := ApplyAll(rem, exact);
      RemainingLegal(key, lower, higher, next, mode == FULL);
      LegalConcat(lower, higher, rem, exact, RemainingAllocs(key, lower, higher, next, mode == FULL).allocs);
    }
  }

  /** Both directions are matched by the same total, no intent is overdrawn, in every mode. */
  lemma GroupConserves(key: GroupKey, lower: set<Hash>, higher: set<Hash>, rem: Remaining, mode: string)
    requires WellFormed(lower, higher, rem)
    ensures var last := ApplyAll(rem, GroupAllocs(key, lower, higher, rem, mode));
      && WellFormed(lower, higher, last) && (forall i :: i in rem ==> last[i] <= rem[i])
      && SumOn(lower, rem) - SumOn(lower, last) == SumOn(higher, rem) - SumOn(higher, last)
      && SumOn(lower, rem) - SumOn(lower, last) == Total(GroupAllocs(key, lower, higher, rem, mode))
  {
    GroupLegal(key, lower, higher, rem, mode);
    LegalKeeps(lower, higher, rem, GroupAllocs(key, lower, higher, rem, mode));
  }

  /** A group of n intents yields at most n - 1 allocations, in every mode. */
  lemma AllocationBound(key: GroupKey, lower: set<Hash>, higher: set<Hash>, rem: Remaining, mode: string)
    requires WellFormed(lower, higher, rem) && rem != map[]
    ensures |GroupAllocs(key, lower, higher, rem, mode)| <= |rem| - 1
  {
    GroupLegal(key, lower, higher, rem, mode);
    LegalCount(lower, higher, rem, GroupAllocs(key, lower, higher, rem, mode));
    SubsetSize(Positive(rem.Keys, rem), rem.Keys);
    assert |rem.Keys| == |rem|;
    assert rem.Keys != {};
  }

  lemma SumsNonNegative(lower: set<Hash>, higher: set<Hash>, rem: Remaining)
    requires WellFormed(lower, higher, rem)
    ensures SumOn(lower, rem) >= 0 && SumOn(higher, rem) >= 0
  {
    SumNonNegative(On(lower, rem));
    SumNonNegative(On(higher, rem));
  }

  /** No mode matches more than the smaller direction holds. */
  lemma TotalBounded(key: GroupKey, lower: set<Hash>, higher: set<Hash>, rem: Remaining, mode: string)
    requires WellFormed(lower, higher, rem)
    ensures Total(GroupAllocs(key, lower, higher, rem, mode)) <= Min(SumOn(lower, rem), SumOn(higher, rem))
  {
    GroupConserves(key, lower, higher, rem, mode);
    SumsNonNegative(lower, higher, ApplyAll(rem, GroupAllocs(key, lower, higher, rem, mode)));
  }

  /** Full mode is maximal: it matches exactly the smaller of the two directional totals. */
  lemma FullIsMaximal(key: GroupKey, lower: set<Hash>, higher: set<Hash>, rem: Remaining)
    requires WellFormed(lower, higher, rem)
    ensures Total(GroupAllocs(key, lower, higher, rem, FULL)) == Min(SumOn(lower, rem), SumOn(higher, rem))
  {
    var exact := ExactAllocs(key, lower, higher, rem);
    ExactLegal(key, lower, higher, rem);
    LegalKeeps(lower, higher, rem, exact);
    var mid := ApplyAll(rem, exact);
    var fill := RemainingAllocs(key, lower, higher, mid, true);
    NeverExhausted(key, lower, higher, mid, true);
    RemainingLegal(key, lower, higher, mid, true);
    LegalKeeps(lower, higher, mid, fill.allocs);
    TotalConcat(exact, fill.allocs);
    var last := ApplyAll(mid, fill.allocs);
    var active := if LowerIsActive(lower, higher, mid) then lower else higher;
    SumZero(On(active, last));
    TotalBounded(key, lower, higher, rem, FULL);
  }

  /** exact_only matches at most what best_fit matches, and best_fit at most what full matches. */
  lemma ModesOrdered(key: GroupKey, lower: set<Hash>, higher: set<Hash>, rem: Remaining)
    requires WellFormed(lower, higher, rem)
    ensures Total(GroupAllocs(key, lower, higher, rem, EXACT_ONLY)) <= Total(GroupAllocs(key, lower, higher, rem, BEST_FIT))
    ensures Total(GroupAllocs(key, lower, higher, rem, BEST_FIT)) <= Total(GroupAllocs(key, lower, higher, rem, FULL))
  {
    var exact := ExactAllocs(key, lower, higher, rem);
    var mid := ApplyAll(rem, exact);
    ExactLegal(key, lower, higher, rem);
    LegalKeeps(lower, higher, rem, exact);
    RemainingLegal(key, lower, higher, mid, false);
    LegalKeeps(lower, higher, mid, RemainingAllocs(key, lower, higher, mid, false).allocs);
    TotalConcat(exact, RemainingAllocs(key, lower, higher, mid, false).allocs);
    FullIsMaximal(key, lower, higher, rem);
    TotalBounded(key, lower, higher, rem, BEST_FIT);
  }

  /** After best_fit every active intent left unmatched exceeds every counter intent with something left. */
  lemma BestFitLeftovers(key: GroupKey, lower: set<Hash>, higher: set<Hash>, rem: Remaining, i: Hash, c: Hash)
    requires WellFormed(lower, higher, rem)
    requires var mid := ApplyAll(rem, ExactAllocs(key, lower, higher, rem));
      if LowerIsActive(lower, higher, mid) then i in lower && c in higher else i in higher && c in lower
    ensures var last := ApplyAll(rem, GroupAllocs(key, lower, higher, rem, BEST_FIT));
      i in last && c in last && (last[i] > 0 && last[c] > 0 ==> last[c] < last[i])
  {
    var exact := ExactAllocs(key, lower, higher, rem);
    ExactLegal(key, lower, higher, rem);
    LegalKeeps(lower, higher, rem, exact);
    GroupConserves(key, lower, higher, rem, BEST_FIT);
    var mid := ApplyAll(rem, exact);
    var lowerActive := LowerIsActive(lower, higher, mid);
    var active := if lowerActive then lower else higher;
    var counter := if lowerActive then higher else lower;
    var acts, tree := ActiveOrder(active, mid), Positive(counter, mid);
    ActiveOrderQueued(active, counter, mid);
    var fill := Serve(key, acts, tree, mid, false, lowerActive);
    ApplyAllConcat(rem, exact, fill.allocs);
    BestFitResidual(key, acts, tree, mid, lowerActive);
    ServeFrame(key, acts, tree, mid, false, lowerActive);
    var last := ApplyAll(mid, fill.allocs);
    if last[i] > 0 && last[c] > 0 {
      assert i in acts;
      var k :| 0 <= k < |acts| && acts[k] == i;
      assert c in tree;
    }
  }
}
