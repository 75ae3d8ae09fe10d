/** MatchWithMode: from a sequence of intents to results and allocations (pkg/netting/matcher/matcher.go). */
module MatcherRun {
  import opened Base
  import opened ByteStrings
  import opened Model
  import opened Sums
  import opened Sorting
  import opened Allocations
  import opened Matching
  import opened MatchingProofs
  import opened Matcher

  /** The two directions of a group as prepared, in input order. */
  datatype Draft = Draft(lower: seq<Hash>, higher: seq<Hash>)

  datatype Prepared = Prepared(book: Book, items: seq<Hash>, groups: map<GroupKey, Draft>, keys: seq<GroupKey>)

  ghost predicate DraftOf(d: Draft, book: Book, key: GroupKey) {
    && NoDuplicates(d.lower) && NoDuplicates(d.higher)
    && Elements(d.lower) == LowerIds(book, key) && Elements(d.higher) == HigherIds(book, key)
  }

  ghost predicate PreparedFor(p: Prepared, book: Book) {
    && p.book == book && NoDuplicates(p.items) && (forall i :: i in p.items <==> i in book)
    && NoDuplicates(p.keys) && (forall k :: k in p.keys <==> k in p.groups) && p.groups.Keys == Groups(book)
    && (forall k :: k in p.groups ==> DraftOf(p.groups[k], book, k))
  }

  function Enlist(p: Prepared, id: Hash, payment: PaymentIntent): Prepared {
    var key := GroupOf(payment);
    var draft := if key in p.groups then p.groups[key] else Draft([], []);
    var next := if LowerToHigher(payment) then Draft(draft.lower + [id], draft.higher) else Draft(draft.lower, draft.higher + [id]);
    Prepared(p.book[id := payment], p.items + [id], p.groups[key := next], if key in p.groups then p.keys else p.keys + [key])
  }

  lemma EnlistDraft(d: Draft, book: Book, id: Hash, payment: PaymentIntent)
    requires id !in book && DraftOf(d, book, GroupOf(payment))
    ensures DraftOf(if LowerToHigher(payment) then Draft(d.lower + [id], d.higher) else Draft(d.lower, d.higher + [id]),
                    book[id := payment], GroupOf(payment))
  {
    var key := GroupOf(payment);
    var next := book[id := payment];
    assert id !in Elements(d.lower) && id !in Elements(d.higher);
    if LowerToHigher(payment) {
      NoDuplicatesSnoc(d.lower, id);
      assert Elements(d.lower + [id]) == Elements(d.lower) + {id};
      assert LowerIds(next, key) == LowerIds(book, key) + {id};
      assert HigherIds(next, key) == HigherIds(book, key);
    } else {
      NoDuplicatesSnoc(d.higher, id);
      assert Elements(d.higher + [id]) == Elements(d.higher) + {id};
      assert HigherIds(next, key) == HigherIds(book, key) + {id};
      assert LowerIds(next, key) == LowerIds(book, key);
    }
  }

  lemma OtherDraft(d: Draft, book: Book, id: Hash, payment: PaymentIntent, key: GroupKey)
    requires id !in book && key != GroupOf(payment) && DraftOf(d, book, key)
    ensures DraftOf(d, book[id := payment], key)
  {
    assert LowerIds(book[id := payment], key) == LowerIds(book, key);
    assert HigherIds(book[id := payment], key) == HigherIds(book, key);
  }

  lemma EmptyDraft(book: Book, key: GroupKey)
    requires key !in Groups(book)
    ensures DraftOf(Draft([], []), book, key)
  {
    forall i | i in book ensures GroupOf(book[i]) != key {
      assert GroupOf(book[i]) in Groups(book);
    }
  }

  lemma EnlistKeys(p: Prepared, book: Book, id: Hash, payment: PaymentIntent)
    requires PreparedFor(p, book) && id !in book
    ensures var n := Enlist(p, id, payment);
      NoDuplicates(n.keys) && (forall k :: k in n.keys <==> k in n.groups) && n.groups.Keys == Groups(book[id := payment])
  {
    var key := GroupOf(payment);
    var next := book[id := payment];
    assert Groups(next) == Groups(book) + {key} by {
      forall k | k in Groups(next) ensures k in Groups(book) + {key} {
        var i :| i in next && GroupOf(next[i]) == k;
        if i != id {
          assert GroupOf(book[i]) == k;
        }
      }
      forall k | k in Groups(book) + {key} ensures k in Groups(next) {
        if k == key {
          assert GroupOf(next[id]) == k;
        } else {
          var i :| i in book && GroupOf(book[i]) == k;
          assert GroupOf(next[i]) == k;
        }
      }
    }
    if key !in p.groups {
      NoDuplicatesSnoc(p.keys, key);
    }
  }

  lemma EnlistKeeps(p: Prepared, book: Book, id: Hash, payment: PaymentIntent)
    requires PreparedFor(p, book) && id !in book
    ensures PreparedFor(Enlist(p, id, payment), book[id := payment])
  {
    var n := Enlist(p, id, payment);
    var key := GroupOf(payment);
    EnlistKeys(p, book, id, payment);
    NoDuplicatesSnoc(p.items, id);
    if key !in p.groups {
      EmptyDraft(book, key);
    }
    EnlistDraft(if key in p.groups then p.groups[key] else Draft([], []), book, id, payment);
    forall k | k in n.groups ensures DraftOf(n.groups[k], book[id := payment], k) {
      if k != key {
        OtherDraft(p.groups[k], book, id, payment, k);
      }
    }
  }

  /** Identifiers and shapes checked so far. */
  ghost predicate CheckedUpTo(h: Hasher, payments: seq<PaymentIntent>, n: nat)
    requires n <= |payments|
  {
    && (forall i :: 0 <= i < n ==> PaymentShape(payments[i], payments[0].chainId).Ok? && IntentId(h, payments[i]).Ok?)
    && Distinct(payments[..n], IdRank(h))
  }

  lemma CheckedNext(h: Hasher, payments: seq<PaymentIntent>, n: nat, book: Book)
    requires n < |payments| && CheckedUpTo(h, payments, n) && Lists(h, book, payments[..n])
    requires PaymentShape(payments[n], payments[0].chainId).Ok? && IntentId(h, payments[n]).Ok?
    ensures IntentId(h, payments[n]).value in book ==> !Distinct(payments, IdRank(h))
    ensures IntentId(h, payments[n]).value !in book ==>
      CheckedUpTo(h, payments, n + 1) && Lists(h, book[IntentId(h, payments[n]).value := payments[n]], payments[..n + 1])
  {
    var id := IntentId(h, payments[n]).value;
    var init := payments[..n];
    if id in book {
      assert book[id] in init;
      var k :| 0 <= k < n && init[k] == book[id];
      assert IdRank(h)(payments[k]) == IdRank(h)(payments[n]);
    } else {
      assert payments[..n + 1] == init + [payments[n]];
      NewDistinct(h, payments, n, book, id);
      ListsSnoc(h, book, init, payments[n]);
    }
  }

  lemma NewDistinct(h: Hasher, payments: seq<PaymentIntent>, n: nat, book: Book, id: Hash)
    requires n < |payments| && Lists(h, book, payments[..n]) && Distinct(payments[..n], IdRank(h))
    requires IntentId(h, payments[n]) == Ok(id) && id !in book
    ensures Distinct(payments[..n + 1], IdRank(h))
  {
    var init, next := payments[..n], payments[..n + 1];
    forall i, j | 0 <= i < j < |next| ensures IdRank(h)(next[i]) != IdRank(h)(next[j]) {
      assert next[i] == init[i];
      if j < n {
        assert IdRank(h)(init[i]) != IdRank(h)(init[j]);
      }
    }
  }

  /** The first n intents are checked and enlisted. */
  ghost predicate Enlisted(h: Hasher, payments: seq<PaymentIntent>, n: nat, p: Prepared) {
    n <= |payments| && CheckedUpTo(h, payments, n) && Lists(h, p.book, payments[..n]) && PreparedFor(p, p.book)
  }

  lemma EnlistNext(h: Hasher, payments: seq<PaymentIntent>, n: nat, p: Prepared)
    requires n < |payments| && Enlisted(h, payments, n, p)
    ensures PaymentShape(payments[n], payments[0].chainId).Err? || IntentId(h, payments[n]).Err? ==> !Acceptable(h, payments)
    ensures PaymentShape(payments[n], payments[0].chainId).Ok? && IntentId(h, payments[n]).Ok? ==>
      var id := IntentId(h, payments[n]).value;
      if id in p.book then !Acceptable(h, payments) else Enlisted(h, payments, n + 1, Enlist(p, id, payments[n]))
  {
    if PaymentShape(payments[n], payments[0].chainId).Ok? && IntentId(h, payments[n]).Ok? {
      var id := IntentId(h, payments[n]).value;
      CheckedNext(h, payments, n, p.book);
      if id !in p.book {
        EnlistKeeps(p, p.book, id, payments[n]);
      }
    }
  }

  lemma EnlistedAll(h: Hasher, payments: seq<PaymentIntent>, p: Prepared)
    requires Enlisted(h, payments, |payments|, p)
    ensures Acceptable(h, payments) && Lists(h, p.book, payments)
  {
    assert payments[..|payments|] == payments;
  }

  /** prepare: succeeds exactly on acceptable batches, grouping every intent by its unordered shard pair. */
  method Prepare(h: Hasher, payments: seq<PaymentIntent>) returns (r: Result<Prepared>)
    ensures r.Ok? <==> Acceptable(h, payments)
    ensures r.Ok? ==> Lists(h, r.value.book, payments) && PreparedFor(r.value, r.value.book)
  {
    var p := Prepared(map[], [], map[], []);
    for idx := 0 to |payments|
      invariant Enlisted(h, payments, idx, p)
    {
      var payment := payments[idx];
      EnlistNext(h, payments, idx, p);
      var shape := PaymentShape(payment, payments[0].chainId);
      if shape.Err? {
        return Err(InvalidIntent(shape.error));
      }
      var id := IntentId(h, payment);
      if id.Err? {
        return Err(InvalidIntent(id.error));
      }
      if id.value in p.book {
        return Err(DuplicateIntent);
      }
      p := Enlist(p, id.value, payment);
    }
    EnlistedAll(h, payments, p);
    r := Ok(p);
  }

  ghost predicate GroupBalanced(lower: seq<Hash>, higher: seq<Hash>, remaining: Remaining, matched: Remaining) {
    && SumOn(Elements(lower), matched) == SumOn(Elements(higher), matched)
    && (forall i :: i in matched && i in remaining ==> remaining[i] >= 0 && matched[i] >= 0)
  }

  /** validateGroup: equal directional totals, no negative amount, every intent conserved. */
  method ValidateGroup(g: Group) returns (ok: bool)
    requires g.Valid()
    ensures ok <==> GroupBalanced(g.lower, g.higher, g.remaining, g.matched)
  {
    var lowerMatched := SumMatched(g, g.lower);
    var higherMatched := SumMatched(g, g.higher);
    if lowerMatched != higherMatched {
      return false;
    }
    var all := g.lower + g.higher;
    for k := 0 to |all|
      invariant forall j :: 0 <= j < k ==> g.remaining[all[j]] >= 0 && g.matched[all[j]] >= 0
    {
      assert all[k] in all;
      if g.remaining[all[k]] < 0 || g.matched[all[k]] < 0 {
        return false;
      }
      if g.remaining[all[k]] + g.matched[all[k]] != g.amounts[all[k]] {
        return false;
      }
    }
    forall i | i in g.amounts ensures g.remaining[i] >= 0 && g.matched[i] >= 0 {
      assert i in all;
    }
    ok := true;
  }

  method SumMatched(g: Group, items: seq<Hash>) returns (total: int)
    requires g.Valid() && NoDuplicates(items) && forall i :: i in items ==> i in g.amounts
    ensures total == SumOn(Elements(items), g.matched)
  {
    total := 0;
    assert On(Elements([]), g.matched) == map[];
    for k := 0 to |items|
      invariant total == SumOn(Elements(items[..k]), g.matched)
    {
      var item := items[k];
      assert items[..k + 1] == items[..k] + [item];
      assert On(Elements(items[..k + 1]), g.matched) == On(Elements(items[..k]), g.matched)[item := g.matched[item]];
      SumUpdate(On(Elements(items[..k]), g.matched), item, g.matched[item]);
      total := total + g.matched[item];
    }
    assert items[..|items|] == items;
  }

  lemma {:induction false} SumDifference(s: set<Hash>, a: Remaining, b: Remaining, c: Remaining)
    requires s <= a.Keys && s <= b.Keys && s <= c.Keys && forall i :: i in s ==> a[i] == b[i] + c[i]
    ensures SumOn(s, a) == SumOn(s, b) + SumOn(s, c)
    decreases |s|
  {
    if s == {} {
      assert On(s, a) == map[] && On(s, b) == map[] && On(s, c) == map[];
    } else {
      var x :| x in s;
      SumDifference(s - {x}, a, b, c);
      SumRemove(On(s, a), x);
      SumRemove(On(s, b), x);
      SumRemove(On(s, c), x);
      assert On(s, a) - {x} == On(s - {x}, a);
      assert On(s, b) - {x} == On(s - {x}, b);
      assert On(s, c) - {x} == On(s - {x}, c);
    }
  }

  /** What a finished group holds passes validateGroup. */
  lemma FinishedGroupValid(book: Book, key: GroupKey, mode: string, last: Remaining, matched: Remaining)
    requires PositiveAmounts(book) && last == Final(book, key, mode)
    requires matched.Keys == Initial(book, key).Keys && last.Keys == matched.Keys
    requires forall i :: i in matched ==> last[i] + matched[i] == Initial(book, key)[i]
    ensures SumOn(LowerIds(book, key), matched) == SumOn(HigherIds(book, key), matched)
    ensures forall i :: i in matched ==> last[i] >= 0 && matched[i] >= 0
  {
    var lower, higher, rem := LowerIds(book, key), HigherIds(book, key), Initial(book, key);
    InitialWellFormed(book, key);
    GroupConserves(key, lower, higher, rem, mode);
    SumDifference(lower, rem, last, matched);
    SumDifference(higher, rem, last, matched);
  }

  /** The phases of one group in order. */
  method RunPhases(group: Group, mode: string) returns (allocations: seq<Allocation>, ok: bool)
    requires group.Valid() && WellFormed(Elements(group.lower), Elements(group.higher), group.remaining)
    modifies group
    ensures group.Valid() && ok
    ensures allocations == GroupAllocs(group.key, Elements(group.lower), Elements(group.higher), old(group.remaining), mode)
    ensures group.remaining == ApplyAll(old(group.remaining), allocations)
  {
    ghost var lower, higher, rem := Elements(group.lower), Elements(group.higher), group.remaining;
    ok := true;
    allocations := group.MatchExact();
    if mode != EXACT_ONLY {
      ExactLegal(group.key, lower, higher, rem);
      LegalKeeps(lower, higher, rem, allocations);
      NeverExhausted(group.key, lower, higher, group.remaining, mode == FULL);
      var rest := group.MatchRemaining(mode == FULL);
      if rest.Err? {
        ok := false;
        return;
      }
      ApplyAllConcat(rem, allocations, rest.value);
      allocations := allocations + rest.value;
    }
  }

  /** One group of MatchWithMode's loop: its allocations and the matched amounts of its intents. */
  method MatchGroup(
    book: Book, key: GroupKey, draft: Draft, mode: string) returns (r: Result<(seq<Allocation>, Remaining)>)
    requires PositiveAmounts(book) && DraftOf(draft, book, key)
    ensures r.Ok? && r.value.0 == AllocsOf(book, key, mode)
    ensures r.value.1.Keys == Initial(book, key).Keys && Final(book, key, mode).Keys == Initial(book, key).Keys
    ensures forall i :: i in r.value.1 ==> r.value.1[i] == book[i].amount - Final(book, key, mode)[i]
  {
    var amounts := map i | i in draft.lower + draft.higher :: assert i in Elements(draft.lower) + Elements(draft.higher); book[i].amount;
    assert forall i :: i in draft.lower + draft.higher <==> i in Elements(draft.lower) + Elements(draft.higher);
    assert LowerIds(book, key) + HigherIds(book, key) == Initial(book, key).Keys;
    assert amounts == Initial(book, key);
    InitialWellFormed(book, key);
    var group := new Group(key, draft.lower, draft.higher, amounts);
    var allocations, matchedOk := RunPhases(group, mode);
    if !matchedOk {
      return Err(MatchingInvariant);
    }
    FinishedGroupValid(book, key, mode, group.remaining, group.matched);
    var ok := ValidateGroup(group);
    if !ok {
      return Err(MatchingInvariant);
    }
    r := Ok((allocations, group.matched));
  }

  /** The matched amounts gathered from the finished groups. */
  ghost predicate Gathered(matched: Remaining, book: Book, keys: seq<GroupKey>, mode: string) {
    forall i :: i in book && GroupOf(book[i]) in keys ==>
      i in matched && i in Final(book, GroupOf(book[i]), mode) && matched[i] == book[i].amount - Final(book, GroupOf(book[i]), mode)[i]
  }

  lemma GatherOne(matched: Remaining, book: Book, keys: seq<GroupKey>, key: GroupKey, mode: string, more: Remaining)
    requires Gathered(matched, book, keys, mode) && key !in keys
    requires more.Keys == Initial(book, key).Keys && Final(book, key, mode).Keys == more.Keys
    requires forall i :: i in more ==> more[i] == book[i].amount - Final(book, key, mode)[i]
    ensures Gathered(matched + more, book, keys + [key], mode)
  {
    forall i | i in book && GroupOf(book[i]) in keys + [key]
      ensures i in matched + more && i in Final(book, GroupOf(book[i]), mode) &&
        (matched + more)[i] == book[i].amount - Final(book, GroupOf(book[i]), mode)[i]
    {
      if GroupOf(book[i]) == key {
        assert i in more;
      } else {
        assert i !in more;
      }
    }
  }

  lemma GatherNext(matched: Remaining, book: Book, keys: seq<GroupKey>, k: nat, mode: string, more: Remaining)
    requires k < |keys| && NoDuplicates(keys) && Gathered(matched, book, keys[..k], mode)
    requires more.Keys == Initial(book, keys[k]).Keys && Final(book, keys[k], mode).Keys == more.Keys
    requires forall i :: i in more ==> more[i] == book[i].amount - Final(book, keys[k], mode)[i]
    ensures Gathered(matched + more, book, keys[..k + 1], mode)
  {
    assert keys[k] !in keys[..k];
    GatherOne(matched, book, keys[..k], keys[k], mode, more);
    assert keys[..k + 1] == keys[..k] + [keys[k]];
  }

  ghost predicate DraftsFor(groups: map<GroupKey, Draft>, keys: seq<GroupKey>, book: Book) {
    forall k :: 0 <= k < |keys| ==> keys[k] in groups && DraftOf(groups[keys[k]], book, keys[k])
  }

  lemma AllocsOverSnoc(book: Book, keys: seq<GroupKey>, k: nat, mode: string)
    requires k < |keys|
    ensures AllocsOver(book, keys[..k + 1], mode) == AllocsOver(book, keys[..k], mode) + AllocsOf(book, keys[k], mode)
    ensures keys[..k + 1] == keys[..k] + [keys[k]]
  {
    assert keys[..k + 1][..k] == keys[..k];
  }

  method MatchGroups(book: Book, groups: map<GroupKey, Draft>, keys: seq<GroupKey>, mode: string)
    returns (allocations: seq<Allocation>, matched: Remaining, ok: bool)
    requires PositiveAmounts(book) && NoDuplicates(keys) && DraftsFor(groups, keys, book)
    ensures ok && allocations == AllocsOver(book, keys, mode) && Gathered(matched, book, keys, mode)
  {
    allocations, matched, ok := [], map[], true;
    for k := 0 to |keys|
      invariant ok && allocations == AllocsOver(book, keys[..k], mode) && Gathered(matched, book, keys[..k], mode)
    {
      var one := MatchGroup(book, keys[k], groups[keys[k]], mode);
      if one.Err? {
        ok := false;
        return;
      }
      GatherNext(matched, book, keys, k, mode, one.value.1);
      AllocsOverSnoc(book, keys, k, mode);
      allocations := allocations + one.value.0;
      matched := matched + one.value.1;
    }
    assert keys[..|keys|] == keys;
  }

  ghost predicate YieldsOne(book: Book, matched: Remaining, id: Hash, result: IntentResult) {
    && id in book && id in matched && 0 <= matched[id] <= book[id].amount && book[id].amount > 0
    && result == IntentResult(book[id], id, matched[id], book[id].amount - matched[id])
  }

  /** Every matched amount lies within its intent and yields the expected result. */
  ghost predicate Yields(book: Book, matched: Remaining, ids: seq<Hash>, goal: seq<IntentResult>) {
    |ids| == |goal| && forall k :: 0 <= k < |ids| ==> YieldsOne(book, matched, ids[k], goal[k])
  }

  /** buildResults: results in identifier order. */
  method BuildResults(
    h: Hasher, book: Book, items: seq<Hash>, matched: Remaining, ghost goal: seq<IntentResult>)
    returns (r: Result<seq<IntentResult>>)
    requires NoDuplicates(items) && (forall i :: i in items <==> i in book) && Yields(book, matched, Ids(book), goal)
    requires forall i :: i in book ==> IntentId(h, book[i]) == Ok(i)
    ensures r.Ok? && r.value == goal
  {
    SortsToOrdered(items, book.Keys, ById());
    r := ResultsInOrder(h, book, SortBy(items, ById()), matched, goal);
  }

  method ResultsInOrder(
    h: Hasher, book: Book, ids: seq<Hash>, matched: Remaining, ghost goal: seq<IntentResult>)
    returns (r: Result<seq<IntentResult>>)
    requires Yields(book, matched, ids, goal) && forall i :: i in book ==> IntentId(h, book[i]) == Ok(i)
    ensures r.Ok? && r.value == goal
  {
    var results: seq<IntentResult> := [];
    for k := 0 to |ids|
      invariant |results| == k && forall j :: 0 <= j < k ==> results[j] == goal[j]
    {
      assert YieldsOne(book, matched, ids[k], goal[k]);
      NewIntentResultOk(h, book[ids[k]], ids[k], matched[ids[k]]);
      var one := NewIntentResult(h, book[ids[k]], matched[ids[k]]);
      if one.Err? {
        return Err(InvalidMatchedAmount);
      }
      results := results + [one.value];
    }
    r := Ok(results);
  }

  lemma MatchedInRange(book: Book, mode: string, i: Hash)
    requires PositiveAmounts(book) && i in book
    ensures i in Final(book, GroupOf(book[i]), mode) && 0 <= Final(book, GroupOf(book[i]), mode)[i] <= book[i].amount
  {
    var key := GroupOf(book[i]);
    InitialWellFormed(book, key);
    GroupConserves(key, LowerIds(book, key), HigherIds(book, key), Initial(book, key), mode);
    assert i in Initial(book, key);
  }

  lemma ListsIsBook(h: Hasher, book: Book, payments: seq<PaymentIntent>)
    requires Acceptable(h, payments) && Lists(h, book, payments)
    ensures book == BookOf(h, payments) && PositiveAmounts(book)
  {
    BookContains(h, payments);
    ListsUnique(h, book, BookOf(h, payments), payments);
    forall i | i in book ensures book[i].amount > 0 {
      AcceptedAmount(h, payments, book[i]);
    }
  }

  lemma ListsUnique(h: Hasher, a: Book, b: Book, payments: seq<PaymentIntent>)
    requires Lists(h, a, payments) && Lists(h, b, payments)
    ensures a == b
  {
    ListsSubset(h, a, b, payments, payments);
    ListsSubset(h, b, a, payments, payments);
  }

  lemma AcceptedAmount(h: Hasher, payments: seq<PaymentIntent>, p: PaymentIntent)
    requires Acceptable(h, payments) && p in payments
    ensures p.amount > 0
  {
    var k :| 0 <= k < |payments| && payments[k] == p;
  }

  lemma GatheredOne(matched: Remaining, book: Book, mode: string, i: Hash)
    requires PositiveAmounts(book) && i in book && i in matched
    requires i in Final(book, GroupOf(book[i]), mode)
    requires matched[i] == book[i].amount - Final(book, GroupOf(book[i]), mode)[i]
    ensures 0 <= matched[i] <= book[i].amount
    ensures ResultOf(book, mode, i) == IntentResult(book[i], i, matched[i], book[i].amount - matched[i])
  {
    var left := Final(book, GroupOf(book[i]), mode)[i];
    MatchedInRange(book, mode, i);
    ResultOfLeft(book, mode, i, left);
  }

  lemma ResultOfLeft(book: Book, mode: string, i: Hash, left: int)
    requires i in book && i in Final(book, GroupOf(book[i]), mode) && left == Final(book, GroupOf(book[i]), mode)[i]
    ensures ResultOf(book, mode, i) == IntentResult(book[i], i, book[i].amount - left, left)
  {
  }

  lemma GatheredAll(matched: Remaining, book: Book, keys: seq<GroupKey>, mode: string)
    requires PositiveAmounts(book) && Gathered(matched, book, keys, mode)
    requires (forall k :: k in keys <==> k in Groups(book))
    ensures Yields(book, matched, Ids(book), ResultsOf(book, mode))
  {
    var ids := Ids(book);
    forall k | 0 <= k < |ids| ensures YieldsOne(book, matched, ids[k], ResultsOf(book, mode)[k]) {
      assert ids[k] in ids;
      assert GroupOf(book[ids[k]]) in Groups(book);
      GatheredOne(matched, book, mode, ids[k]);
    }
  }

  /** MatchWithMode: fails exactly on unacceptable batches and otherwise returns the netting of their set of intents. */
  method MatchWithMode(h: Hasher, payments: seq<PaymentIntent>, requested: string) returns (r: Result<Output>)
    ensures (if r.Ok? then Some(r.value) else None) == Outcome(h, payments, requested)
  {
    var mode := NormalizeMode(requested);
    var prepared := Prepare(h, payments);
    if prepared.Err? {
      return Err(prepared.error);
    }
    var p := prepared.value;
    ListsIsBook(h, p.book, payments);
    KeyRankInjective(Groups(p.book));
    SortsToOrdered(p.keys, Groups(p.book), KeyRank());
    var keys := SortBy(p.keys, KeyRank());
    forall k | 0 <= k < |keys| ensures keys[k] in p.groups {
      assert keys[k] in keys;
    }
    var allocations, matched, ok := MatchGroups(p.book, p.groups, keys, mode);
    if !ok {
      return Err(MatchingInvariant);
    }
    GatheredAll(matched, p.book, keys, mode);
    var results := BuildResults(h, p.book, p.items, matched, ResultsOf(p.book, mode));
    if results.Err? {
      return Err(InvalidMatchedAmount);
    }
    r := Ok(Output(results.value, allocations));
  }
}
