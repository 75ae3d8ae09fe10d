/** Packages of the Builder always execute: the per-counterparty check holds of them and no later branch can fail. */
module BuilderExecutes {
  import opened Base
  import opened ByteStrings
  import opened Sums
  import opened Model
  import opened Packages
  import opened Sorting
  import opened Allocations
  import opened Matching
  import opened MatchingProofs
  import opened Matcher
  import opened MatcherRun
  import opened Builder
  import opened BuilderProofs
  import opened Settlements
  import opened SettlementProofs

  // ---- the two directions between a pair of shards are matched equally ----

  ghost predicate Goes(r: IntentResult, s: Int64, c: Int64, a: Hash) {
    r.intent.sourceShard == s && r.intent.destinationShard == c && r.intent.assetId == a
  }

  /** What is matched from shard s to shard c in asset a. */
  ghost function Directed(rs: seq<IntentResult>, s: Int64, c: Int64, a: Hash): int {
    if rs == [] then 0 else
      var last := rs[|rs| - 1];
      Directed(rs[..|rs| - 1], s, c, a) + if Goes(last, s, c, a) then last.matched else 0
  }

  /** The same amounts by identifier. */
  ghost function DirectedMap(rs: seq<IntentResult>, s: Int64, c: Int64, a: Hash): map<Hash, int> {
    if rs == [] then map[] else
      var last, front := rs[|rs| - 1], DirectedMap(rs[..|rs| - 1], s, c, a);
      if Goes(last, s, c, a) then front[last.intentId := last.matched] else front
  }

  lemma {:induction false} DirectedMapKeys(rs: seq<IntentResult>, s: Int64, c: Int64, a: Hash, id: Hash)
    requires id in DirectedMap(rs, s, c, a)
    ensures exists r :: r in rs && r.intentId == id && Goes(r, s, c, a) && DirectedMap(rs, s, c, a)[id] == r.matched
    decreases |rs|
  {
    var n := |rs| - 1;
    if Goes(rs[n], s, c, a) && rs[n].intentId == id {
      assert rs[n] in rs;
    } else {
      DirectedMapKeys(rs[..n], s, c, a, id);
      var r :| r in rs[..n] && r.intentId == id && Goes(r, s, c, a) && DirectedMap(rs[..n], s, c, a)[id] == r.matched;
      assert r in rs;
    }
  }

  lemma {:induction false} DirectedMapAt(rs: seq<IntentResult>, s: Int64, c: Int64, a: Hash, k: nat)
    requires Distinct(rs, ByIntent()) && k < |rs| && Goes(rs[k], s, c, a)
    ensures rs[k].intentId in DirectedMap(rs, s, c, a) && DirectedMap(rs, s, c, a)[rs[k].intentId] == rs[k].matched
    decreases |rs|
  {
    var n := |rs| - 1;
    if k < n {
      assert Distinct(rs[..n], ByIntent());
      DirectedMapAt(rs[..n], s, c, a, k);
      assert ByIntent()(rs[k]) != ByIntent()(rs[n]);
    }
  }

  lemma {:induction false} DirectedIsSum(rs: seq<IntentResult>, s: Int64, c: Int64, a: Hash)
    requires Distinct(rs, ByIntent())
    ensures Directed(rs, s, c, a) == Sum(DirectedMap(rs, s, c, a))
    decreases |rs|
  {
    if rs != [] {
      var n := |rs| - 1;
      var front, last := rs[..n], rs[n];
      assert Distinct(front, ByIntent());
      DirectedIsSum(front, s, c, a);
      if Goes(last, s, c, a) {
        if last.intentId in DirectedMap(front, s, c, a) {
          DirectedMapKeys(front, s, c, a, last.intentId);
        }
        SumUpdate(DirectedMap(front, s, c, a), last.intentId, last.matched);
      }
    }
  }

  /** The group of a pair of shards. */
  function PairKey(s: Int64, c: Int64, a: Hash): GroupKey {
    if s > c then GroupKey(c, s, a) else GroupKey(s, c, a)
  }

  ghost function SideIds(book: Book, s: Int64, c: Int64, a: Hash): set<Hash> {
    if s <= c then LowerIds(book, PairKey(s, c, a)) else HigherIds(book, PairKey(s, c, a))
  }

  /** The results list the intents of the book with the amounts matched of them. */
  ghost predicate Nets(book: Book, matched: Remaining, rs: seq<IntentResult>) {
    && matched.Keys == book.Keys && Distinct(rs, ByIntent())
    && (forall k :: 0 <= k < |rs| ==> NetsOne(book, matched, rs[k])) && (forall id :: id in book ==> About(rs, id))
  }

  ghost predicate NetsOne(book: Book, matched: Remaining, r: IntentResult)
    requires matched.Keys == book.Keys
  {
    r.intentId in book && r.intent == book[r.intentId] && r.matched == matched[r.intentId]
  }

  /** Some result is about the intent. */
  ghost predicate About(rs: seq<IntentResult>, id: Hash) {
    exists k :: 0 <= k < |rs| && rs[k].intentId == id
  }

  lemma SideIs(book: Book, s: Int64, c: Int64, a: Hash, id: Hash)
    requires id in book && s != c
    ensures id in SideIds(book, s, c, a) <==> book[id].sourceShard == s && book[id].destinationShard == c && book[id].assetId == a
  {
  }

  lemma DirectedInSide(book: Book, matched: Remaining, rs: seq<IntentResult>, s: Int64, c: Int64, a: Hash, id: Hash)
    requires Nets(book, matched, rs) && s != c && id in DirectedMap(rs, s, c, a)
    ensures id in book && id in SideIds(book, s, c, a) && DirectedMap(rs, s, c, a)[id] == matched[id]
  {
    DirectedMapKeys(rs, s, c, a, id);
    var r :| r in rs && r.intentId == id && Goes(r, s, c, a) && DirectedMap(rs, s, c, a)[id] == r.matched;
    var k :| 0 <= k < |rs| && rs[k] == r;
    SideIs(book, s, c, a, id);
  }

  lemma SideInDirected(book: Book, matched: Remaining, rs: seq<IntentResult>, s: Int64, c: Int64, a: Hash, id: Hash)
    requires Nets(book, matched, rs) && s != c && id in book && id in SideIds(book, s, c, a)
    ensures id in DirectedMap(rs, s, c, a)
  {
    SideIs(book, s, c, a, id);
    assert About(rs, id);
    var k :| 0 <= k < |rs| && rs[k].intentId == id;
    DirectedMapAt(rs, s, c, a, k);
  }

  lemma DirectedIsSide(book: Book, matched: Remaining, rs: seq<IntentResult>, s: Int64, c: Int64, a: Hash)
    requires Nets(book, matched, rs) && s != c
    ensures Directed(rs, s, c, a) == SumOn(SideIds(book, s, c, a), matched)
  {
    var side := On(SideIds(book, s, c, a), matched);
    forall id | id in DirectedMap(rs, s, c, a) ensures id in side && side[id] == DirectedMap(rs, s, c, a)[id] {
      DirectedInSide(book, matched, rs, s, c, a, id);
    }
    forall id | id in side ensures id in DirectedMap(rs, s, c, a) {
      SideInDirected(book, matched, rs, s, c, a, id);
    }
    assert DirectedMap(rs, s, c, a) == side;
    DirectedIsSum(rs, s, c, a);
  }

  /** The amounts the matcher matched of every intent. */
  ghost function MatchedOf(book: Book, mode: string): Remaining {
    map i | i in book :: ResultOf(book, mode, i).matched
  }

  lemma ResultsNet(h: Hasher, intents: seq<PaymentIntent>, mode: string)
    requires Outcome(h, intents, mode).Some?
    ensures Nets(BookOf(h, intents), MatchedOf(BookOf(h, intents), NormalizeMode(mode)), Outcome(h, intents, mode).value.results)
  {
    ResultsOrdered(h, intents, mode);
    var book, m := BookOf(h, intents), NormalizeMode(mode);
    BookNets(book, m, MatchedOf(book, m), ResultsOf(book, m));
  }

  lemma BookNets(book: Book, mode: string, matched: Remaining, rs: seq<IntentResult>)
    requires matched == MatchedOf(book, mode) && rs == ResultsOf(book, mode) && Distinct(rs, ByIntent())
    ensures Nets(book, matched, rs)
  {
    EachNets(book, mode, matched, rs);
    EachAbout(book, mode, rs);
    AllNet(book, matched, rs);
  }

  lemma EachNets(book: Book, mode: string, matched: Remaining, rs: seq<IntentResult>)
    requires matched == MatchedOf(book, mode) && rs == ResultsOf(book, mode)
    ensures matched.Keys == book.Keys && forall k :: 0 <= k < |rs| ==> NetsOne(book, matched, rs[k])
  {
    forall k | 0 <= k < |rs| ensures NetsOne(book, matched, rs[k]) {
      ResultNets(book, mode, matched, rs, k);
    }
  }

  lemma EachAbout(book: Book, mode: string, rs: seq<IntentResult>)
    requires rs == ResultsOf(book, mode)
    ensures forall id :: id in book ==> About(rs, id)
  {
    forall id | id in book ensures About(rs, id) {
      ResultAbout(book, mode, rs, id);
    }
  }

  lemma AllNet(book: Book, matched: Remaining, rs: seq<IntentResult>)
    requires matched.Keys == book.Keys && Distinct(rs, ByIntent())
    requires (forall k :: 0 <= k < |rs| ==> NetsOne(book, matched, rs[k])) && forall id :: id in book ==> About(rs, id)
    ensures Nets(book, matched, rs)
  {
  }

  lemma ResultNets(book: Book, mode: string, matched: Remaining, rs: seq<IntentResult>, k: nat)
    requires matched == MatchedOf(book, mode) && rs == ResultsOf(book, mode) && k < |rs|
    ensures NetsOne(book, matched, rs[k])
  {
    ResultIdAt(book, mode, k);
  }

  lemma ResultAbout(book: Book, mode: string, rs: seq<IntentResult>, id: Hash)
    requires rs == ResultsOf(book, mode) && id in book
    ensures About(rs, id)
  {
    var k := PositionOf(book, id);
    ResultIdAt(book, mode, k);
  }

  lemma SameSumOn(s: set<Hash>, x: Remaining, y: Remaining)
    requires forall i :: i in s ==> i in x && i in y && x[i] == y[i]
    ensures SumOn(s, x) == SumOn(s, y)
  {
    assert On(s, x) == On(s, y);
  }

  /** A pair's two sides are matched by the same total. */
  lemma SidesEqual(book: Book, s: Int64, c: Int64, a: Hash, mode: string)
    requires PositiveAmounts(book) && s != c
    ensures SumOn(SideIds(book, s, c, a), MatchedOf(book, mode)) == SumOn(SideIds(book, c, s, a), MatchedOf(book, mode))
  {
    var key, all := PairKey(s, c, a), MatchedOf(book, mode);
    var last := Final(book, key, mode);
    InitialWellFormed(book, key);
    GroupConserves(key, LowerIds(book, key), HigherIds(book, key), Initial(book, key), mode);
    var matched := map i | i in Initial(book, key) :: Initial(book, key)[i] - last[i];
    forall i | i in matched ensures i in all && all[i] == matched[i] {
      ResultOfLeft(book, mode, i, last[i]);
    }
    FinishedGroupValid(book, key, mode, last, matched);
    SameSumOn(LowerIds(book, key), all, matched);
    SameSumOn(HigherIds(book, key), all, matched);
    assert PairKey(c, s, a) == key;
  }

  /** Conservation between every pair of shards: as much is matched one way as the other. */
  lemma DirectionsEqual(h: Hasher, intents: seq<PaymentIntent>, mode: string, s: Int64, c: Int64, a: Hash)
    requires Outcome(h, intents, mode).Some?
    ensures var rs := Outcome(h, intents, mode).value.results; Directed(rs, s, c, a) == Directed(rs, c, s, a)
  {
    var book, rs := BookOf(h, intents), Outcome(h, intents, mode).value.results;
    var matched := MatchedOf(book, NormalizeMode(mode));
    if s != c {
      BookFacts(h, intents);
      ResultsNet(h, intents, mode);
      DirectedIsSide(book, matched, rs, s, c, a);
      DirectedIsSide(book, matched, rs, c, s, a);
      SidesEqual(book, s, c, a, NormalizeMode(mode));
    }
  }

  // ---- a settlement's lists keep the order of the results ----

  ghost predicate Ascending(rs: seq<IntentResult>) {
    forall i, j :: 0 <= i < j < |rs| ==> rs[i].intentId < rs[j].intentId
  }

  lemma AscendingSort(rs: seq<IntentResult>)
    requires Ascending(rs)
    ensures SortBy(rs, ByIntent()) == rs
  {
    forall i, j | 0 <= i < j < |rs| ensures ByIntent()(rs[i]) < ByIntent()(rs[j]) {
    }
    SortByProperties(rs, ByIntent());
    SortedUnique(rs, SortBy(rs, ByIntent()), ByIntent());
  }

  lemma AscendingSnoc(rs: seq<IntentResult>, r: IntentResult)
    requires Ascending(rs) && forall x :: x in rs ==> x.intentId < r.intentId
    ensures Ascending(rs + [r])
  {
    forall i, j | 0 <= i < j < |rs + [r]| ensures (rs + [r])[i].intentId < (rs + [r])[j].intentId {
      assert rs[i] in rs;
    }
  }

  lemma {:induction false} ListsAscend(rs: seq<IntentResult>, s: Int64)
    requires Ascending(rs)
    ensures Ascending(OutgoingOf(rs, s)) && Ascending(IncomingOf(rs, s))
    decreases |rs|
  {
    if rs != [] {
      var n := |rs| - 1;
      var front, last := rs[..n], rs[n];
      ListsAscend(front, s);
      forall x | x in OutgoingOf(front, s) ensures x.intentId < last.intentId {
        OutgoingMembers(front, s, x);
        var i :| 0 <= i < n && front[i] == x;
        assert rs[i].intentId < rs[n].intentId;
      }
      forall x | x in IncomingOf(front, s) ensures x.intentId < last.intentId {
        IncomingMembers(front, s, x);
        var i :| 0 <= i < n && front[i] == x;
        assert rs[i].intentId < rs[n].intentId;
      }
      AscendingSnoc(OutgoingOf(front, s), last);
      AscendingSnoc(IncomingOf(front, s), last);
    }
  }

  lemma DirectedSnoc(rs: seq<IntentResult>, r: IntentResult, s: Int64, c: Int64, a: Hash)
    ensures Directed(rs + [r], s, c, a) == Directed(rs, s, c, a) + if Goes(r, s, c, a) then r.matched else 0
  {
    assert (rs + [r])[..|rs|] == rs;
  }

  /** Restricting to a shard's outgoing results loses nothing of what it sends. */
  lemma {:induction false} DirectedOutgoing(rs: seq<IntentResult>, s: Int64, c: Int64, a: Hash)
    ensures Directed(OutgoingOf(rs, s), s, c, a) == Directed(rs, s, c, a)
    decreases |rs|
  {
    if rs != [] {
      var n := |rs| - 1;
      DirectedOutgoing(rs[..n], s, c, a);
      if rs[n].intent.sourceShard == s {
        DirectedSnoc(OutgoingOf(rs[..n], s), rs[n], s, c, a);
      } else {
        assert OutgoingOf(rs, s) == OutgoingOf(rs[..n], s);
      }
    }
  }

  /** Restricting to a shard's matched incoming results loses nothing of what it receives. */
  lemma {:induction false} DirectedIncoming(rs: seq<IntentResult>, s: Int64, c: Int64, a: Hash)
    requires forall i :: 0 <= i < |rs| ==> rs[i].matched >= 0
    ensures Directed(IncomingOf(rs, s), c, s, a) == Directed(rs, c, s, a)
    decreases |rs|
  {
    if rs != [] {
      var n := |rs| - 1;
      DirectedIncoming(rs[..n], s, c, a);
      assert rs == rs[..n] + [rs[n]] && rs[n].matched >= 0;
      DirectedIncomingSnoc(rs[..n], rs[n], s, c, a);
    }
  }

  lemma DirectedIncomingSnoc(rs: seq<IntentResult>, r: IntentResult, s: Int64, c: Int64, a: Hash)
    requires r.matched >= 0 && Directed(IncomingOf(rs, s), c, s, a) == Directed(rs, c, s, a)
    ensures Directed(IncomingOf(rs + [r], s), c, s, a) == Directed(rs + [r], c, s, a)
  {
    SidesNext(rs, r, s);
    DirectedSnoc(rs, r, c, s, a);
    if r.intent.destinationShard == s && r.matched > 0 {
      DirectedSnoc(IncomingOf(rs, s), r, c, s, a);
    }
  }

  // ---- the balance sheets of the executor ----

  ghost function Entry(sheet: Sheet, key: BalanceKey): int {
    if key in sheet then sheet[key] else 0
  }

  /** Entries are positive. */
  ghost predicate PositiveSheet(sheet: Sheet) {
    forall k :: k in sheet ==> sheet[k] > 0
  }

  lemma AddAmountEntry(sheet: Sheet, key: BalanceKey, amount: int, k: BalanceKey)
    requires amount >= 0 && PositiveSheet(sheet)
    ensures PositiveSheet(AddAmount(sheet, key, amount))
    ensures Entry(AddAmount(sheet, key, amount), k) == Entry(sheet, k) + if k == key then amount else 0
  {
  }

  lemma SheetsEqual(left: Sheet, right: Sheet)
    requires PositiveSheet(left) && PositiveSheet(right) && forall k :: Entry(left, k) == Entry(right, k)
    ensures EqualSheets(left, right)
  {
    forall k | k in left ensures k in right && left[k] == right[k] {
      assert Entry(left, k) == Entry(right, k);
    }
    forall k | k in right ensures k in left && right[k] == left[k] {
      assert Entry(left, k) == Entry(right, k);
    }
  }

  ghost function IdsOf(rs: seq<IntentResult>): set<Hash> {
    set r | r in rs :: r.intentId
  }

  lemma IdsSnoc(rs: seq<IntentResult>, r: IntentResult)
    ensures IdsOf(rs + [r]) == IdsOf(rs) + {r.intentId}
  {
    assert r in rs + [r];
  }

  /** Every outgoing intent is reserved for its amount. */
  ghost predicate AllReserved(st: ShardState, rs: seq<IntentResult>) {
    forall i :: 0 <= i < |rs| ==> IsReserved(st, rs[i])
  }

  ghost predicate IsReserved(st: ShardState, r: IntentResult) {
    r.intentId in st.reservations && st.reservations[r.intentId].status == Reserved && st.reservations[r.intentId].amount == r.intent.amount
  }

  lemma AscendingNew(rs: seq<IntentResult>, n: nat)
    requires Ascending(rs) && n < |rs|
    ensures rs[n].intentId !in IdsOf(rs[..n])
  {
    forall r | r in rs[..n] ensures r.intentId != rs[n].intentId {
      var i :| 0 <= i < n && rs[i] == r;
    }
  }

  lemma ValidAmounts(h: Hasher, r: IntentResult)
    requires ValidateResult(h, r).Ok?
    ensures r.matched >= 0 && r.fallback >= 0 && r.matched + r.fallback == r.intent.amount && r.intent.amount > 0
  {
  }

  lemma {:induction false} OutgoingChecks(h: Hasher, st: ShardState, s: Int64, rs: seq<IntentResult>)
    requires Ascending(rs) && AllReserved(st, rs) && ValidResults(h, rs)
    requires forall i :: 0 <= i < |rs| ==> rs[i].intent.sourceShard == s
    ensures CheckOutgoing(h, st, s, rs).Ok?
    ensures CheckOutgoing(h, st, s, rs).value.ids == IdsOf(rs) && PositiveSheet(CheckOutgoing(h, st, s, rs).value.sheet)
    ensures forall k :: Entry(CheckOutgoing(h, st, s, rs).value.sheet, k) == Directed(rs, s, k.counterparty, k.asset)
    decreases |rs|
  {
    if rs != [] {
      var n := |rs| - 1;
      var front, last := rs[..n], rs[n];
      OutgoingChecks(h, st, s, front);
      AscendingNew(rs, n);
      assert rs == front + [last];
      IdsSnoc(front, last);
      assert IsReserved(st, rs[n]) && ValidateResult(h, rs[n]).Ok?;
      ValidAmounts(h, last);
      var seen, key := CheckOutgoing(h, st, s, front).value, BalanceKey(last.intent.destinationShard, last.intent.assetId);
      CheckOutgoingSnoc(h, st, s, front, last, seen);
      var sheet := AddAmount(seen.sheet, key, last.matched);
      forall k ensures Entry(sheet, k) == Directed(rs, s, k.counterparty, k.asset) {
        AddAmountEntry(seen.sheet, key, last.matched, k);
        DirectedSnoc(front, last, s, k.counterparty, k.asset);
      }
      AddAmountEntry(seen.sheet, key, last.matched, key);
    }
  }

  lemma CheckOutgoingSnoc(h: Hasher, st: ShardState, s: Int64, rs: seq<IntentResult>, r: IntentResult, seen: Seen)
    requires CheckOutgoing(h, st, s, rs) == Ok(seen) && IsReserved(st, r) && ValidateResult(h, r).Ok?
    requires r.intent.sourceShard == s && r.intentId !in seen.ids
    ensures CheckOutgoing(h, st, s, rs + [r]) ==
      Ok(Seen(seen.ids + {r.intentId}, AddAmount(seen.sheet, BalanceKey(r.intent.destinationShard, r.intent.assetId), r.matched)))
  {
    assert (rs + [r])[..|rs|] == rs;
  }

  lemma {:induction false} IncomingChecks(h: Hasher, s: Int64, rs: seq<IntentResult>, start: set<Hash>)
    requires Ascending(rs) && ValidResults(h, rs) && IdsOf(rs) !! start
    requires forall i :: 0 <= i < |rs| ==> rs[i].intent.destinationShard == s && rs[i].matched > 0
    ensures CheckIncoming(h, s, rs, start).Ok?
    ensures CheckIncoming(h, s, rs, start).value.ids == start + IdsOf(rs) && PositiveSheet(CheckIncoming(h, s, rs, start).value.sheet)
    ensures forall k :: Entry(CheckIncoming(h, s, rs, start).value.sheet, k) == Directed(rs, k.counterparty, s, k.asset)
    decreases |rs|
  {
    if rs != [] {
      var n := |rs| - 1;
      var front, last := rs[..n], rs[n];
      assert rs == front + [last];
      IdsSnoc(front, last);
      IncomingChecks(h, s, front, start);
      AscendingNew(rs, n);
      assert ValidateResult(h, rs[n]).Ok? && rs[n].matched > 0;
      var seen, key := CheckIncoming(h, s, front, start).value, BalanceKey(last.intent.sourceShard, last.intent.assetId);
      forall k ensures Entry(CheckIncoming(h, s, rs, start).value.sheet, k) == Directed(rs, k.counterparty, s, k.asset) {
        AddAmountEntry(seen.sheet, key, last.matched, k);
      }
      AddAmountEntry(seen.sheet, key, last.matched, key);
    }
  }

  /** A settlement of the Builder passes the executor's checks once its outgoing intents are reserved. */
  lemma SettlementChecks(h: Hasher, frozen: Frozen, mode: string, st: ShardState, batchId: Hash, s: Int64)
    requires Outcome(h, frozen.intents, mode).Some?
    requires AllReserved(st, SettlementOf(batchId, frozen.windowId, ResultsFor(h, frozen, mode), s).outgoing)
    ensures CheckInstructions(h, st, s, SettlementOf(batchId, frozen.windowId, ResultsFor(h, frozen, mode), s)).Ok?
  {
    var rs := ResultsFor(h, frozen, mode);
    var x := SettlementOf(batchId, frozen.windowId, rs, s);
    SettlementShape(h, frozen, mode, batchId, s);
    OutgoingChecks(h, st, s, x.outgoing);
    IncomingChecks(h, s, x.incoming, IdsOf(x.outgoing));
    var out, inc := CheckOutgoing(h, st, s, x.outgoing).value, CheckIncoming(h, s, x.incoming, IdsOf(x.outgoing)).value;
    forall k ensures Entry(out.sheet, k) == Entry(inc.sheet, k) {
      ExchangeEqual(h, frozen, mode, s, k.counterparty, k.asset);
    }
    SheetsEqual(out.sheet, inc.sheet);
  }

  lemma SettlementShape(h: Hasher, frozen: Frozen, mode: string, batchId: Hash, s: Int64)
    requires Outcome(h, frozen.intents, mode).Some?
    ensures var rs := ResultsFor(h, frozen, mode);
      var x := SettlementOf(batchId, frozen.windowId, rs, s);
      && x.outgoing == OutgoingOf(rs, s) && x.incoming == IncomingOf(rs, s) && Ascending(x.outgoing) && Ascending(x.incoming)
      && ValidResults(h, x.outgoing) && ValidResults(h, x.incoming) && IdsOf(x.incoming) !! IdsOf(x.outgoing)
      && (forall i :: 0 <= i < |x.outgoing| ==> x.outgoing[i].intent.sourceShard == s)
      && (forall i :: 0 <= i < |x.incoming| ==> x.incoming[i].intent.destinationShard == s && x.incoming[i].matched > 0)
  {
    var rs := ResultsFor(h, frozen, mode);
    var x := SettlementOf(batchId, frozen.windowId, rs, s);
    ResultsValid(h, frozen, mode);
    ResultsDistinct(h, frozen.intents, mode);
    ListsAscend(rs, s);
    AscendingSort(OutgoingOf(rs, s));
    AscendingSort(IncomingOf(rs, s));
    ValidSettlement(h, batchId, frozen.windowId, rs, s);
    forall i | 0 <= i < |x.outgoing| ensures x.outgoing[i].intent.sourceShard == s {
      SettlementMembers(batchId, frozen.windowId, rs, s, x.outgoing[i]);
    }
    forall i | 0 <= i < |x.incoming| ensures x.incoming[i].intent.destinationShard == s && x.incoming[i].matched > 0 {
      SettlementMembers(batchId, frozen.windowId, rs, s, x.incoming[i]);
    }
    DirectionsApart(h, frozen, mode, batchId, s);
  }

  /** No intent goes from a shard to itself. */
  lemma DirectionsApart(h: Hasher, frozen: Frozen, mode: string, batchId: Hash, s: Int64)
    requires Outcome(h, frozen.intents, mode).Some?
    ensures var x := SettlementOf(batchId, frozen.windowId, ResultsFor(h, frozen, mode), s); IdsOf(x.incoming) !! IdsOf(x.outgoing)
  {
    var rs := ResultsFor(h, frozen, mode);
    var x := SettlementOf(batchId, frozen.windowId, rs, s);
    ResultsOrdered(h, frozen.intents, mode);
    DistinctByIdentifier(rs);
    forall p, q | p in x.incoming && q in x.outgoing ensures p.intentId != q.intentId {
      SettlementMembers(batchId, frozen.windowId, rs, s, p);
      SettlementMembers(batchId, frozen.windowId, rs, s, q);
      CrossShard(h, frozen, mode, q);
    }
  }

  lemma CrossShard(h: Hasher, frozen: Frozen, mode: string, r: IntentResult)
    requires Outcome(h, frozen.intents, mode).Some? && r in ResultsFor(h, frozen, mode)
    ensures r.intent.sourceShard != r.intent.destinationShard
  {
    ResultsOrdered(h, frozen.intents, mode);
    var rs := ResultsFor(h, frozen, mode);
    var k :| 0 <= k < |rs| && rs[k] == r;
    ResultAt(h, frozen.intents, mode, k);
    AcceptedCrosses(h, frozen.intents, r.intent);
  }

  lemma AcceptedCrosses(h: Hasher, intents: seq<PaymentIntent>, p: PaymentIntent)
    requires Acceptable(h, intents) && p in intents
    ensures p.sourceShard != p.destinationShard
  {
    var i :| 0 <= i < |intents| && intents[i] == p;
    assert PaymentShape(intents[i], intents[0].chainId).Ok?;
  }

  ghost predicate ByIdentifier(rs: seq<IntentResult>) {
    forall x, y :: x in rs && y in rs && x.intentId == y.intentId ==> x == y
  }

  lemma DistinctByIdentifier(rs: seq<IntentResult>)
    requires Distinct(rs, ByIntent())
    ensures ByIdentifier(rs)
  {
    forall x, y | x in rs && y in rs && x.intentId == y.intentId ensures x == y {
      var i :| 0 <= i < |rs| && rs[i] == x;
      var j :| 0 <= j < |rs| && rs[j] == y;
      assert ByIntent()(rs[i]) == ByIntent()(rs[j]);
    }
  }

  lemma ExchangeEqual(h: Hasher, frozen: Frozen, mode: string, s: Int64, c: Int64, a: Hash)
    requires Outcome(h, frozen.intents, mode).Some?
    ensures var rs := ResultsFor(h, frozen, mode); Directed(OutgoingOf(rs, s), s, c, a) == Directed(IncomingOf(rs, s), c, s, a)
  {
    var rs := ResultsFor(h, frozen, mode);
    ResultsValid(h, frozen, mode);
    forall i | 0 <= i < |rs| ensures rs[i].matched >= 0 {
      ValidAmounts(h, rs[i]);
    }
    DirectedOutgoing(rs, s, c, a);
    DirectedIncoming(rs, s, c, a);
    DirectionsEqual(h, frozen.intents, mode, s, c, a);
  }

  // ---- and nothing after the checks can fail ----

  ghost function Amounts(rs: seq<IntentResult>): map<Hash, int> {
    if rs == [] then map[] else Amounts(rs[..|rs| - 1])[rs[|rs| - 1].intentId := rs[|rs| - 1].intent.amount]
  }

  lemma {:induction false} AmountsKeys(rs: seq<IntentResult>, st: ShardState)
    requires AllReserved(st, rs)
    ensures Amounts(rs).Keys == IdsOf(rs) && forall id :: id in Amounts(rs) ==> id in ReservedAmounts(st) && Amounts(rs)[id] == ReservedAmounts(st)[id]
    decreases |rs|
  {
    if rs != [] {
      var n := |rs| - 1;
      AmountsKeys(rs[..n], st);
      assert IsReserved(st, rs[n]) && rs == rs[..n] + [rs[n]];
      IdsSnoc(rs[..n], rs[n]);
    }
  }

  lemma {:induction false} AmountsSum(h: Hasher, st: ShardState, rs: seq<IntentResult>)
    requires Ascending(rs) && AllReserved(st, rs) && ValidResults(h, rs)
    ensures Sum(Amounts(rs)) == TotalMatched(rs) + TotalFallback(rs)
    decreases |rs|
  {
    if rs != [] {
      var n := |rs| - 1;
      AmountsSum(h, st, rs[..n]);
      AmountsKeys(rs[..n], st);
      AscendingNew(rs, n);
      SumUpdate(Amounts(rs[..n]), rs[n].intentId, rs[n].intent.amount);
      ValidAmounts(h, rs[n]);
    }
  }

  /** Part of a map of non-negative amounts sums to no more than the whole. */
  lemma PartSum<K>(part: map<K, int>, whole: map<K, int>)
    requires (forall k :: k in part ==> k in whole && whole[k] == part[k]) && forall k :: k in whole ==> whole[k] >= 0
    ensures Sum(part) <= Sum(whole)
  {
    var rest := whole - part.Keys;
    assert whole == part + rest;
    SumUnion(part, rest);
    SumNonNegative(rest);
  }

  /** The escrow backs everything a settlement pays out. */
  lemma EscrowSuffices(h: Hasher, st: ShardState, rs: seq<IntentResult>)
    requires ShardInv(st) && Ascending(rs) && AllReserved(st, rs) && ValidResults(h, rs)
    ensures TotalMatched(rs) + TotalFallback(rs) <= st.escrow
  {
    AmountsSum(h, st, rs);
    AmountsKeys(rs, st);
    PartSum(Amounts(rs), ReservedAmounts(st));
  }

  lemma TotalsStep(rs: seq<IntentResult>, n: nat)
    requires n < |rs|
    ensures TotalMatched(rs[..n + 1]) == TotalMatched(rs[..n]) + rs[n].matched && TotalFallback(rs[..n + 1]) == TotalFallback(rs[..n]) + rs[n].fallback
  {
    assert rs[..n + 1][..n] == rs[..n];
  }

  lemma {:induction false} TotalsStart(h: Hasher, rs: seq<IntentResult>, n: nat)
    requires ValidResults(h, rs) && n <= |rs|
    ensures TotalMatched(rs[..n]) >= 0 && TotalFallback(rs[..n]) >= 0
  {
    if n > 0 {
      TotalsStart(h, rs, n - 1);
      TotalsStep(rs, n - 1);
      ValidAmounts(h, rs[n - 1]);
    }
  }

  lemma {:induction false} TotalsNonNegative(h: Hasher, rs: seq<IntentResult>, n: nat)
    requires ValidResults(h, rs) && n <= |rs|
    ensures 0 <= TotalMatched(rs[..n]) <= TotalMatched(rs) && 0 <= TotalFallback(rs[..n]) <= TotalFallback(rs)
    decreases |rs| - n
  {
    TotalsStart(h, rs, n);
    if n == |rs| {
      assert rs[..n] == rs;
    } else {
      TotalsNonNegative(h, rs, n + 1);
      TotalsStep(rs, n);
      ValidAmounts(h, rs[n]);
    }
  }

  /** Reservations outside the consumed results are as they were. */
  lemma {:induction false} ConsumeOthers(
    h: Hasher, st: ShardState, rs: seq<IntentResult>, batchId: Hash, pack: Package, id: Hash)
    requires ConsumeAll(h, st, rs, batchId, pack).Ok? && id !in IdsOf(rs) && id in st.reservations
    ensures var next := ConsumeAll(h, st, rs, batchId, pack).value; id in next.reservations && next.reservations[id] == st.reservations[id]
    decreases |rs|
  {
    if rs != [] {
      var n := |rs| - 1;
      assert rs == rs[..n] + [rs[n]];
      IdsSnoc(rs[..n], rs[n]);
      ConsumeOthers(h, st, rs[..n], batchId, pack, id);
      ConsumeOneOther(h, ConsumeAll(h, st, rs[..n], batchId, pack).value, rs[n], batchId, pack, id);
    }
  }

  lemma ConsumeOneOther(h: Hasher, st: ShardState, r: IntentResult, batchId: Hash, pack: Package, id: Hash)
    requires ConsumeOne(h, st, r, batchId, pack).Ok? && id != r.intentId && id in st.reservations
    ensures var next := ConsumeOne(h, st, r, batchId, pack).value;
      id in next.reservations && next.reservations[id] == st.reservations[id]
  {
    ConsumeShape(h, st, r, batchId);
  }

  /** Consuming one more reserved result cannot fail. */
  lemma ConsumeOneOk(h: Hasher, st: ShardState, r: IntentResult, batchId: Hash, pack: Package)
    requires RecordsOk(st) && IsReserved(st, r) && ValidateResult(h, r).Ok? && batchId != 0 && r.intentId != 0
    requires r.fallback <= st.escrow < TWO_256
    ensures ConsumeOne(h, st, r, batchId, pack).Ok?
  {
    ValidAmounts(h, r);
    var next := ConsumeResult(h, st, r, batchId).value;
    assert next.status == st.status && next.escrow == st.escrow;
    assert FallbackKey(r.intentId, batchId) !in st.status;
  }

  lemma {:induction false} ConsumeAllOk(
    h: Hasher, st: ShardState, rs: seq<IntentResult>, n: nat, batchId: Hash, pack: Package)
    requires RecordsOk(st) && Ascending(rs) && AllReserved(st, rs) && ValidResults(h, rs) && n <= |rs| && batchId != 0
    requires 0 !in IdsOf(rs)
    requires TotalFallback(rs) <= st.escrow < TWO_256
    ensures ConsumeAll(h, st, rs[..n], batchId, pack).Ok?
    decreases n
  {
    if n > 0 {
      var front, last := rs[..n - 1], rs[n - 1];
      ConsumeAllOk(h, st, rs, n - 1, batchId, pack);
      ConsumeAllKeeps(h, st, front, batchId, pack);
      var mid := ConsumeAll(h, st, front, batchId, pack).value;
      assert rs[..n][..n - 1] == front && rs[..n][n - 1] == last;
      AscendingNew(rs, n - 1);
      assert IsReserved(st, rs[n - 1]) && ValidateResult(h, rs[n - 1]).Ok? && last in rs;
      ConsumeOthers(h, st, front, batchId, pack, last.intentId);
      TotalsNonNegative(h, rs, n - 1);
      TotalsNonNegative(h, rs, n);
      ConsumeOneOk(h, mid, last, batchId, pack);
    }
  }

  lemma {:induction false} EachBelowTotal(h: Hasher, rs: seq<IntentResult>, i: nat)
    requires ValidResults(h, rs) && i < |rs|
    ensures rs[i].matched <= TotalMatched(rs)
  {
    TotalsNonNegative(h, rs, i + 1);
    TotalsNonNegative(h, rs, i);
    assert rs[..i + 1][..i] == rs[..i] && rs[..i + 1][i] == rs[i];
  }

  /** Every checked settlement over valid, reserved results is applied. */
  lemma ApplyOk(h: Hasher, st: ShardState, s: Int64, pack: Package)
    requires ShardInv(st) && st.escrow < TWO_256 && CheckInstructions(h, st, s, pack.settlement).Ok?
    requires var x := pack.settlement;
      && Ascending(x.outgoing) && AllReserved(st, x.outgoing) && ValidResults(h, x.outgoing) && ValidResults(h, x.incoming)
      && x.batchId != 0 && 0 !in IdsOf(x.outgoing)
    ensures ApplySettlement(h, st, s, pack).Ok?
  {
    var x := pack.settlement;
    CheckBalances(h, st, s, x);
    EscrowSuffices(h, st, x.outgoing);
    TotalsNonNegative(h, x.outgoing, |x.outgoing|);
    TotalsNonNegative(h, x.incoming, |x.incoming|);
    assert x.outgoing[..|x.outgoing|] == x.outgoing && x.incoming[..|x.incoming|] == x.incoming;
    ConsumeAllOk(h, st, x.outgoing, |x.outgoing|, x.batchId, pack);
    forall i | 0 <= i < |x.incoming| ensures x.incoming[i].matched < TWO_256 {
      EachBelowTotal(h, x.incoming, i);
    }
  }

  /** The single chunk of the i-th shard. */
  ghost function PackageAt(h: Hasher, p: Proposal, i: nat): Package
    requires var ids := ShardIds(p.header.cuts);
      && i < |ids| && Committed(h, p.header, ids, p.sidecar.shardSettlements) && OnePerShard(ids, p.sidecar.shardSettlements)
  {
    ChunksOfShard(ShardIds(p.header.cuts), p.sidecar.shardSettlements, i);
    PackageOf(h, p.header, ShardIds(p.header.cuts), p.sidecar.shardSettlements, i, 0)
  }

  lemma PackageAtVerifies(h: Hasher, frozen: Frozen, previous: Hash, mode: string, p: Proposal, i: nat)
    requires Built(h, frozen, previous, mode) == Some(p) && i < |p.header.cuts|
    ensures var ids := ShardIds(p.header.cuts); Committed(h, p.header, ids, p.sidecar.shardSettlements) && OnePerShard(ids, p.sidecar.shardSettlements)
    ensures var pack := PackageAt(h, p, i);
      && VerifyPackage(h, pack).Ok? && pack.header == p.header && pack.settlement == p.sidecar.shardSettlements[i]
      && pack.commitment.shardId == p.header.cuts[i].shardId
  {
    var ids, ss := ShardIds(p.header.cuts), p.sidecar.shardSettlements;
    BuiltCommitted(h, frozen, previous, mode);
    BuiltNamed(h, frozen, previous, mode, p);
    SingleVerifies(h, p.header, ids, ss, i);
  }

  lemma BuiltNamed(h: Hasher, frozen: Frozen, previous: Hash, mode: string, p: Proposal)
    requires Built(h, frozen, previous, mode) == Some(p)
    ensures forall s :: s in p.sidecar.shardSettlements ==> s.batchId == p.header.batchId && s.windowId == p.header.windowId
  {
    BuiltDerived(h, frozen, previous, mode);
  }

  lemma SingleVerifies(h: Hasher, header: Header, ids: seq<Int64>, ss: seq<Settlement>, i: nat)
    requires Committed(h, header, ids, ss) && OnePerShard(ids, ss) && HeaderDerived(h, header) && i < |ids|
    requires forall s :: s in ss ==> s.batchId == header.batchId && s.windowId == header.windowId
    ensures ShardChunks(ss, ids[i]) == [ss[i]]
    ensures var pack := PackageOf(h, header, ids, ss, i, 0);
      VerifyPackage(h, pack).Ok? && pack.header == header && pack.settlement == ss[i] && pack.commitment.shardId == ids[i]
  {
    ChunksOfShard(ids, ss, i);
    PackagesVerify(h, header, ids, ss, i, 0);
  }

  lemma ExecuteIs(h: Hasher, st: ShardState, s: Int64, pack: Package)
    requires VerifyPackage(h, pack).Ok? && pack.settlement.shardId == s && ApplySettlement(h, st, s, pack).Ok?
    ensures ExecuteResult(h, st, s, pack, pack.header).Ok?
  {
  }

  /** What the Builder assigned to the i-th shard of its cut. */
  lemma SettlementAt(h: Hasher, frozen: Frozen, previous: Hash, mode: string, p: Proposal, i: nat)
    requires Built(h, frozen, previous, mode) == Some(p) && i < |p.header.cuts|
    ensures Outcome(h, frozen.intents, mode).Some? && i < |p.sidecar.shardSettlements|
    ensures p.sidecar.shardSettlements[i] == SettlementOf(p.header.batchId, frozen.windowId, ResultsFor(h, frozen, mode), p.header.cuts[i].shardId)
  {
    BuiltDerived(h, frozen, previous, mode);
  }

  /**
   * The package the Builder makes for the i-th shard of its cut verifies and executes on that shard: when the outgoing
   * intents are reserved there and the escrow is backed, no error branch of Execute is reachable.
   */
  lemma BuiltExecutes(h: Hasher, frozen: Frozen, previous: Hash, mode: string, p: Proposal, st: ShardState, i: nat)
    requires Built(h, frozen, previous, mode) == Some(p) && i < |p.header.cuts| && i < |p.sidecar.shardSettlements|
    requires ShardInv(st) && st.escrow < TWO_256 && AllReserved(st, p.sidecar.shardSettlements[i].outgoing)
    requires p.header.batchId != 0 && 0 !in IdsOf(p.sidecar.shardSettlements[i].outgoing)
    ensures var ids := ShardIds(p.header.cuts); Committed(h, p.header, ids, p.sidecar.shardSettlements) && OnePerShard(ids, p.sidecar.shardSettlements)
    ensures ExecuteResult(h, st, p.header.cuts[i].shardId, PackageAt(h, p, i), p.header).Ok?
  {
    PackageAtVerifies(h, frozen, previous, mode, p, i);
    SettlementAt(h, frozen, previous, mode, p, i);
    var pack, s := PackageAt(h, p, i), p.header.cuts[i].shardId;
    SettlementShape(h, frozen, mode, p.header.batchId, s);
    SettlementChecks(h, frozen, mode, st, p.header.batchId, s);
    ApplyOk(h, st, s, pack);
    ExecuteIs(h, st, s, pack);
  }
}
