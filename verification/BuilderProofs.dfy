/** What the Builder's proposals are: valid results, committed settlements, and conservation towards every counterparty. */
module BuilderProofs {
  import opened Base
  import opened ByteStrings
  import opened Sums
  import opened Merkle
  import opened Model
  import opened Packages
  import opened Sorting
  import opened Allocations
  import opened Matching
  import opened MatchingProofs
  import opened Matcher
  import opened MatcherRun
  import opened Builder

  // ---- results are valid ----

  ghost predicate ValidResults(h: Hasher, rs: seq<IntentResult>) {
    forall i :: 0 <= i < |rs| ==> ValidateResult(h, rs[i]).Ok?
  }

  lemma BookFacts(h: Hasher, intents: seq<PaymentIntent>)
    requires Acceptable(h, intents)
    ensures Lists(h, BookOf(h, intents), intents) && PositiveAmounts(BookOf(h, intents))
  {
    BookContains(h, intents);
    ListsIsBook(h, BookOf(h, intents), intents);
  }

  lemma ResultIdAt(book: Book, mode: string, k: nat)
    requires k < |Ids(book)|
    ensures Ids(book)[k] in book && ResultsOf(book, mode)[k] == ResultOf(book, mode, Ids(book)[k])
    ensures ResultsOf(book, mode)[k].intentId == Ids(book)[k] && ResultsOf(book, mode)[k].intent == book[Ids(book)[k]]
  {
    assert Ids(book)[k] in Ids(book);
  }

  lemma ResultAt(h: Hasher, intents: seq<PaymentIntent>, mode: string, k: nat)
    requires Outcome(h, intents, mode).Some? && k < |Outcome(h, intents, mode).value.results|
    ensures var r, book := Outcome(h, intents, mode).value.results[k], BookOf(h, intents);
      r.intentId in book && r == ResultOf(book, NormalizeMode(mode), r.intentId) && r.intent == book[r.intentId] && r.intent in intents
  {
    var book := BookOf(h, intents);
    BookFacts(h, intents);
    ResultIdAt(book, NormalizeMode(mode), k);
  }

  /** Every result of the matcher passes Validate and is about one of the intents. */
  lemma ResultValid(h: Hasher, intents: seq<PaymentIntent>, mode: string, k: nat)
    requires Outcome(h, intents, mode).Some? && k < |Outcome(h, intents, mode).value.results|
    ensures ValidateResult(h, Outcome(h, intents, mode).value.results[k]).Ok?
  {
    var book := BookOf(h, intents);
    var r := Outcome(h, intents, mode).value.results[k];
    BookFacts(h, intents);
    ResultAt(h, intents, mode, k);
    var left := Final(book, GroupOf(r.intent), NormalizeMode(mode));
    MatchedInRange(book, NormalizeMode(mode), r.intentId);
    ResultOfLeft(book, NormalizeMode(mode), r.intentId, left[r.intentId]);
    NewIntentResultOk(h, r.intent, r.intentId, r.matched);
    ResultValidIffConstructed(h, r);
  }

  lemma ResultsValid(h: Hasher, frozen: Frozen, mode: string)
    requires Outcome(h, frozen.intents, mode).Some?
    ensures ResultsFor(h, frozen, mode) == Outcome(h, frozen.intents, mode).value.results && ValidResults(h, ResultsFor(h, frozen, mode))
  {
    ResultsOrdered(h, frozen.intents, mode);
    var rs := ResultsFor(h, frozen, mode);
    forall i | 0 <= i < |rs| ensures ValidateResult(h, rs[i]).Ok? {
      ResultValid(h, frozen.intents, mode, i);
    }
  }

  // ---- so every settlement has a payload ----

  lemma {:induction false} ValidPayload(h: Hasher, rs: seq<IntentResult>)
    requires ValidResults(h, rs)
    ensures ResultsPayload(h, rs).Ok?
    decreases |rs|
  {
    if rs != [] {
      assert ValidateResult(h, rs[0]).Ok?;
      ValidPayload(h, rs[1..]);
    }
  }

  lemma {:induction false} OutgoingMembers(rs: seq<IntentResult>, s: Int64, r: IntentResult)
    ensures r in OutgoingOf(rs, s) <==> r in rs && r.intent.sourceShard == s
    decreases |rs|
  {
    if rs != [] {
      var n := |rs| - 1;
      OutgoingMembers(rs[..n], s, r);
      assert rs == rs[..n] + [rs[n]];
    }
  }

  lemma {:induction false} IncomingMembers(rs: seq<IntentResult>, s: Int64, r: IntentResult)
    ensures r in IncomingOf(rs, s) <==> r in rs && r.intent.destinationShard == s && r.matched > 0
    decreases |rs|
  {
    if rs != [] {
      var n := |rs| - 1;
      IncomingMembers(rs[..n], s, r);
      assert rs == rs[..n] + [rs[n]];
    }
  }

  /** Who is in a shard's settlement. */
  lemma SettlementMembers(batchId: Hash, windowId: Uint64, rs: seq<IntentResult>, s: Int64, r: IntentResult)
    ensures r in SettlementOf(batchId, windowId, rs, s).outgoing <==> r in rs && r.intent.sourceShard == s
    ensures r in SettlementOf(batchId, windowId, rs, s).incoming <==> r in rs && r.intent.destinationShard == s && r.matched > 0
  {
    SortByProperties(OutgoingOf(rs, s), ByIntent());
    SameElements(SortBy(OutgoingOf(rs, s), ByIntent()), OutgoingOf(rs, s));
    OutgoingMembers(rs, s, r);
    SortByProperties(IncomingOf(rs, s), ByIntent());
    SameElements(SortBy(IncomingOf(rs, s), ByIntent()), IncomingOf(rs, s));
    IncomingMembers(rs, s, r);
  }

  lemma ValidSettlement(h: Hasher, batchId: Hash, windowId: Uint64, rs: seq<IntentResult>, s: Int64)
    requires ValidResults(h, rs)
    ensures var x := SettlementOf(batchId, windowId, rs, s); ValidResults(h, x.outgoing) && ValidResults(h, x.incoming)
  {
    var x := SettlementOf(batchId, windowId, rs, s);
    forall i | 0 <= i < |x.outgoing| ensures ValidateResult(h, x.outgoing[i]).Ok? {
      SettlementMembers(batchId, windowId, rs, s, x.outgoing[i]);
      var k :| 0 <= k < |rs| && rs[k] == x.outgoing[i];
    }
    forall i | 0 <= i < |x.incoming| ensures ValidateResult(h, x.incoming[i]).Ok? {
      SettlementMembers(batchId, windowId, rs, s, x.incoming[i]);
      var k :| 0 <= k < |rs| && rs[k] == x.incoming[i];
    }
  }

  lemma ValidIsPayable(h: Hasher, windowId: Uint64, ids: seq<Int64>, rs: seq<IntentResult>)
    requires ValidResults(h, rs) && forall i :: 0 <= i < |ids| ==> ids[i] >= 0
    ensures Payable(h, windowId, ids, rs)
  {
    forall i | 0 <= i < |ids| ensures SettlementPayload(h, SettlementOf(0, windowId, rs, ids[i])).Ok? {
      var x := SettlementOf(0, windowId, rs, ids[i]);
      ValidSettlement(h, 0, windowId, rs, ids[i]);
      ValidPayload(h, x.outgoing);
      ValidPayload(h, x.incoming);
    }
  }

  /** Every intent is between shards of the cut. */
  ghost predicate WithinCut(ids: seq<Int64>, intents: seq<PaymentIntent>) {
    forall i :: 0 <= i < |intents| ==> Spans(ids, intents[i])
  }

  /** The results are about exactly these intents. */
  ghost predicate About(rs: seq<IntentResult>, intents: seq<PaymentIntent>) {
    && (forall i :: 0 <= i < |rs| ==> rs[i].intent in intents)
    && (forall p :: p in intents ==> exists k :: 0 <= k < |rs| && rs[k].intent == p)
  }

  lemma ResultsAbout(h: Hasher, frozen: Frozen, mode: string)
    requires Outcome(h, frozen.intents, mode).Some?
    ensures About(ResultsFor(h, frozen, mode), frozen.intents)
  {
    ResultsOrdered(h, frozen.intents, mode);
    var rs := ResultsFor(h, frozen, mode);
    forall i | 0 <= i < |rs| ensures rs[i].intent in frozen.intents {
      ResultAt(h, frozen.intents, mode, i);
    }
    forall p | p in frozen.intents ensures exists k :: 0 <= k < |rs| && rs[k].intent == p {
      var k := IntentResultAt(h, frozen.intents, mode, p);
    }
  }

  lemma CoveredIff(ids: seq<Int64>, rs: seq<IntentResult>, intents: seq<PaymentIntent>)
    requires About(rs, intents)
    ensures CoveredBy(ids, rs) <==> WithinCut(ids, intents)
  {
    if WithinCut(ids, intents) {
      forall i | 0 <= i < |rs| ensures Spans(ids, rs[i].intent) {
        var k :| 0 <= k < |intents| && intents[k] == rs[i].intent;
      }
    }
    if CoveredBy(ids, rs) {
      forall i | 0 <= i < |intents| ensures Spans(ids, intents[i]) {
        assert intents[i] in intents;
        var k :| 0 <= k < |rs| && rs[k].intent == intents[i];
      }
    }
  }

  /** Every intent has its result. */
  lemma IntentResultAt(h: Hasher, intents: seq<PaymentIntent>, mode: string, p: PaymentIntent) returns (k: nat)
    requires Outcome(h, intents, mode).Some? && p in intents
    ensures k < |Outcome(h, intents, mode).value.results| && Outcome(h, intents, mode).value.results[k].intent == p
    ensures IntentId(h, p) == Ok(Outcome(h, intents, mode).value.results[k].intentId)
  {
    var book := BookOf(h, intents);
    BookFacts(h, intents);
    var i :| 0 <= i < |intents| && intents[i] == p;
    var id := IntentId(h, intents[i]).value;
    k := PositionOf(book, id);
    ResultIdAt(book, NormalizeMode(mode), k);
  }

  lemma PositionOf(book: Book, id: Hash) returns (k: nat)
    requires id in book
    ensures k < |Ids(book)| && Ids(book)[k] == id
  {
    assert id in Ids(book);
    k :| 0 <= k < |Ids(book)| && Ids(book)[k] == id;
  }

  /** The Builder succeeds exactly on non-empty windows of acceptable intents between the shards of good cuts. */
  lemma BuildableIff(h: Hasher, frozen: Frozen, previous: Hash, mode: string)
    ensures Built(h, frozen, previous, mode).Some? <==>
      frozen.intents != [] && GoodCuts(frozen.cuts) && Acceptable(h, frozen.intents) && WithinCut(ShardIds(CutsOf(frozen)), frozen.intents)
  {
    if Matchable(h, frozen, mode) {
      CanonicalShards(frozen.cuts);
      ResultsAbout(h, frozen, mode);
      CoveredIff(ShardIds(CutsOf(frozen)), ResultsFor(h, frozen, mode), frozen.intents);
      ResultsValid(h, frozen, mode);
      ValidIsPayable(h, frozen.windowId, ShardIds(CutsOf(frozen)), ResultsFor(h, frozen, mode));
    }
  }

  // ---- order independence ----

  /** Permuting the intents and the cuts of a window does not change what is built from it. */
  lemma BuiltOrderIndependent(h: Hasher, a: Frozen, b: Frozen, previous: Hash, mode: string)
    requires multiset(a.intents) == multiset(b.intents) && multiset(a.cuts) == multiset(b.cuts)
    requires a.windowId == b.windowId && a.receipts == b.receipts
    ensures Built(h, a, previous, mode) == Built(h, b, previous, mode)
  {
    SameElements(a.intents, b.intents);
    MatchOrderIndependent(h, a.intents, b.intents, mode);
    if GoodCuts(a.cuts) {
      GoodCutsPermute(a.cuts, b.cuts);
      SortByPermutation(a.cuts, b.cuts, ByShard());
    }
    if GoodCuts(b.cuts) {
      GoodCutsPermute(b.cuts, a.cuts);
    }
  }

  // ---- the header commits to the settlements ----

  /** Settlements one per shard, in the order of the shards. */
  ghost predicate OnePerShard(ids: seq<Int64>, ss: seq<Settlement>) {
    && |ss| == |ids| && (forall i :: 0 <= i < |ids| ==> ids[i] >= 0 && ss[i].shardId == ids[i])
    && (forall i, j :: 0 <= i < j < |ids| ==> ids[i] < ids[j])
  }

  lemma {:induction false} NoneOfShard(ss: seq<Settlement>, s: Int64)
    requires forall i :: 0 <= i < |ss| ==> ss[i].shardId != s
    ensures OfShard(ss, s) == []
    decreases |ss|
  {
    if ss != [] {
      NoneOfShard(ss[1..], s);
    }
  }

  lemma {:induction false} OneOfShard(ss: seq<Settlement>, i: nat)
    requires i < |ss| && forall j :: 0 <= j < |ss| && j != i ==> ss[j].shardId != ss[i].shardId
    ensures OfShard(ss, ss[i].shardId) == [ss[i]]
    decreases |ss|
  {
    if i == 0 {
      NoneOfShard(ss[1..], ss[0].shardId);
    } else {
      assert ss[1..][i - 1] == ss[i];
      OneOfShard(ss[1..], i - 1);
    }
  }

  lemma ChunksOfShard(ids: seq<Int64>, ss: seq<Settlement>, i: nat)
    requires OnePerShard(ids, ss) && i < |ids|
    ensures ShardChunks(ss, ids[i]) == [ss[i]]
  {
    OneOfShard(ss, i);
    SingleSort(ss[i], ByChunk());
  }

  lemma SingleSort<T>(x: T, rank: T -> int)
    ensures SortBy([x], rank) == [x]
  {
    assert [x][1..] == [];
  }

  ghost predicate SingleChunks(h: Hasher, ss: seq<Settlement>) {
    forall i :: 0 <= i < |ss| ==> ss[i].chunkIndex == 0 && ss[i].chunkCount == 1 && SettlementPayload(h, ss[i]).Ok?
  }

  lemma SingleLeafOf(h: Hasher, ids: seq<Int64>, ss: seq<Settlement>, i: nat)
    requires OnePerShard(ids, ss) && SingleChunks(h, ss) && i < |ids|
    ensures GoodChunks(h, ShardChunks(ss, ids[i]))
    ensures Leaf(ids[i], CommitmentPayload(CommitmentOf(h, ids[i], ShardChunks(ss, ids[i])))) == SettlementLeaf(h, ss[i])
  {
    ChunksOfShard(ids, ss, i);
    assert ChunkLeaves(h, [ss[i]]) == [Leaf(0, SettlementPayload(h, ss[i]).value)];
  }

  /** A header over the single-chunk leaves commits to the settlements. */
  lemma SingleChunksCommitted(h: Hasher, header: Header, ids: seq<Int64>, ss: seq<Settlement>)
    requires OnePerShard(ids, ss) && SingleChunks(h, ss)
    requires header.shardSettlementRoot == TreeRoot(h, SHARD_DOMAIN, SettlementLeaves(h, ss))
    ensures Committed(h, header, ids, ss)
  {
    forall i | 0 <= i < |ids| ensures GoodShard(h, ss, ids[i]) {
      SingleLeafOf(h, ids, ss, i);
    }
    assert ShardLeaves(h, ids, ss) == SettlementLeaves(h, ss) by {
      forall i | 0 <= i < |ids| ensures ShardLeaves(h, ids, ss)[i] == SettlementLeaves(h, ss)[i] {
        SingleLeafOf(h, ids, ss, i);
      }
    }
    NamesShards(ids, ss);
  }

  lemma NamesShards(ids: seq<Int64>, ss: seq<Settlement>)
    requires OnePerShard(ids, ss)
    ensures ShardsOf(ids, ss)
  {
    assert forall i, j :: 0 <= i < j < |ids| ==> ids[i] < ids[j];
    forall i | 0 <= i < |ids| ensures Names(ss, ids[i]) {
      assert ss[i] in ss && ss[i].shardId == ids[i];
    }
    forall s | s in ss ensures s.shardId in ids {
      var i :| 0 <= i < |ss| && ss[i] == s;
      assert ids[i] == s.shardId;
    }
  }

  lemma PayloadIgnoresBatch(h: Hasher, s: Settlement, batchId: Hash)
    ensures SettlementPayload(h, s.(batchId := batchId)) == SettlementPayload(h, s)
  {
  }

  /** What a proposal of the Builder is, component by component. */
  ghost predicate Derived(h: Hasher, frozen: Frozen, previous: Hash, mode: string, p: Proposal) {
    && Buildable(h, frozen, mode) && HeaderDerived(h, p.header)
    && p.header.previousBatchId == previous && p.header.windowId == frozen.windowId && p.header.matcherMode == NormalizeMode(mode)
    && p.header.cuts == CutsOf(frozen) && p.sidecar.finalizedBlocks == frozen.receipts
    && p.sidecar.intentResults == ResultsFor(h, frozen, mode)
    && p.sidecar.shardSettlements == SettlementsOf(p.header.batchId, frozen.windowId, ShardIds(CutsOf(frozen)), ResultsFor(h, frozen, mode))
  }

  lemma BuiltDerived(h: Hasher, frozen: Frozen, previous: Hash, mode: string)
    requires Built(h, frozen, previous, mode).Some?
    ensures Derived(h, frozen, previous, mode, Built(h, frozen, previous, mode).value)
  {
    BuiltIs(h, frozen, previous, mode);
  }

  lemma SettlementLeavesIgnoreBatch(h: Hasher, windowId: Uint64, ids: seq<Int64>, rs: seq<IntentResult>, batchId: Hash)
    requires Payable(h, windowId, ids, rs) && forall i :: 0 <= i < |ids| ==> ids[i] >= 0
    ensures var ss, named := SettlementsOf(0, windowId, ids, rs), SettlementsOf(batchId, windowId, ids, rs);
      SingleChunks(h, ss) && SingleChunks(h, named) && SettlementLeaves(h, ss) == SettlementLeaves(h, named)
  {
    var ss, named := SettlementsOf(0, windowId, ids, rs), SettlementsOf(batchId, windowId, ids, rs);
    forall i | 0 <= i < |ids| ensures SettlementPayload(h, ss[i]).Ok? && SettlementPayload(h, named[i]) == SettlementPayload(h, ss[i]) {
      assert ss[i] == SettlementOf(0, windowId, rs, ids[i]);
      assert named[i] == ss[i].(batchId := batchId);
      PayloadIgnoresBatch(h, ss[i], batchId);
    }
  }

  /** The header the Builder makes commits to exactly the settlements of its sidecar. */
  lemma BuiltCommitted(h: Hasher, frozen: Frozen, previous: Hash, mode: string)
    requires Built(h, frozen, previous, mode).Some?
    ensures var p := Built(h, frozen, previous, mode).value;
      && Committed(h, p.header, ShardIds(p.header.cuts), p.sidecar.shardSettlements) && HeaderDerived(h, p.header)
      && OnePerShard(ShardIds(p.header.cuts), p.sidecar.shardSettlements)
  {
    var p := Built(h, frozen, previous, mode).value;
    var ids, ss := ShardIds(CutsOf(frozen)), p.sidecar.shardSettlements;
    BuiltDerived(h, frozen, previous, mode);
    BuiltRoot(h, frozen, previous, mode);
    NamedSettlements(h, frozen, mode, p.header.batchId, ids, ss);
    SingleChunksCommitted(h, p.header, ids, ss);
  }

  lemma BuiltRoot(h: Hasher, frozen: Frozen, previous: Hash, mode: string)
    requires Built(h, frozen, previous, mode).Some?
    ensures Built(h, frozen, previous, mode).value.header.shardSettlementRoot == TreeRoot(h, SHARD_DOMAIN, LeavesFor(h, frozen, mode))
  {
    BuiltIs(h, frozen, previous, mode);
  }

  lemma NamedSettlements(h: Hasher, frozen: Frozen, mode: string, batchId: Hash, ids: seq<Int64>, ss: seq<Settlement>)
    requires Buildable(h, frozen, mode) && ids == ShardIds(CutsOf(frozen))
    requires ss == SettlementsOf(batchId, frozen.windowId, ids, ResultsFor(h, frozen, mode))
    ensures OnePerShard(ids, ss) && SingleChunks(h, ss) && SettlementLeaves(h, ss) == LeavesFor(h, frozen, mode)
  {
    CanonicalShards(frozen.cuts);
    SettlementLeavesIgnoreBatch(h, frozen.windowId, ids, ResultsFor(h, frozen, mode), batchId);
  }
}
