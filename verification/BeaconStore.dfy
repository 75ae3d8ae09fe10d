/** The Beacon store (pkg/netting/beacon/store.go) and the safety of the chain it commits. */
module BeaconStore {
  import opened Base
  import opened ByteStrings
  import opened Model
  import opened Sorting
  import opened MatchingProofs
  import opened Matcher
  import opened Builder
  import opened BuilderProofs
  import opened Beacon

  datatype Store = Store(blocks: map<Hash, MatchRootBlock>, sidecars: map<Hash, Sidecar>, consumed: map<Hash, Hash>, tip: Option<MatchRootBlock>)

  function Consume(consumed: map<Hash, Hash>, rs: seq<IntentResult>, batchId: Hash): map<Hash, Hash> {
    if rs == [] then consumed else Consume(consumed, rs[..|rs| - 1], batchId)[rs[|rs| - 1].intentId := batchId]
  }

  /** The block a proposal becomes on top of the tip. */
  function NextBlock(
    blockHash: MatchRootBlock -> Hash, tip: Option<MatchRootBlock>, p: Proposal, now: int): MatchRootBlock {
    match tip
    case None => MatchRootBlock(1, 0, p.header, now)
    case Some(block) => MatchRootBlock(block.number + 1, blockHash(block), p.header, now)
  }

  function CommitResult(blockHash: MatchRootBlock -> Hash, st: Store, p: Proposal, now: int): Result<Store> {
    if p.header.batchId in st.blocks then Err(BatchCommitted)
    else if !SequenceOk(p.header, st.tip) then Err(BeaconTipChanged)
    else
      var block := NextBlock(blockHash, st.tip, p, now);
      Ok(Store(st.blocks[p.header.batchId := block], st.sidecars[p.header.batchId := p.sidecar],
               Consume(st.consumed, p.sidecar.intentResults, p.header.batchId), Some(block)))
  }

  class BeaconDB {
    var st: Store

    constructor ()
      ensures st == Store(map[], map[], map[], None)
    {
      st := Store(map[], map[], map[], None);
    }

    method Tip() returns (tip: Option<MatchRootBlock>)
      ensures tip == st.tip
    {
      tip := st.tip;
    }

    method HasIntent(id: Hash) returns (has: bool)
      ensures has <==> id in st.consumed
    {
      has := id in st.consumed;
    }

    /** One transaction: all buckets are written, or none. */
    method Commit(blockHash: MatchRootBlock -> Hash, p: Proposal, now: int) returns (r: Result<MatchRootBlock>)
      modifies this
      ensures r.Ok? <==> CommitResult(blockHash, old(st), p, now).Ok?
      ensures r.Ok? ==> CommitResult(blockHash, old(st), p, now) == Ok(st) && st.tip == Some(r.value)
      ensures r.Err? ==> st == old(st) && CommitResult(blockHash, old(st), p, now) == Err(r.error)
    {
      if p.header.batchId in st.blocks {
        return Err(BatchCommitted);
      }
      var number, parentHash: Hash := 0, 0;
      match st.tip {
        case Some(tip) =>
          if p.header.previousBatchId != tip.body.batchId || p.header.windowId != tip.body.windowId + 1 {
            return Err(BeaconTipChanged);
          }
          number, parentHash := tip.number, blockHash(tip);
        case None =>
          if p.header.previousBatchId != 0 || p.header.windowId != 1 {
            return Err(BeaconTipChanged);
          }
      }
      var committed := MatchRootBlock(number + 1, parentHash, p.header, now);
      var consumed := st.consumed;
      var results := p.sidecar.intentResults;
      for i := 0 to |results|
        invariant consumed == Consume(st.consumed, results[..i], p.header.batchId) && st == old(st)
      {
        assert results[..i + 1][..i] == results[..i];
        consumed := consumed[results[i].intentId := p.header.batchId];
      }
      assert results[..|results|] == results;
      st := Store(st.blocks[p.header.batchId := committed], st.sidecars[p.header.batchId := p.sidecar], consumed, Some(committed));
      r := Ok(committed);
    }
  }

  // ---- runs of commits, each validated at some earlier state ----

  /** States before and after each commit, and at which of them each proposal had been validated. */
  datatype History = History(states: seq<Store>, commits: seq<Proposal>, validatedAt: seq<nat>)

  ghost predicate Shaped(w: History) {
    |w.states| == |w.commits| + 1 && |w.validatedAt| == |w.commits| && w.states[0] == Store(map[], map[], map[], None)
  }

  ghost predicate CommitAt(blockHash: MatchRootBlock -> Hash, w: History, i: nat)
    requires Shaped(w) && i < |w.commits|
  {
    exists now :: CommitResult(blockHash, w.states[i], w.commits[i], now) == Ok(w.states[i + 1])
  }

  ghost predicate ValidAt(h: Hasher, w: History, i: nat)
    requires Shaped(w) && i < |w.commits|
  {
    w.validatedAt[i] <= i && Accepts(h, w.states[w.validatedAt[i]].tip, w.states[w.validatedAt[i]].consumed.Keys, w.commits[i])
  }

  ghost predicate BeaconRun(h: Hasher, blockHash: MatchRootBlock -> Hash, w: History) {
    Shaped(w) && (forall i: nat :: i < |w.commits| ==> CommitAt(blockHash, w, i)) && forall i: nat :: i < |w.commits| ==> ValidAt(h, w, i)
  }

  lemma CommitEffect(h: Hasher, blockHash: MatchRootBlock -> Hash, w: History, i: nat)
    requires BeaconRun(h, blockHash, w) && i < |w.commits|
    ensures var p := w.commits[i];
      && w.states[i + 1].consumed == Consume(w.states[i].consumed, p.sidecar.intentResults, p.header.batchId)
      && SequenceOk(p.header, w.states[i].tip) && w.states[i + 1].tip.Some? && w.states[i + 1].tip.value.body == p.header
  {
    assert CommitAt(blockHash, w, i);
  }

  /** After n commits the tip is the n-th batch, of window n. */
  lemma {:induction false} TipAt(h: Hasher, blockHash: MatchRootBlock -> Hash, w: History, n: nat)
    requires BeaconRun(h, blockHash, w) && n < |w.states|
    ensures w.states[n].tip.Some? <==> n > 0
    ensures n > 0 ==> w.states[n].tip.value.body == w.commits[n - 1].header && w.commits[n - 1].header.windowId == n
  {
    if n > 0 {
      TipAt(h, blockHash, w, n - 1);
      CommitEffect(h, blockHash, w, n - 1);
    }
  }

  /** A proposal that can still be committed was validated against the current tip. */
  lemma ValidationIsCurrent(h: Hasher, blockHash: MatchRootBlock -> Hash, w: History, i: nat)
    requires BeaconRun(h, blockHash, w) && i < |w.commits|
    ensures w.validatedAt[i] == i && Accepts(h, w.states[i].tip, w.states[i].consumed.Keys, w.commits[i])
  {
    assert ValidAt(h, w, i);
    CommitEffect(h, blockHash, w, i);
    TipAt(h, blockHash, w, i);
    TipAt(h, blockHash, w, w.validatedAt[i]);
  }

  // ---- no intent is consumed twice ----

  ghost predicate Consumes(p: Proposal, id: Hash) {
    exists k :: 0 <= k < |p.sidecar.intentResults| && p.sidecar.intentResults[k].intentId == id
  }

  lemma {:induction false} ConsumeKeys(consumed: map<Hash, Hash>, rs: seq<IntentResult>, batchId: Hash, id: Hash)
    ensures id in Consume(consumed, rs, batchId) <==> id in consumed || exists k :: 0 <= k < |rs| && rs[k].intentId == id
    decreases |rs|
  {
    if rs != [] {
      var n := |rs| - 1;
      ConsumeKeys(consumed, rs[..n], batchId, id);
      if k :| 0 <= k < n && rs[..n][k].intentId == id {
        assert rs[k].intentId == id;
      }
      if k :| 0 <= k < |rs| && rs[k].intentId == id && k < n {
        assert rs[..n][k].intentId == id;
      }
    }
  }

  /** The consumed set holds exactly the intents of the committed batches. */
  lemma {:induction false} ConsumedAt(h: Hasher, blockHash: MatchRootBlock -> Hash, w: History, n: nat, id: Hash)
    requires BeaconRun(h, blockHash, w) && n < |w.states|
    ensures id in w.states[n].consumed <==> exists i: nat :: i < n && Consumes(w.commits[i], id)
  {
    if n > 0 {
      ConsumedAt(h, blockHash, w, n - 1, id);
      CommitEffect(h, blockHash, w, n - 1);
      var p := w.commits[n - 1];
      ConsumeKeys(w.states[n - 1].consumed, p.sidecar.intentResults, p.header.batchId, id);
      if Consumes(p, id) {
        assert n - 1 < n;
      }
    }
  }

  /** The results of an accepted proposal are about the intents of its receipts. */
  lemma AcceptedIds(h: Hasher, tip: Option<MatchRootBlock>, consumed: set<Hash>, p: Proposal, id: Hash)
    requires Accepts(h, tip, consumed, p) && Consumes(p, id)
    ensures id !in consumed
  {
    var intents := CutIntents(p.header.cuts, p.sidecar.finalizedBlocks);
    var window := WindowOf(p, intents);
    BuiltDerived(h, window, p.header.previousBatchId, p.header.matcherMode);
    var k :| 0 <= k < |p.sidecar.intentResults| && p.sidecar.intentResults[k].intentId == id;
    ResultsOrdered(h, intents, p.header.matcherMode);
    ResultAt(h, intents, p.header.matcherMode, k);
    BookFacts(h, intents);
    var j :| 0 <= j < |intents| && intents[j] == p.sidecar.intentResults[k].intent;
    assert FreshIntent(h, consumed, AcceptanceEpoch(p.sidecar.finalizedBlocks), intents[j]);
  }

  /** Beacon safety: no intent is consumed by two committed batches. */
  lemma NoIntentTwice(h: Hasher, blockHash: MatchRootBlock -> Hash, w: History, i: nat, j: nat, id: Hash)
    requires BeaconRun(h, blockHash, w) && i < j < |w.commits| && Consumes(w.commits[i], id)
    ensures !Consumes(w.commits[j], id)
  {
    ValidationIsCurrent(h, blockHash, w, j);
    ConsumedAt(h, blockHash, w, j, id);
    if Consumes(w.commits[j], id) {
      AcceptedIds(h, w.states[j].tip, w.states[j].consumed.Keys, w.commits[j], id);
    }
  }

  // ---- cuts chain back to the first batch ----

  ghost predicate Named(p: Proposal, s: Int64) {
    CutFor(p.header.cuts, s).Some?
  }

  lemma {:induction false} CutForFound(cuts: seq<ShardCut>, s: Int64)
    requires CutFor(cuts, s).Some?
    ensures CutFor(cuts, s).value in cuts && CutFor(cuts, s).value.shardId == s
    decreases |cuts|
  {
    if cuts[|cuts| - 1].shardId != s {
      CutForFound(cuts[..|cuts| - 1], s);
    }
  }

  /** The accepted receipts of a shard in batch i. */
  ghost function BatchReceipts(w: History, i: nat, s: Int64): seq<Receipt>
    requires i < |w.commits|
  {
    ShardReceipts(w.commits[i].sidecar.finalizedBlocks, s)
  }

  lemma CoverageAt(h: Hasher, blockHash: MatchRootBlock -> Hash, w: History, i: nat)
    requires BeaconRun(h, blockHash, w) && i < |w.commits|
    ensures Coverage(w.states[i].tip, w.commits[i].header.cuts, w.commits[i].sidecar.finalizedBlocks)
  {
    ValidationIsCurrent(h, blockHash, w, i);
  }

  /** A shard's cut in a batch is covered by the batch's receipts, against the batch before. */
  lemma CutCoveredAt(h: Hasher, blockHash: MatchRootBlock -> Hash, w: History, i: nat, s: Int64)
    requires BeaconRun(h, blockHash, w) && i < |w.commits| && Named(w.commits[i], s)
    ensures var cut := CutFor(w.commits[i].header.cuts, s).value;
      cut.shardId == s && CutFollows(w.states[i].tip, cut) && CutFilled(w.states[i].tip, cut, BatchReceipts(w, i, s))
  {
    CoverageAt(h, blockHash, w, i);
    var cuts := w.commits[i].header.cuts;
    CutForFound(cuts, s);
    var k :| 0 <= k < |cuts| && cuts[k] == CutFor(cuts, s).value;
    assert CutCovered(w.states[i].tip, cuts[k], w.commits[i].sidecar.finalizedBlocks);
  }

  /** A shard named in a batch is named in the batch before, and its cut starts where that one ended. */
  lemma CutAbuts(h: Hasher, blockHash: MatchRootBlock -> Hash, w: History, i: nat, s: Int64)
    requires BeaconRun(h, blockHash, w) && 0 < i < |w.commits| && Named(w.commits[i], s)
    ensures Named(w.commits[i - 1], s) && PreviousCut(w.states[i].tip, s) == CutFor(w.commits[i - 1].header.cuts, s)
    ensures CutFor(w.commits[i].header.cuts, s).value.previousHeight == CutFor(w.commits[i - 1].header.cuts, s).value.endHeight
  {
    CutCoveredAt(h, blockHash, w, i, s);
    TipAt(h, blockHash, w, i);
  }

  /** All receipts of a shard in the first n batches. */
  ghost function ShardHistory(w: History, n: nat, s: Int64): seq<Receipt>
    requires n <= |w.commits|
  {
    if n == 0 then [] else ShardHistory(w, n - 1, s) + BatchReceipts(w, n - 1, s)
  }

  /** Consecutive heights above `start`, each block naming the one below as its parent. */
  ghost predicate Chained(rs: seq<Receipt>, start: nat) {
    forall i :: 0 <= i < |rs| ==> rs[i].height == start + i + 1 && (i > 0 ==> rs[i].parentHash == rs[i - 1].blockHash)
  }

  lemma FilledChained(tip: Option<MatchRootBlock>, cut: ShardCut, rs: seq<Receipt>)
    requires CutFilled(tip, cut, rs)
    ensures Chained(rs, cut.previousHeight)
    ensures rs != [] && PreviousCut(tip, cut.shardId).Some? ==> rs[0].parentHash == PreviousCut(tip, cut.shardId).value.endBlockHash
    ensures rs != [] ==> rs[|rs| - 1].blockHash == cut.endBlockHash
    ensures rs == [] && PreviousCut(tip, cut.shardId).Some? ==> cut.endBlockHash == PreviousCut(tip, cut.shardId).value.endBlockHash
  {
    var previous := PreviousCut(tip, cut.shardId);
    forall i | 0 <= i < |rs| ensures rs[i].height == cut.previousHeight + i + 1 && (i > 0 ==> rs[i].parentHash == rs[i - 1].blockHash) {
      assert ReceiptFits(cut, previous, rs, i);
    }
    if rs != [] {
      assert ReceiptFits(cut, previous, rs, 0);
    }
  }

  lemma ChainedConcat(a: seq<Receipt>, b: seq<Receipt>, start: nat)
    requires Chained(a, start) && Chained(b, start + |a|)
    requires (a != [] && b != [] ==> b[0].parentHash == a[|a| - 1].blockHash)
    ensures Chained(a + b, start)
  {
    var c := a + b;
    forall i | 0 <= i < |c| ensures c[i].height == start + i + 1 && (i > 0 ==> c[i].parentHash == c[i - 1].blockHash) {
      if i >= |a| {
        assert c[i] == b[i - |a|];
        if i > |a| {
          assert c[i - 1] == b[i - |a| - 1];
        }
      }
    }
  }

  /** A shard's receipts so far form one chain of hash-linked heights from `start`, ending in the block of the cut. */
  ghost predicate ChainedTo(rs: seq<Receipt>, start: nat, cut: ShardCut) {
    Chained(rs, start) && |rs| == cut.endHeight - start && (rs != [] ==> rs[|rs| - 1].blockHash == cut.endBlockHash)
  }

  lemma ChainGrows(tip: Option<MatchRootBlock>, before: seq<Receipt>, start: nat, cut: ShardCut, rs: seq<Receipt>)
    requires PreviousCut(tip, cut.shardId).Some? && ChainedTo(before, start, PreviousCut(tip, cut.shardId).value)
    requires cut.previousHeight == PreviousCut(tip, cut.shardId).value.endHeight && CutFilled(tip, cut, rs)
    ensures ChainedTo(before + rs, start, cut)
  {
    FilledChained(tip, cut, rs);
    ChainedConcat(before, rs, start);
    assert rs == [] ==> before + rs == before;
  }

  /**
   * Beacon safety: for every shard named in the latest batch, the receipts of all batches form one chain of consecutive
   * hash-linked heights, from where the first batch started to where the latest ends.
   */
  lemma {:induction false} CutsChain(h: Hasher, blockHash: MatchRootBlock -> Hash, w: History, n: nat, s: Int64)
    requires BeaconRun(h, blockHash, w) && 0 < n <= |w.commits| && Named(w.commits[n - 1], s)
    ensures Named(w.commits[0], s)
    ensures ChainedTo(ShardHistory(w, n, s), CutFor(w.commits[0].header.cuts, s).value.previousHeight, CutFor(w.commits[n - 1].header.cuts, s).value)
    decreases n
  {
    CutCoveredAt(h, blockHash, w, n - 1, s);
    var cut, rs := CutFor(w.commits[n - 1].header.cuts, s).value, BatchReceipts(w, n - 1, s);
    var before := ShardHistory(w, n - 1, s);
    if n == 1 {
      FilledChained(w.states[n - 1].tip, cut, rs);
      assert before + rs == rs;
    } else {
      CutAbuts(h, blockHash, w, n - 1, s);
      CutsChain(h, blockHash, w, n - 1, s);
      ChainGrows(w.states[n - 1].tip, before, CutFor(w.commits[0].header.cuts, s).value.previousHeight, cut, rs);
    }
  }
}
