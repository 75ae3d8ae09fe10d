/** The Beacon's proposal validator and its store (pkg/netting/beacon). */
module Beacon {
  import opened Base
  import opened ByteStrings
  import opened Model
  import opened Sorting
  import opened MatchingProofs
  import opened Matcher
  import opened Builder

  /** A committed block; its body is the header of a batch. */
  datatype MatchRootBlock = MatchRootBlock(number: nat, parentHash: Hash, body: Header, commitTime: int)

  // ---- validateSequence ----

  predicate SequenceOk(header: Header, tip: Option<MatchRootBlock>) {
    match tip
    case None => header.windowId == 1 && header.previousBatchId == 0
    case Some(block) => header.windowId == block.body.windowId + 1 && header.previousBatchId == block.body.batchId
  }

  // ---- validateReceiptCoverage ----

  function ByHeight(): Receipt -> int {
    (r: Receipt) => r.height
  }

  function OfShardReceipts(rs: seq<Receipt>, s: Int64): seq<Receipt> {
    if rs == [] then [] else OfShardReceipts(rs[..|rs| - 1], s) + if rs[|rs| - 1].shardId == s then [rs[|rs| - 1]] else []
  }

  /** A shard's receipts in height order. */
  function ShardReceipts(rs: seq<Receipt>, s: Int64): seq<Receipt> {
    SortBy(OfShardReceipts(rs, s), ByHeight())
  }

  /** The last cut of a shard in a header. */
  function CutFor(cuts: seq<ShardCut>, s: Int64): Option<ShardCut> {
    if cuts == [] then None
    else if cuts[|cuts| - 1].shardId == s then Some(cuts[|cuts| - 1])
    else CutFor(cuts[..|cuts| - 1], s)
  }

  function PreviousCut(tip: Option<MatchRootBlock>, s: Int64): Option<ShardCut> {
    match tip case None => None case Some(block) => CutFor(block.body.cuts, s)
  }

  /** The hash the receipt at position i must name as its parent, if it must name one. */
  function ParentOf(previous: Option<ShardCut>, rs: seq<Receipt>, i: nat): Option<Hash>
    requires i <= |rs|
  {
    if i > 0 then Some(rs[i - 1].blockHash)
    else match previous case None => None case Some(cut) => Some(cut.endBlockHash)
  }

  ghost predicate ReceiptFits(cut: ShardCut, previous: Option<ShardCut>, rs: seq<Receipt>, i: nat)
    requires i < |rs|
  {
    && rs[i].height == cut.previousHeight + i + 1 && rs[i].shardId == cut.shardId
    && (ParentOf(previous, rs, i).Some? ==> rs[i].parentHash == ParentOf(previous, rs, i).value)
  }

  /** The cut starts where the tip left the shard. */
  ghost predicate CutFollows(tip: Option<MatchRootBlock>, cut: ShardCut) {
    && cut.endHeight >= cut.previousHeight
    && (tip.Some? ==> PreviousCut(tip, cut.shardId).Some? && cut.previousHeight == PreviousCut(tip, cut.shardId).value.endHeight)
  }

  /** Its receipts are the consecutive heights of the cut, hash-linked from the previous cut to its end. */
  ghost predicate CutFilled(tip: Option<MatchRootBlock>, cut: ShardCut, rs: seq<Receipt>) {
    var previous := PreviousCut(tip, cut.shardId);
    && |rs| == cut.endHeight - cut.previousHeight && (forall i: nat :: i < |rs| ==> ReceiptFits(cut, previous, rs, i))
    && (ParentOf(previous, rs, |rs|).Some? ==> cut.endBlockHash == ParentOf(previous, rs, |rs|).value)
  }

  ghost predicate CutCovered(tip: Option<MatchRootBlock>, cut: ShardCut, rs: seq<Receipt>) {
    CutFollows(tip, cut) && CutFilled(tip, cut, ShardReceipts(rs, cut.shardId))
  }

  ghost predicate Coverage(tip: Option<MatchRootBlock>, cuts: seq<ShardCut>, rs: seq<Receipt>) {
    && Distinct(cuts, ByShard()) && (forall i :: 0 <= i < |cuts| ==> CutCovered(tip, cuts[i], rs))
    && (forall r :: r in rs ==> exists i :: 0 <= i < |cuts| && cuts[i].shardId == r.shardId)
  }

  /** The intents in the order of the cuts and of their heights. */
  function CutIntents(cuts: seq<ShardCut>, rs: seq<Receipt>): seq<PaymentIntent> {
    if cuts == [] then [] else CutIntents(cuts[..|cuts| - 1], rs) + IntentsOf(ShardReceipts(rs, cuts[|cuts| - 1].shardId))
  }

  /** The highest non-negative epoch of the receipts. */
  function AcceptanceEpoch(rs: seq<Receipt>): nat {
    if rs == [] then 0 else
      var before, epoch := AcceptanceEpoch(rs[..|rs| - 1]), rs[|rs| - 1].epoch;
      if epoch >= 0 && epoch > before then epoch else before
  }

  // ---- Validate ----

  ghost predicate FreshIntent(h: Hasher, consumed: set<Hash>, epoch: nat, p: PaymentIntent) {
    IntentId(h, p).Ok? && IntentId(h, p).value !in consumed && p.expiryEpoch > epoch
  }

  ghost predicate FreshIntents(h: Hasher, consumed: set<Hash>, epoch: nat, ps: seq<PaymentIntent>) {
    (forall i :: 0 <= i < |ps| ==> FreshIntent(h, consumed, epoch, ps[i])) && Distinct(ps, IdRank(h))
  }

  /** The window the validator rebuilds a proposal from. */
  function WindowOf(p: Proposal, intents: seq<PaymentIntent>): Frozen {
    Frozen(p.header.windowId, p.header.cuts, p.sidecar.finalizedBlocks, intents)
  }

  ghost predicate Rederived(h: Hasher, p: Proposal, intents: seq<PaymentIntent>) {
    var expected := Built(h, WindowOf(p, intents), p.header.previousBatchId, p.header.matcherMode);
    && expected.Some? && expected.value.header == p.header && expected.value.sidecar.intentResults == p.sidecar.intentResults
    && expected.value.sidecar.shardSettlements == p.sidecar.shardSettlements
  }

  /** What Validate accepts. */
  ghost predicate Accepts(h: Hasher, tip: Option<MatchRootBlock>, consumed: set<Hash>, p: Proposal) {
    var rs := p.sidecar.finalizedBlocks;
    var intents := CutIntents(p.header.cuts, rs);
    && SequenceOk(p.header, tip) && Coverage(tip, p.header.cuts, rs) && FreshIntents(h, consumed, AcceptanceEpoch(rs), intents)
    && (forall i :: 0 <= i < |p.sidecar.intentResults| ==> ValidateResult(h, p.sidecar.intentResults[i]).Ok?)
    && Rederived(h, p, intents)
  }
}
