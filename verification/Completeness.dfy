/** Solver to Beacon: every batch the Solver builds from its sealed windows is one the Beacon accepts in turn. */
module SolverToBeacon {
  import opened Base
  import opened ByteStrings
  import opened Model
  import opened Sorting
  import opened Windows
  import opened WindowSeal
  import opened WindowStates
  import opened MatchingProofs
  import M = Matcher
  import B = Builder
  import P = BuilderProofs
  import opened Beacon
  import opened BeaconStore

  // ---- windows as the Builder sees them ----

  predicate Fits(w: FrozenWindow) {
    w.windowId < TWO_64 && forall s :: 0 <= s < |w.cuts| ==> w.cuts[s].previousHeight < TWO_64 && w.cuts[s].endHeight < TWO_64
  }

  function ToShardCut(c: Cut): ShardCut
    requires c.previousHeight < TWO_64 && c.endHeight < TWO_64
  {
    ShardCut(c.shardId, c.previousHeight, c.endHeight, c.endBlockHash)
  }

  function CutsFor(w: FrozenWindow): (cuts: seq<ShardCut>)
    requires Fits(w)
    ensures |cuts| == |w.cuts|
  {
    seq(|w.cuts|, s requires 0 <= s < |w.cuts| => ToShardCut(w.cuts[s]))
  }

  function FrozenOf(w: FrozenWindow): B.Frozen
    requires Fits(w)
  {
    B.Frozen(w.windowId, CutsFor(w), w.receipts, w.intents)
  }

  /** Everything known of window i of a manager's past. */
  ghost predicate Known(h: Hasher, cfg: Config, st: State, past: Past, i: nat) {
    Represents(h, cfg, st, past) && cfg.shardCount >= 0 && i < |past.history| && forall j :: 0 <= j <= i ==> Fits(past.history[j])
  }

  // ---- a window's blocks, shard by shard ----

  lemma {:induction false} OfShardConcat(a: seq<Receipt>, b: seq<Receipt>, s: Int64)
    ensures OfShardReceipts(a + b, s) == OfShardReceipts(a, s) + OfShardReceipts(b, s)
    decreases |b|
  {
    if b == [] {
      assert a + b == a;
    } else {
      var n := |b| - 1;
      assert (a + b)[..|a + b| - 1] == a + b[..n] && (a + b)[|a + b| - 1] == b[n];
      OfShardConcat(a, b[..n], s);
      ConcatAssociative(OfShardReceipts(a, s), OfShardReceipts(b[..n], s), if b[n].shardId == s then [b[n]] else []);
    }
  }

  lemma {:induction false} OfShardAll(rs: seq<Receipt>, s: Int64)
    requires forall i :: 0 <= i < |rs| ==> rs[i].shardId == s
    ensures OfShardReceipts(rs, s) == rs
    decreases |rs|
  {
    if rs != [] {
      var n := |rs| - 1;
      OfShardAll(rs[..n], s);
      assert rs == rs[..n] + [rs[n]];
    }
  }

  lemma {:induction false} OfShardNone(rs: seq<Receipt>, s: Int64)
    requires forall i :: 0 <= i < |rs| ==> rs[i].shardId != s
    ensures OfShardReceipts(rs, s) == []
    decreases |rs|
  {
    if rs != [] {
      OfShardNone(rs[..|rs| - 1], s);
    }
  }

  /** The blocks a window takes from shard s. */
  ghost function Slice(cfg: Config, past: Past, i: nat, s: int): seq<Receipt>
    requires CutsOk(cfg, past) && i < |past.history| && 0 <= s < cfg.shardCount
  {
    assert CutOk(cfg, past, i, s);
    Segment(past.checkpoints[s], past.chains[s], past.history[i].cuts[s].previousHeight, past.history[i].cuts[s].endHeight)
  }

  /** Block j of a slice is the accepted block of its height. */
  lemma SliceAt(h: Hasher, cfg: Config, st: State, past: Past, i: nat, s: int, j: nat)
    requires Represents(h, cfg, st, past) && i < |past.history| && 0 <= s < cfg.shardCount
    requires j < |Slice(cfg, past, i, s)|
    ensures var r, cut := Slice(cfg, past, i, s)[j], past.history[i].cuts[s];
      && |Slice(cfg, past, i, s)| == cut.endHeight - cut.previousHeight && r.shardId == s && r.height == cut.previousHeight + j + 1
      && Accepted(past, s, r.height) && Block(past, s, r.height) == r && r.parentHash == HashAt(past.checkpoints[s], past.chains[s], r.height - 1)
  {
    var cp, chain, cut := past.checkpoints[s], past.chains[s], past.history[i].cuts[s];
    assert CutOk(cfg, past, i, s);
    var k := cut.previousHeight + j + 1;
    assert Linked(h, s, cp, chain);
    assert LinkedAt(h, s, cp, chain, k);
    assert Slice(cfg, past, i, s)[j] == BlockAt(cp, chain, k);
  }

  lemma SliceShard(h: Hasher, cfg: Config, st: State, past: Past, i: nat, s: int)
    requires Represents(h, cfg, st, past) && i < |past.history| && 0 <= s < cfg.shardCount
    ensures forall j :: 0 <= j < |Slice(cfg, past, i, s)| ==> Slice(cfg, past, i, s)[j].shardId == s
  {
    forall j | 0 <= j < |Slice(cfg, past, i, s)| ensures Slice(cfg, past, i, s)[j].shardId == s {
      SliceAt(h, cfg, st, past, i, s, j);
    }
  }

  lemma BlocksNext(cfg: Config, past: Past, i: nat, n: nat)
    requires CutsOk(cfg, past) && i < |past.history| && n < cfg.shardCount
    ensures WindowBlocks(cfg, past, i, n + 1) == WindowBlocks(cfg, past, i, n) + Slice(cfg, past, i, n)
  {
  }

  ghost predicate OwnShard(rs: seq<Receipt>, s: int) {
    forall j :: 0 <= j < |rs| ==> rs[j].shardId == s
  }

  lemma OfOwnShard(front: seq<Receipt>, slice: seq<Receipt>, u: int, s: Int64)
    requires OwnShard(slice, u)
    ensures OfShardReceipts(front + slice, s) == OfShardReceipts(front, s) + if s == u then slice else []
  {
    OfShardConcat(front, slice, s);
    if s == u {
      OfShardAll(slice, s);
    } else {
      OfShardNone(slice, s);
    }
  }

  ghost predicate OwnShards(cfg: Config, past: Past, i: nat)
    requires CutsOk(cfg, past) && i < |past.history|
  {
    forall u :: 0 <= u < cfg.shardCount ==> OwnShard(Slice(cfg, past, i, u), u)
  }

  /** What one more shard adds to the blocks of shard s. */
  lemma OfShardNext(cfg: Config, past: Past, i: nat, n: nat, s: Int64)
    requires CutsOk(cfg, past) && i < |past.history| && n < cfg.shardCount && OwnShards(cfg, past, i)
    ensures OfShardReceipts(WindowBlocks(cfg, past, i, n + 1), s) ==
      OfShardReceipts(WindowBlocks(cfg, past, i, n), s) + if s == n then Slice(cfg, past, i, n) else []
  {
    BlocksNext(cfg, past, i, n);
    OfOwnShard(WindowBlocks(cfg, past, i, n), Slice(cfg, past, i, n), n, s);
  }

  lemma {:induction false} BlocksOfShard(cfg: Config, past: Past, i: nat, n: nat, s: Int64)
    requires CutsOk(cfg, past) && i < |past.history| && n <= cfg.shardCount && OwnShards(cfg, past, i)
    requires 0 <= s < cfg.shardCount
    ensures OfShardReceipts(WindowBlocks(cfg, past, i, n), s) == if s < n then Slice(cfg, past, i, s) else []
    decreases n
  {
    if n > 0 {
      BlocksOfShard(cfg, past, i, n - 1, s);
      OfShardNext(cfg, past, i, n - 1, s);
    }
  }

  lemma SliceSorted(h: Hasher, cfg: Config, st: State, past: Past, i: nat, s: int)
    requires Represents(h, cfg, st, past) && i < |past.history| && 0 <= s < cfg.shardCount
    ensures SortBy(Slice(cfg, past, i, s), ByHeight()) == Slice(cfg, past, i, s)
  {
    var slice := Slice(cfg, past, i, s);
    forall j, k | 0 <= j < k < |slice| ensures ByHeight()(slice[j]) < ByHeight()(slice[k]) {
      SliceAt(h, cfg, st, past, i, s, j);
      SliceAt(h, cfg, st, past, i, s, k);
    }
    SortByProperties(slice, ByHeight());
    SortedUnique(slice, SortBy(slice, ByHeight()), ByHeight());
  }

  /** The validator finds exactly the window's slice of every shard. */
  lemma ReceiptsOfShard(h: Hasher, cfg: Config, st: State, past: Past, i: nat, s: Int64)
    requires Represents(h, cfg, st, past) && i < |past.history| && 0 <= s < cfg.shardCount
    ensures ShardReceipts(past.history[i].receipts, s) == Slice(cfg, past, i, s)
  {
    assert WindowOk(h, cfg, past, i);
    forall u | 0 <= u < cfg.shardCount ensures OwnShard(Slice(cfg, past, i, u), u) {
      SliceShard(h, cfg, st, past, i, u);
    }
    BlocksOfShard(cfg, past, i, cfg.shardCount, s);
    SliceSorted(h, cfg, st, past, i, s);
  }

  // ---- coverage ----

  /** Cuts numbered by their shard. */
  ghost predicate Numbered(cuts: seq<ShardCut>) {
    forall k :: 0 <= k < |cuts| ==> cuts[k].shardId == k
  }

  lemma {:induction false} NumberedCutFor(cuts: seq<ShardCut>, s: Int64)
    requires Numbered(cuts)
    ensures CutFor(cuts, s) == if 0 <= s < |cuts| then Some(cuts[s]) else None
    decreases |cuts|
  {
    if cuts != [] && cuts[|cuts| - 1].shardId != s {
      NumberedCutFor(cuts[..|cuts| - 1], s);
    }
  }

  lemma NumberedSorted(cuts: seq<ShardCut>)
    requires Numbered(cuts)
    ensures SortBy(cuts, B.ByShard()) == cuts && Distinct(cuts, B.ByShard())
  {
    forall i, j | 0 <= i < j < |cuts| ensures B.ByShard()(cuts[i]) < B.ByShard()(cuts[j]) {
    }
    SortByProperties(cuts, B.ByShard());
    SortedUnique(cuts, SortBy(cuts, B.ByShard()), B.ByShard());
  }

  lemma WindowCuts(h: Hasher, cfg: Config, st: State, past: Past, i: nat)
    requires Known(h, cfg, st, past, i)
    ensures var cuts := CutsFor(past.history[i]); |cuts| == cfg.shardCount && Numbered(cuts) && B.GoodCuts(cuts) && SortBy(cuts, B.ByShard()) == cuts
  {
    var cuts := CutsFor(past.history[i]);
    forall s | 0 <= s < cfg.shardCount ensures cuts[s].shardId == s && cuts[s].endHeight >= cuts[s].previousHeight {
      assert CutOk(cfg, past, i, s);
    }
    NumberedSorted(cuts);
  }

  /** The tip before window i: none, or a block with the previous batch's cuts. */
  ghost predicate TipBefore(past: Past, i: nat, tip: Option<MatchRootBlock>)
    requires i < |past.history| && forall j :: 0 <= j < i ==> Fits(past.history[j])
  {
    if i == 0 then tip == None else tip.Some? && tip.value.body.cuts == CutsFor(past.history[i - 1])
  }

  lemma PreviousCutIs(h: Hasher, cfg: Config, st: State, past: Past, i: nat, tip: Option<MatchRootBlock>, s: Int64)
    requires Known(h, cfg, st, past, i) && TipBefore(past, i, tip) && 0 <= s < cfg.shardCount
    ensures i == 0 ==> PreviousCut(tip, s) == None
    ensures i > 0 ==> PreviousCut(tip, s).Some? && PreviousCut(tip, s).value.endHeight == past.history[i].cuts[s].previousHeight
    ensures i > 0 ==>
      var cut := past.history[i].cuts[s];
      past.checkpoints[s].height <= cut.previousHeight <= Top(past.checkpoints[s], past.chains[s]) &&
      PreviousCut(tip, s).value.endBlockHash == HashAt(past.checkpoints[s], past.chains[s], cut.previousHeight)
  {
    assert CutOk(cfg, past, i, s);
    if i > 0 {
      assert Known(h, cfg, st, past, i - 1);
      WindowCuts(h, cfg, st, past, i - 1);
      NumberedCutFor(CutsFor(past.history[i - 1]), s);
      assert CutOk(cfg, past, i - 1, s);
    }
  }

  lemma SliceFits(h: Hasher, cfg: Config, st: State, past: Past, i: nat, tip: Option<MatchRootBlock>, s: Int64, j: nat)
    requires Known(h, cfg, st, past, i) && TipBefore(past, i, tip) && 0 <= s < cfg.shardCount
    requires j < |Slice(cfg, past, i, s)|
    ensures ReceiptFits(CutsFor(past.history[i])[s], PreviousCut(tip, s), Slice(cfg, past, i, s), j)
  {
    PreviousCutIs(h, cfg, st, past, i, tip, s);
    SliceAt(h, cfg, st, past, i, s, j);
    assert CutOk(cfg, past, i, s);
    if j > 0 {
      SliceAt(h, cfg, st, past, i, s, j - 1);
    }
  }

  lemma SliceFills(h: Hasher, cfg: Config, st: State, past: Past, i: nat, tip: Option<MatchRootBlock>, s: Int64)
    requires Known(h, cfg, st, past, i) && TipBefore(past, i, tip) && 0 <= s < cfg.shardCount
    ensures CutFollows(tip, CutsFor(past.history[i])[s]) && CutFilled(tip, CutsFor(past.history[i])[s], Slice(cfg, past, i, s))
  {
    var slice := Slice(cfg, past, i, s);
    assert CutOk(cfg, past, i, s);
    PreviousCutIs(h, cfg, st, past, i, tip, s);
    forall j: nat | j < |slice| ensures ReceiptFits(CutsFor(past.history[i])[s], PreviousCut(tip, s), slice, j) {
      SliceFits(h, cfg, st, past, i, tip, s, j);
    }
    if slice != [] {
      SliceAt(h, cfg, st, past, i, s, |slice| - 1);
    }
  }

  lemma {:induction false} BlocksNamed(cfg: Config, past: Past, i: nat, n: nat, r: Receipt)
    requires CutsOk(cfg, past) && i < |past.history| && n <= cfg.shardCount && r in WindowBlocks(cfg, past, i, n)
    requires OwnShards(cfg, past, i)
    ensures 0 <= r.shardId < n && r in Slice(cfg, past, i, r.shardId)
    decreases n
  {
    BlocksNext(cfg, past, i, n - 1);
    if r in WindowBlocks(cfg, past, i, n - 1) {
      BlocksNamed(cfg, past, i, n - 1, r);
    } else {
      var slice := Slice(cfg, past, i, n - 1);
      assert OwnShard(slice, n - 1);
      var j :| 0 <= j < |slice| && slice[j] == r;
    }
  }

  /** A block of a window is in the slice of its shard. */
  lemma ReceiptInSlice(h: Hasher, cfg: Config, st: State, past: Past, i: nat, r: Receipt)
    requires Represents(h, cfg, st, past) && i < |past.history| && r in past.history[i].receipts && cfg.shardCount >= 0
    ensures 0 <= r.shardId < cfg.shardCount && r in Slice(cfg, past, i, r.shardId)
  {
    assert WindowOk(h, cfg, past, i);
    forall u | 0 <= u < cfg.shardCount ensures OwnShard(Slice(cfg, past, i, u), u) {
      SliceShard(h, cfg, st, past, i, u);
    }
    BlocksNamed(cfg, past, i, cfg.shardCount, r);
  }

  /** The receipts of a sealed window cover its cuts against the previous batch. */
  lemma WindowCoverage(h: Hasher, cfg: Config, st: State, past: Past, i: nat, tip: Option<MatchRootBlock>)
    requires Known(h, cfg, st, past, i) && TipBefore(past, i, tip)
    ensures Coverage(tip, CutsFor(past.history[i]), past.history[i].receipts)
  {
    var cuts, rs := CutsFor(past.history[i]), past.history[i].receipts;
    WindowCuts(h, cfg, st, past, i);
    forall s | 0 <= s < |cuts| ensures CutCovered(tip, cuts[s], rs) {
      ReceiptsOfShard(h, cfg, st, past, i, s);
      SliceFills(h, cfg, st, past, i, tip, s);
    }
    forall r | r in rs ensures exists s :: 0 <= s < |cuts| && cuts[s].shardId == r.shardId {
      ReceiptInSlice(h, cfg, st, past, i, r);
      assert cuts[r.shardId].shardId == r.shardId;
    }
  }

  // ---- intents ----

  lemma CutIntentsNext(cuts: seq<ShardCut>, rs: seq<Receipt>, n: nat)
    requires n < |cuts|
    ensures CutIntents(cuts[..n + 1], rs) == CutIntents(cuts[..n], rs) + IntentsOf(ShardReceipts(rs, cuts[n].shardId))
  {
    assert cuts[..n + 1][..n] == cuts[..n] && cuts[..n + 1][n] == cuts[n];
  }

  lemma BlockIntentsNext(h: Hasher, cfg: Config, st: State, past: Past, i: nat, n: Int64)
    requires Represents(h, cfg, st, past) && i < |past.history| && 0 <= n < cfg.shardCount
    ensures IntentsOf(WindowBlocks(cfg, past, i, n + 1)) ==
      IntentsOf(WindowBlocks(cfg, past, i, n)) + IntentsOf(ShardReceipts(past.history[i].receipts, n))
  {
    ReceiptsOfShard(h, cfg, st, past, i, n);
    BlocksNext(cfg, past, i, n);
    IntentsConcat(WindowBlocks(cfg, past, i, n), Slice(cfg, past, i, n));
  }

  lemma {:induction false} CutIntentsAre(h: Hasher, cfg: Config, st: State, past: Past, i: nat, n: nat)
    requires Known(h, cfg, st, past, i) && n <= cfg.shardCount && |CutsFor(past.history[i])| == cfg.shardCount
    requires Numbered(CutsFor(past.history[i]))
    ensures CutIntents(CutsFor(past.history[i])[..n], past.history[i].receipts) == IntentsOf(WindowBlocks(cfg, past, i, n))
    decreases n
  {
    if n > 0 {
      CutIntentsAre(h, cfg, st, past, i, n - 1);
      CutIntentsNext(CutsFor(past.history[i]), past.history[i].receipts, n - 1);
      BlockIntentsNext(h, cfg, st, past, i, n - 1);
    }
  }

  /** The validator collects the window's intents, in the order of its receipts. */
  lemma WindowIntents(h: Hasher, cfg: Config, st: State, past: Past, i: nat)
    requires Known(h, cfg, st, past, i)
    ensures var intents := CutIntents(CutsFor(past.history[i]), past.history[i].receipts);
      intents == IntentsOf(past.history[i].receipts) && multiset(intents) == multiset(past.history[i].intents)
  {
    var cuts := CutsFor(past.history[i]);
    WindowCuts(h, cfg, st, past, i);
    CutIntentsAre(h, cfg, st, past, i, cfg.shardCount);
    assert cuts[..cfg.shardCount] == cuts;
    assert WindowOk(h, cfg, past, i);
  }

  /** An intent of a window sits in an accepted block between the window's cuts. */
  lemma IntentPlace(h: Hasher, cfg: Config, st: State, past: Past, i: nat, p: PaymentIntent) returns (s: int, k: nat)
    requires Represents(h, cfg, st, past) && i < |past.history| && p in past.history[i].intents && cfg.shardCount >= 0
    ensures 0 <= s < cfg.shardCount && Holds(h, past, s, k, IdOf(h, p)) && IntentId(h, p) == Ok(IdOf(h, p))
    ensures past.history[i].cuts[s].previousHeight < k <= past.history[i].cuts[s].endHeight
  {
    var rs := past.history[i].receipts;
    assert WindowOk(h, cfg, past, i);
    SameElements(past.history[i].intents, IntentsOf(rs));
    IntentsMembers(rs, p);
    var a :| 0 <= a < |rs| && p in rs[a].intents;
    ReceiptInSlice(h, cfg, st, past, i, rs[a]);
    s := rs[a].shardId;
    var slice := Slice(cfg, past, i, s);
    var j :| 0 <= j < |slice| && slice[j] == rs[a];
    SliceAt(h, cfg, st, past, i, s, j);
    k := rs[a].height;
    BlockIdentified(h, cfg, st, past, s, k);
    var m :| 0 <= m < |rs[a].intents| && rs[a].intents[m] == p;
    assert IdOf(h, rs[a].intents[m]) == IdOf(h, p);
  }

  lemma {:induction false} EndsGrow(cfg: Config, past: Past, i: nat, j: nat, s: int)
    requires CutsOk(cfg, past) && i < j < |past.history| && 0 <= s < cfg.shardCount
    ensures past.history[i].cuts[s].endHeight <= past.history[j].cuts[s].previousHeight
    decreases j
  {
    assert CutOk(cfg, past, j, s);
    if i < j - 1 {
      EndsGrow(cfg, past, i, j - 1, s);
      assert CutOk(cfg, past, j - 1, s);
    }
  }

  /** No intent is in two windows. */
  lemma WindowsDisjoint(
    h: Hasher, cfg: Config, st: State, past: Past, i: nat, j: nat, p: PaymentIntent, q: PaymentIntent)
    requires Represents(h, cfg, st, past) && i < j < |past.history| && cfg.shardCount >= 0
    requires p in past.history[i].intents && q in past.history[j].intents
    ensures IdOf(h, p) != IdOf(h, q)
  {
    var s, k := IntentPlace(h, cfg, st, past, i, p);
    var t, l := IntentPlace(h, cfg, st, past, j, q);
    if s == t {
      EndsGrow(cfg, past, i, j, s);
    }
  }

  // ---- the chain of batches ----

  ghost function PreviousId(batches: seq<Proposal>, i: nat): Hash
    requires i <= |batches|
  {
    if i == 0 then 0 else batches[i - 1].header.batchId
  }

  /** Batch i is built from window i on top of batch i - 1. */
  ghost predicate SolverChain(h: Hasher, past: Past, mode: string, batches: seq<Proposal>) {
    && |batches| <= |past.history| && (forall i :: 0 <= i < |batches| ==> Fits(past.history[i]))
    && (forall i: nat :: i < |batches| ==> BuiltAt(h, past, mode, batches, i))
  }

  ghost predicate BuiltAt(h: Hasher, past: Past, mode: string, batches: seq<Proposal>, i: nat)
    requires i < |batches| && i < |past.history| && Fits(past.history[i])
  {
    batches[i] in BatchesFrom(h, past.history[i], PreviousId(batches, i), mode)
  }

  /** What the Builder makes of a window: one proposal or none. */
  ghost function BatchesFrom(h: Hasher, w: FrozenWindow, previous: Hash, mode: string): iset<Proposal>
    requires Fits(w)
  {
    iset p | B.Built(h, FrozenOf(w), previous, mode) == Some(p)
  }

  /** The Beacon after the first i batches: its tip is the last of them and it has consumed their intents. */
  ghost predicate BeaconAfter(batches: seq<Proposal>, i: nat, tip: Option<MatchRootBlock>, consumed: set<Hash>)
    requires i <= |batches|
  {
    && (if i == 0 then tip == None else tip.Some? && tip.value.body == batches[i - 1].header)
    && (forall id :: id in consumed <==> exists j: nat :: j < i && Consumes(batches[j], id))
  }

  ghost predicate Unexpired(w: FrozenWindow) {
    forall p :: p in w.intents ==> p.expiryEpoch > AcceptanceEpoch(w.receipts)
  }

  /** What a batch consumes are its window's intents. */
  lemma ConsumedIntent(
    h: Hasher, past: Past, mode: string, batches: seq<Proposal>, j: nat, id: Hash) returns (p: PaymentIntent)
    requires SolverChain(h, past, mode, batches) && j < |batches| && Consumes(batches[j], id)
    ensures p in past.history[j].intents && IntentId(h, p) == Ok(id)
  {
    var w, b := FrozenOf(past.history[j]), batches[j];
    assert BuiltAt(h, past, mode, batches, j);
    P.BuiltDerived(h, w, PreviousId(batches, j), mode);
    var k :| 0 <= k < |b.sidecar.intentResults| && b.sidecar.intentResults[k].intentId == id;
    B.ResultsOrdered(h, w.intents, mode);
    P.ResultAt(h, w.intents, mode, k);
    P.BookFacts(h, w.intents);
    p := b.sidecar.intentResults[k].intent;
  }

  lemma IntentFresh(
    h: Hasher, cfg: Config, st: State, past: Past, mode: string, batches: seq<Proposal>, i: nat,
    tip: Option<MatchRootBlock>, consumed: set<Hash>, p: PaymentIntent)
    requires Known(h, cfg, st, past, i) && SolverChain(h, past, mode, batches) && i < |batches|
    requires BeaconAfter(batches, i, tip, consumed)
    requires Unexpired(past.history[i]) && p in past.history[i].intents
    ensures FreshIntent(h, consumed, AcceptanceEpoch(past.history[i].receipts), p)
  {
    var s, k := IntentPlace(h, cfg, st, past, i, p);
    var id := IdOf(h, p);
    if id in consumed {
      var j: nat :| j < i && Consumes(batches[j], id);
      var q := ConsumedIntent(h, past, mode, batches, j, id);
      WindowsDisjoint(h, cfg, st, past, j, i, q, p);
    }
  }

  lemma IntentsFresh(
    h: Hasher, cfg: Config, st: State, past: Past, mode: string, batches: seq<Proposal>, i: nat,
    tip: Option<MatchRootBlock>, consumed: set<Hash>)
    requires Known(h, cfg, st, past, i) && SolverChain(h, past, mode, batches) && i < |batches|
    requires BeaconAfter(batches, i, tip, consumed)
    requires Unexpired(past.history[i])
    ensures FreshIntents(h, consumed, AcceptanceEpoch(past.history[i].receipts), IntentsOf(past.history[i].receipts))
  {
    var w := past.history[i];
    var ps := IntentsOf(w.receipts);
    assert WindowOk(h, cfg, past, i);
    SameElements(w.intents, ps);
    DistinctPermutes(w.intents, ps, IdRankOf(h));
    forall j | 0 <= j < |ps| ensures FreshIntent(h, consumed, AcceptanceEpoch(w.receipts), ps[j]) && M.IdRank(h)(ps[j]) == IdRankOf(h)(ps[j]) {
      assert ps[j] in ps && ps[j] in w.intents;
      IntentFresh(h, cfg, st, past, mode, batches, i, tip, consumed, ps[j]);
    }
    forall j, k | 0 <= j < k < |ps| ensures M.IdRank(h)(ps[j]) != M.IdRank(h)(ps[k]) {
      assert IdRankOf(h)(ps[j]) != IdRankOf(h)(ps[k]);
    }
  }

  // ---- the validator rederives the batch ----

  lemma BuiltNormalized(h: Hasher, frozen: B.Frozen, previous: Hash, mode: string)
    ensures B.Built(h, frozen, previous, NormalizeMode(mode)) == B.Built(h, frozen, previous, mode)
  {
    B.NormalizeTwice(mode);
  }

  lemma BatchRederived(h: Hasher, cfg: Config, st: State, past: Past, mode: string, batches: seq<Proposal>, i: nat)
    requires Known(h, cfg, st, past, i) && SolverChain(h, past, mode, batches) && i < |batches|
    ensures Rederived(h, batches[i], IntentsOf(past.history[i].receipts))
  {
    var w, b, previous := FrozenOf(past.history[i]), batches[i], PreviousId(batches, i);
    assert BuiltAt(h, past, mode, batches, i);
    P.BuiltDerived(h, w, previous, mode);
    WindowCuts(h, cfg, st, past, i);
    WindowIntents(h, cfg, st, past, i);
    var again := WindowOf(b, IntentsOf(past.history[i].receipts));
    P.BuiltOrderIndependent(h, w, again, previous, mode);
    BuiltNormalized(h, again, previous, mode);
  }

  /**
   * Completeness: whatever receipts the Solver saw, and in whatever order, the batch it builds from its i-th window is
   * accepted by the Beacon whose tip is the previous batch - though the Beacon rebuilds it from the receipts' order.
   */
  lemma SolverBatchAccepted(
    h: Hasher, cfg: Config, st: State, past: Past, mode: string, batches: seq<Proposal>, i: nat,
    tip: Option<MatchRootBlock>, consumed: set<Hash>)
    requires Known(h, cfg, st, past, i) && SolverChain(h, past, mode, batches) && i < |batches|
    requires BeaconAfter(batches, i, tip, consumed)
    requires Unexpired(past.history[i])
    ensures Accepts(h, tip, consumed, batches[i])
  {
    var b, w := batches[i], past.history[i];
    BatchShape(h, cfg, st, past, mode, batches, i);
    TipIsBefore(h, cfg, st, past, mode, batches, i, tip, consumed);
    WindowCoverage(h, cfg, st, past, i, tip);
    WindowIntents(h, cfg, st, past, i);
    IntentsFresh(h, cfg, st, past, mode, batches, i, tip, consumed);
    BatchRederived(h, cfg, st, past, mode, batches, i);
  }

  lemma BatchShape(h: Hasher, cfg: Config, st: State, past: Past, mode: string, batches: seq<Proposal>, i: nat)
    requires Known(h, cfg, st, past, i) && SolverChain(h, past, mode, batches) && i < |batches|
    ensures var b := batches[i];
      && b.header.cuts == CutsFor(past.history[i]) && b.sidecar.finalizedBlocks == past.history[i].receipts
      && b.header.windowId == i + 1 && b.header.previousBatchId == PreviousId(batches, i) && P.ValidResults(h, b.sidecar.intentResults)
  {
    var w := FrozenOf(past.history[i]);
    assert BuiltAt(h, past, mode, batches, i);
    P.BuiltDerived(h, w, PreviousId(batches, i), mode);
    P.ResultsValid(h, w, mode);
    WindowCuts(h, cfg, st, past, i);
  }

  lemma TipIsBefore(
    h: Hasher, cfg: Config, st: State, past: Past, mode: string, batches: seq<Proposal>, i: nat,
    tip: Option<MatchRootBlock>, consumed: set<Hash>)
    requires Known(h, cfg, st, past, i) && SolverChain(h, past, mode, batches) && i < |batches|
    requires BeaconAfter(batches, i, tip, consumed)
    ensures TipBefore(past, i, tip) && SequenceOk(batches[i].header, tip)
  {
    BatchShape(h, cfg, st, past, mode, batches, i);
    if i > 0 {
      assert Known(h, cfg, st, past, i - 1);
      BatchShape(h, cfg, st, past, mode, batches, i - 1);
    }
  }

  /** Well-formed intents to shards of the network always make a batch. */
  lemma WindowBuilds(h: Hasher, cfg: Config, st: State, past: Past, i: nat, previous: Hash, mode: string)
    requires Known(h, cfg, st, past, i) && M.Acceptable(h, past.history[i].intents)
    requires forall p :: p in past.history[i].intents ==> 0 <= p.destinationShard < cfg.shardCount
    ensures B.Built(h, FrozenOf(past.history[i]), previous, mode).Some?
  {
    var w := FrozenOf(past.history[i]);
    WindowCuts(h, cfg, st, past, i);
    var ids := B.ShardIds(w.cuts);
    assert WindowOk(h, cfg, past, i);
    forall k | 0 <= k < |w.intents| ensures B.Spans(ids, w.intents[k]) {
      var p := w.intents[k];
      assert p in w.intents;
      SourceShard(h, cfg, st, past, i, p);
      assert ids[p.sourceShard] == p.sourceShard && ids[p.destinationShard] == p.destinationShard;
    }
    P.BuildableIff(h, w, previous, mode);
  }

  lemma SourceShard(h: Hasher, cfg: Config, st: State, past: Past, i: nat, p: PaymentIntent)
    requires Represents(h, cfg, st, past) && i < |past.history| && p in past.history[i].intents && cfg.shardCount >= 0
    ensures 0 <= p.sourceShard < cfg.shardCount
  {
    var rs := past.history[i].receipts;
    assert WindowOk(h, cfg, past, i);
    SameElements(past.history[i].intents, IntentsOf(rs));
    IntentsMembers(rs, p);
    var a :| 0 <= a < |rs| && p in rs[a].intents;
    ReceiptInSlice(h, cfg, st, past, i, rs[a]);
    var slice := Slice(cfg, past, i, rs[a].shardId);
    var j :| 0 <= j < |slice| && slice[j] == rs[a];
    SliceAt(h, cfg, st, past, i, rs[a].shardId, j);
    BlockIdentified(h, cfg, st, past, rs[a].shardId, rs[a].height);
    var m :| 0 <= m < |rs[a].intents| && rs[a].intents[m] == p;
  }
}
