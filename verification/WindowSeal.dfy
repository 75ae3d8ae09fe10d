/** Sealing a Vector-Cut window: the window it makes holds exactly the open blocks and the pending intents. */
module WindowSeal {
  import opened Base
  import opened ByteStrings
  import opened Model
  import opened Sorting
  import opened Windows
  import opened WindowSteps

  // ---- the window a state seals to ----

  /** The blocks of a map at heights above a and up to b, in height order. */
  function RunOf(blocks: map<nat, Receipt>, a: nat, b: nat): seq<Receipt> {
    if b <= a then [] else RunOf(blocks, a, b - 1) + if b in blocks then [blocks[b]] else []
  }

  ghost predicate HasFirst(st: State, n: int) {
    forall s :: 0 <= s < n ==> s in st.streams && s in st.lastAssigned
  }

  ghost predicate HasShards(cfg: Config, st: State) {
    HasFirst(st, cfg.shardCount)
  }

  /** The open blocks of the first n shards. */
  ghost function OpenBlocks(st: State, n: nat): seq<Receipt>
    requires HasFirst(st, n)
  {
    if n == 0 then [] else OpenBlocks(st, n - 1) + RunOf(st.streams[n - 1].unassigned, st.lastAssigned[n - 1], st.streams[n - 1].continuousHeight)
  }

  function CutOf(st: State, s: Int64): Cut
    requires s in st.streams && s in st.lastAssigned
  {
    Cut(s, st.lastAssigned[s], st.streams[s].continuousHeight, st.streams[s].continuousHash)
  }

  /** The cuts of the first n shards. */
  ghost function CutsOf(cfg: Config, st: State, n: nat): (cuts: seq<Cut>)
    requires HasShards(cfg, st) && n <= cfg.shardCount
    ensures |cuts| == n && forall s :: 0 <= s < n ==> cuts[s] == CutOf(st, s)
  {
    if n == 0 then [] else CutsOf(cfg, st, n - 1) + [CutOf(st, n - 1)]
  }

  function Self(): Hash -> int {
    (id: Hash) => id
  }

  /** The pending intents in identifier order. */
  ghost function SortedPending(pending: map<Hash, PaymentIntent>): seq<PaymentIntent> {
    var ids := Ordered(pending.Keys, Self());
    seq(|ids|, i requires 0 <= i < |ids| => pending[ids[i]])
  }

  ghost function SealedWindow(cfg: Config, st: State, reason: string, now: int): FrozenWindow
    requires HasShards(cfg, st) && st.openedAt.Some? && cfg.shardCount >= 0
  {
    FrozenWindow(st.nextWindowId, st.openedAt.value, now, reason,
      CutsOf(cfg, st, cfg.shardCount), OpenBlocks(st, cfg.shardCount), SortedPending(st.pending))
  }

  /** The stream once the blocks above `last` and up to the watermark are in a window. */
  function Emptied(x: Stream, last: nat): Stream {
    x.(unassigned := map k | k in x.unassigned && !(last < k <= x.continuousHeight) :: x.unassigned[k])
  }

  /** The last assigned heights and the streams once the first n shards are cut. */
  ghost function HeightsTo(cfg: Config, st: State, n: nat): (r: map<int, nat>)
    requires HasShards(cfg, st) && n <= cfg.shardCount
    ensures r.Keys == st.lastAssigned.Keys && forall s :: s in r ==> r[s] == if 0 <= s < n then st.streams[s].continuousHeight else st.lastAssigned[s]
  {
    if n == 0 then st.lastAssigned else HeightsTo(cfg, st, n - 1)[n - 1 := st.streams[n - 1].continuousHeight]
  }

  ghost function StreamsTo(cfg: Config, st: State, n: nat): (r: map<int, Stream>)
    requires HasShards(cfg, st) && n <= cfg.shardCount
    ensures r.Keys == st.streams.Keys && forall s :: s in r ==> r[s] == if 0 <= s < n then Emptied(st.streams[s], st.lastAssigned[s]) else st.streams[s]
  {
    if n == 0 then st.streams else StreamsTo(cfg, st, n - 1)[n - 1 := Emptied(st.streams[n - 1], st.lastAssigned[n - 1])]
  }

  /** The assignments once every pending intent is given to window w. */
  function Assigning(assignedTo: map<Hash, nat>, pending: map<Hash, PaymentIntent>, w: nat): (r: map<Hash, nat>)
    ensures r.Keys == assignedTo.Keys + pending.Keys
  {
    map id | id in assignedTo.Keys + pending.Keys :: if id in pending then w else assignedTo[id]
  }

  ghost function Seal(cfg: Config, st: State, reason: string, now: int): State
    requires HasShards(cfg, st) && st.openedAt.Some? && cfg.shardCount >= 0
  {
    State(st.nextWindowId + 1, None, map[],
      Assigning(st.assignedTo, st.pending, st.nextWindowId),
      HeightsTo(cfg, st, cfg.shardCount), StreamsTo(cfg, st, cfg.shardCount),
      st.frozen + [SealedWindow(cfg, st, reason, now)])
  }

  ghost function Sealed(past: Past, w: FrozenWindow): Past {
    past.(history := past.history + [w])
  }

  // ---- the open blocks are the segments past the last window ----

  lemma {:induction false} RunIsSegment(x: Stream, cp: Checkpoint, chain: seq<Receipt>, last: nat, b: nat)
    requires cp.height <= last <= b <= Top(cp, chain) && UnassignedOf(x, cp, chain, last)
    ensures RunOf(x.unassigned, last, b) == Segment(cp, chain, last, b)
    decreases b
  {
    if last < b {
      RunIsSegment(x, cp, chain, last, b - 1);
      assert Segment(cp, chain, last, b) == Segment(cp, chain, last, b - 1) + [BlockAt(cp, chain, b)];
    }
  }

  lemma SealedCut(cfg: Config, st: State, past: Past, s: int)
    requires HasShards(cfg, st) && StreamsOf(cfg, st, past) && HistoryOk'(cfg, st, past) && 0 <= s < cfg.shardCount
    ensures var cut := CutOf(st, s);
      var cp, chain := past.checkpoints[s], past.chains[s];
      && cut.shardId == s && cut.previousHeight == EndOf(past, |past.history|, s) && cp.height <= cut.previousHeight <= cut.endHeight
      && cut.endHeight == Top(cp, chain) && cut.endBlockHash == HashAt(cp, chain, cut.endHeight)
  {
    assert StreamOf(s, st.streams[s], past.checkpoints[s], past.chains[s], st.lastAssigned[s]);
  }

  /** The cuts part of HistoryOk. */
  ghost predicate HistoryOk'(cfg: Config, st: State, past: Past) {
    CutsOk(cfg, past) && forall s :: 0 <= s < cfg.shardCount ==> s in st.lastAssigned && st.lastAssigned[s] == EndOf(past, |past.history|, s)
  }

  ghost predicate CutsAt(cfg: Config, st: State, cuts: seq<Cut>)
    requires HasShards(cfg, st)
  {
    |cuts| == cfg.shardCount && forall s :: 0 <= s < cfg.shardCount ==> cuts[s] == CutOf(st, s)
  }

  lemma SealedCuts(cfg: Config, st: State, past: Past, w: FrozenWindow)
    requires HasShards(cfg, st) && StreamsOf(cfg, st, past) && HistoryOk'(cfg, st, past) && CutsAt(cfg, st, w.cuts)
    ensures CutsOk(cfg, Sealed(past, w))
  {
    var after := Sealed(past, w);
    forall i: nat, s | i < |after.history| && 0 <= s < cfg.shardCount ensures CutOk(cfg, after, i, s) {
      if i < |past.history| {
        assert CutOk(cfg, past, i, s);
      } else {
        SealedCut(cfg, st, past, s);
      }
    }
  }

  lemma {:induction false} SealedOldBlocks(cfg: Config, past: Past, w: FrozenWindow, i: nat, n: nat)
    requires CutsOk(cfg, past) && CutsOk(cfg, Sealed(past, w)) && i < |past.history| && n <= cfg.shardCount
    ensures WindowBlocks(cfg, Sealed(past, w), i, n) == WindowBlocks(cfg, past, i, n)
    decreases n
  {
    if n > 0 {
      SealedOldBlocks(cfg, past, w, i, n - 1);
      assert CutOk(cfg, past, i, n - 1);
      assert CutOk(cfg, Sealed(past, w), i, n - 1);
    }
  }

  /** The new window takes from a shard what is open there. */
  lemma SealedSegment(cfg: Config, st: State, past: Past, w: FrozenWindow, s: nat)
    requires HasShards(cfg, st) && StreamsOf(cfg, st, past) && HistoryOk'(cfg, st, past) && s < cfg.shardCount
    requires CutsAt(cfg, st, w.cuts)
    ensures var cp, chain, cut := past.checkpoints[s], past.chains[s], w.cuts[s];
      && cp.height <= cut.previousHeight <= cut.endHeight <= Top(cp, chain)
      && Segment(cp, chain, cut.previousHeight, cut.endHeight) ==
         RunOf(st.streams[s].unassigned, st.lastAssigned[s], st.streams[s].continuousHeight)
  {
    SealedCut(cfg, st, past, s);
    assert w.cuts[s] == CutOf(st, s);
    assert StreamOf(s, st.streams[s], past.checkpoints[s], past.chains[s], st.lastAssigned[s]);
    RunIsSegment(st.streams[s], past.checkpoints[s], past.chains[s], st.lastAssigned[s], st.streams[s].continuousHeight);
  }

  /** Window i takes from shard s what the state has open there. */
  ghost predicate Takes(cfg: Config, past: Past, i: nat, st: State, s: nat)
    requires CutsOk(cfg, past) && i < |past.history| && s < cfg.shardCount && HasShards(cfg, st)
  {
    var cut := past.history[i].cuts[s];
    assert CutOk(cfg, past, i, s);
    Segment(past.checkpoints[s], past.chains[s], cut.previousHeight, cut.endHeight) ==
      RunOf(st.streams[s].unassigned, st.lastAssigned[s], st.streams[s].continuousHeight)
  }

  lemma {:induction false} TakenBlocks(cfg: Config, past: Past, i: nat, st: State, n: nat)
    requires CutsOk(cfg, past) && i < |past.history| && n <= cfg.shardCount && HasShards(cfg, st)
    requires forall s: nat :: s < n ==> Takes(cfg, past, i, st, s)
    ensures WindowBlocks(cfg, past, i, n) == OpenBlocks(st, n)
    decreases n
  {
    if n > 0 {
      TakenBlocks(cfg, past, i, st, n - 1);
      BlocksTaken(cfg, past, i, n - 1, past.history[i]);
      assert Takes(cfg, past, i, st, n - 1);
    }
  }

  lemma SealedNewBlocks(cfg: Config, st: State, past: Past, w: FrozenWindow)
    requires HasShards(cfg, st) && StreamsOf(cfg, st, past) && HistoryOk'(cfg, st, past) && cfg.shardCount >= 0
    requires CutsAt(cfg, st, w.cuts) && CutsOk(cfg, Sealed(past, w))
    ensures WindowBlocks(cfg, Sealed(past, w), |past.history|, cfg.shardCount) == OpenBlocks(st, cfg.shardCount)
  {
    var after, i := Sealed(past, w), |past.history|;
    forall s: nat | s < cfg.shardCount ensures Takes(cfg, after, i, st, s) {
      SealedSegment(cfg, st, past, w, s);
    }
    TakenBlocks(cfg, after, i, st, cfg.shardCount);
  }

  /** What window i takes from one more shard. */
  lemma BlocksTaken(cfg: Config, past: Past, i: nat, s: nat, w: FrozenWindow)
    requires CutsOk(cfg, past) && i < |past.history| && past.history[i] == w && s < cfg.shardCount
    ensures var cp, chain, cut := past.checkpoints[s], past.chains[s], w.cuts[s];
      && cp.height <= cut.previousHeight <= cut.endHeight <= Top(cp, chain)
      && WindowBlocks(cfg, past, i, s + 1) == WindowBlocks(cfg, past, i, s) + Segment(cp, chain, cut.previousHeight, cut.endHeight)
  {
    assert CutOk(cfg, past, i, s);
  }

  // ---- the open blocks, one by one ----

  /** Blocks keyed by their own height, of one shard. */
  ghost predicate KeyedBy(blocks: map<nat, Receipt>, s: int) {
    forall k :: k in blocks ==> blocks[k].height == k && blocks[k].shardId == s
  }

  ghost predicate InRun(blocks: map<nat, Receipt>, a: nat, b: nat, k: nat) {
    a < k <= b && k in blocks
  }

  lemma {:induction false} RunMembers(blocks: map<nat, Receipt>, a: nat, b: nat, r: Receipt)
    ensures r in RunOf(blocks, a, b) <==> exists k: nat :: InRun(blocks, a, b, k) && blocks[k] == r
    decreases b
  {
    if a < b {
      RunMembers(blocks, a, b - 1, r);
      if r in RunOf(blocks, a, b - 1) {
        var k: nat :| InRun(blocks, a, b - 1, k) && blocks[k] == r;
        assert InRun(blocks, a, b, k);
      } else if b in blocks && blocks[b] == r {
        assert InRun(blocks, a, b, b);
      }
      if k: nat :| InRun(blocks, a, b, k) && blocks[k] == r && k < b {
        assert InRun(blocks, a, b - 1, k);
      }
    }
  }

  /** Block k of shard s is in the next window. */
  ghost predicate OpenAt(st: State, s: int, k: nat) {
    s in st.streams && s in st.lastAssigned && InRun(st.streams[s].unassigned, st.lastAssigned[s], st.streams[s].continuousHeight, k)
  }

  ghost predicate FromShards(st: State, n: nat, r: Receipt) {
    exists s, k: nat :: 0 <= s < n && OpenAt(st, s, k) && st.streams[s].unassigned[k] == r
  }

  lemma {:induction false} OpenMembers(cfg: Config, st: State, n: nat, r: Receipt)
    requires HasShards(cfg, st) && n <= cfg.shardCount
    ensures r in OpenBlocks(st, n) <==> FromShards(st, n, r)
    decreases n
  {
    if n > 0 {
      var x := st.streams[n - 1];
      OpenMembers(cfg, st, n - 1, r);
      RunMembers(x.unassigned, st.lastAssigned[n - 1], x.continuousHeight, r);
      if FromShards(st, n, r) {
        var s, k: nat :| 0 <= s < n && OpenAt(st, s, k) && st.streams[s].unassigned[k] == r;
        assert s < n - 1 ==> FromShards(st, n - 1, r);
      }
      if k: nat :| InRun(x.unassigned, st.lastAssigned[n - 1], x.continuousHeight, k) && x.unassigned[k] == r {
        assert OpenAt(st, n - 1, k);
      }
    }
  }

  // ---- in increasing order ----

  /** Receipts are ordered by shard, then height. */
  function BlockRank(): Receipt -> int {
    (r: Receipt) => r.shardId * TWO_64 + r.height
  }

  ghost predicate Increasing<T>(s: seq<T>, rank: T -> int) {
    forall i, j :: 0 <= i < j < |s| ==> rank(s[i]) < rank(s[j])
  }

  lemma IncreasingConcat<T>(a: seq<T>, b: seq<T>, rank: T -> int)
    requires Increasing(a, rank) && Increasing(b, rank)
    requires forall x, y :: x in a && y in b ==> rank(x) < rank(y)
    ensures Increasing(a + b, rank)
  {
    forall i, j | 0 <= i < j < |a + b| ensures rank((a + b)[i]) < rank((a + b)[j]) {
      if i < |a| <= j {
        assert (a + b)[i] in a && (a + b)[j] in b;
      }
    }
  }

  lemma {:induction false} RunIncreasing(blocks: map<nat, Receipt>, s: int, a: nat, b: nat)
    requires KeyedBy(blocks, s)
    ensures Increasing(RunOf(blocks, a, b), BlockRank())
    decreases b
  {
    if a < b {
      RunIncreasing(blocks, s, a, b - 1);
      if b in blocks {
        forall x, y | x in RunOf(blocks, a, b - 1) && y in [blocks[b]] ensures BlockRank()(x) < BlockRank()(y) {
          RunMembers(blocks, a, b - 1, x);
        }
        IncreasingConcat(RunOf(blocks, a, b - 1), [blocks[b]], BlockRank());
      }
    }
  }

  ghost predicate AllKeyed(cfg: Config, st: State)
    requires HasShards(cfg, st)
  {
    forall s :: 0 <= s < cfg.shardCount ==> KeyedBy(st.streams[s].unassigned, s)
  }

  lemma LowerShardFirst(x: Receipt, y: Receipt)
    requires x.shardId < y.shardId
    ensures BlockRank()(x) < BlockRank()(y)
  {
    assert x.shardId * TWO_64 + TWO_64 <= y.shardId * TWO_64;
  }

  lemma {:induction false} OpenIncreasing(cfg: Config, st: State, n: nat)
    requires HasShards(cfg, st) && AllKeyed(cfg, st) && n <= cfg.shardCount
    ensures Increasing(OpenBlocks(st, n), BlockRank())
    decreases n
  {
    if n > 0 {
      var run := RunOf(st.streams[n - 1].unassigned, st.lastAssigned[n - 1], st.streams[n - 1].continuousHeight);
      OpenIncreasing(cfg, st, n - 1);
      assert KeyedBy(st.streams[n - 1].unassigned, n - 1);
      RunIncreasing(st.streams[n - 1].unassigned, n - 1, st.lastAssigned[n - 1], st.streams[n - 1].continuousHeight);
      forall x, y | x in OpenBlocks(st, n - 1) && y in run ensures BlockRank()(x) < BlockRank()(y) {
        OpenMembers(cfg, st, n - 1, x);
        RunMembers(st.streams[n - 1].unassigned, st.lastAssigned[n - 1], st.streams[n - 1].continuousHeight, y);
        var s, k: nat :| 0 <= s < n - 1 && OpenAt(st, s, k) && st.streams[s].unassigned[k] == x;
        assert KeyedBy(st.streams[s].unassigned, s);
        LowerShardFirst(x, y);
      }
      IncreasingConcat(OpenBlocks(st, n - 1), run, BlockRank());
    }
  }

  // ---- the intents of the open blocks are the pending intents ----

  ghost predicate Apart(h: Hasher, rs: seq<Receipt>) {
    && (forall a :: 0 <= a < |rs| ==> Identified(h, rs[a]))
    && (forall a, b, id :: 0 <= a < b < |rs| && HasId(h, rs[a], id) ==> !HasId(h, rs[b], id))
  }

  ghost predicate SomeBlock(rs: seq<Receipt>, p: PaymentIntent) {
    exists a :: 0 <= a < |rs| && p in rs[a].intents
  }

  lemma SomeBlockSnoc(rs: seq<Receipt>, r: Receipt, p: PaymentIntent)
    ensures SomeBlock(rs + [r], p) <==> SomeBlock(rs, p) || p in r.intents
  {
    var all := rs + [r];
    if SomeBlock(rs, p) {
      var a :| 0 <= a < |rs| && p in rs[a].intents;
      assert p in all[a].intents;
    }
    if p in r.intents {
      assert p in all[|rs|].intents;
    }
  }

  lemma {:induction false} IntentsMembers(rs: seq<Receipt>, p: PaymentIntent)
    ensures p in IntentsOf(rs) <==> SomeBlock(rs, p)
    decreases |rs|
  {
    if rs != [] {
      var n := |rs| - 1;
      IntentsMembers(rs[..n], p);
      SomeBlockSnoc(rs[..n], rs[n], p);
      assert rs == rs[..n] + [rs[n]];
    }
  }

  lemma {:induction false} IntentsDistinct(h: Hasher, rs: seq<Receipt>)
    requires Apart(h, rs)
    ensures Distinct(IntentsOf(rs), IdRankOf(h))
    decreases |rs|
  {
    if rs != [] {
      var n := |rs| - 1;
      var front, last := IntentsOf(rs[..n]), rs[n].intents;
      assert Apart(h, rs[..n]) by {
        forall a, b, id | 0 <= a < b < n && HasId(h, rs[..n][a], id) ensures !HasId(h, rs[..n][b], id) {
          assert HasId(h, rs[a], id);
        }
      }
      IntentsDistinct(h, rs[..n]);
      assert Identified(h, rs[n]);
      forall p, q | p in front && q in last ensures IdOf(h, p) != IdOf(h, q) {
        IntentsMembers(rs[..n], p);
        var a :| 0 <= a < n && p in rs[..n][a].intents;
        assert HasId(h, rs[a], IdOf(h, p));
        assert HasId(h, rs[n], IdOf(h, q));
      }
      DistinctConcat(front, last, IdRankOf(h));
    }
  }

  lemma DistinctConcat<T>(a: seq<T>, b: seq<T>, rank: T -> int)
    requires Distinct(a, rank) && Distinct(b, rank) && forall x, y :: x in a && y in b ==> rank(x) != rank(y)
    ensures Distinct(a + b, rank)
  {
    forall i, j | 0 <= i < j < |a + b| ensures rank((a + b)[i]) != rank((a + b)[j]) {
      if i < |a| <= j {
        assert (a + b)[i] in a && (a + b)[j] in b;
      }
    }
  }

  lemma OpenIsBlock(cfg: Config, st: State, past: Past, s: int, k: nat)
    requires StreamsOf(cfg, st, past) && 0 <= s < cfg.shardCount
    ensures OpenAt(st, s, k) <==> Accepted(past, s, k) && Open(st, s, k)
    ensures OpenAt(st, s, k) ==> st.streams[s].unassigned[k] == Block(past, s, k)
  {
    assert StreamOf(s, st.streams[s], past.checkpoints[s], past.chains[s], st.lastAssigned[s]);
  }

  lemma RepresentedKeyed(h: Hasher, cfg: Config, st: State, past: Past)
    requires Represents(h, cfg, st, past)
    ensures HasShards(cfg, st) && AllKeyed(cfg, st)
  {
    forall s, k: nat | 0 <= s < cfg.shardCount && k in st.streams[s].unassigned
      ensures st.streams[s].unassigned[k].height == k && st.streams[s].unassigned[k].shardId == s
    {
      assert StreamOf(s, st.streams[s], past.checkpoints[s], past.chains[s], st.lastAssigned[s]);
      assert Accepted(past, s, k);
      BlockIdentified(h, cfg, st, past, s, k);
    }
    forall s | 0 <= s < cfg.shardCount ensures KeyedBy(st.streams[s].unassigned, s) {
    }
  }

  /** A block of the next window is an open accepted block. */
  lemma OpenBlockIs(h: Hasher, cfg: Config, st: State, past: Past, r: Receipt)
    requires Represents(h, cfg, st, past) && HasShards(cfg, st) && cfg.shardCount >= 0
    requires r in OpenBlocks(st, cfg.shardCount)
    ensures Accepted(past, r.shardId, r.height) && Open(st, r.shardId, r.height) && Block(past, r.shardId, r.height) == r && Identified(h, r)
  {
    OpenMembers(cfg, st, cfg.shardCount, r);
    var s, k: nat :| 0 <= s < cfg.shardCount && OpenAt(st, s, k) && st.streams[s].unassigned[k] == r;
    OpenIsBlock(cfg, st, past, s, k);
    BlockIdentified(h, cfg, st, past, s, k);
  }

  lemma OpenApart(h: Hasher, cfg: Config, st: State, past: Past)
    requires Represents(h, cfg, st, past) && HasShards(cfg, st) && cfg.shardCount >= 0
    ensures Apart(h, OpenBlocks(st, cfg.shardCount))
  {
    var rs := OpenBlocks(st, cfg.shardCount);
    RepresentedKeyed(h, cfg, st, past);
    OpenIncreasing(cfg, st, cfg.shardCount);
    forall a | 0 <= a < |rs| ensures Identified(h, rs[a]) {
      OpenBlockIs(h, cfg, st, past, rs[a]);
    }
    forall a, b, id | 0 <= a < b < |rs| && HasId(h, rs[a], id) ensures !HasId(h, rs[b], id) {
      OpenBlockIs(h, cfg, st, past, rs[a]);
      OpenBlockIs(h, cfg, st, past, rs[b]);
      assert BlockRank()(rs[a]) < BlockRank()(rs[b]);
      assert Holds(h, past, rs[a].shardId, rs[a].height, id);
      if HasId(h, rs[b], id) {
        assert Holds(h, past, rs[b].shardId, rs[b].height, id);
        assert false;
      }
    }
  }

  lemma OpenIntentPending(h: Hasher, cfg: Config, st: State, past: Past, p: PaymentIntent)
    requires Represents(h, cfg, st, past) && HasShards(cfg, st) && cfg.shardCount >= 0
    requires p in IntentsOf(OpenBlocks(st, cfg.shardCount))
    ensures IsPending(h, st, p)
  {
    var rs := OpenBlocks(st, cfg.shardCount);
    IntentsMembers(rs, p);
    var a :| 0 <= a < |rs| && p in rs[a].intents;
    OpenBlockIs(h, cfg, st, past, rs[a]);
    OpenPlaced(h, st, past, rs[a], p);
  }

  ghost predicate IsPending(h: Hasher, st: State, p: PaymentIntent) {
    IdOf(h, p) in st.pending && st.pending[IdOf(h, p)] == p
  }

  lemma OpenPlaced(h: Hasher, st: State, past: Past, r: Receipt, p: PaymentIntent)
    requires Placed(h, st, past) && Accepted(past, r.shardId, r.height) && Open(st, r.shardId, r.height)
    requires Block(past, r.shardId, r.height) == r && p in r.intents
    ensures IsPending(h, st, p)
  {
    var i :| 0 <= i < |r.intents| && r.intents[i] == p;
    assert PlacedOne(h, st, Block(past, r.shardId, r.height).intents[i], Open(st, r.shardId, r.height));
  }

  lemma PendingInBlock(h: Hasher, cfg: Config, st: State, past: Past, p: PaymentIntent)
    requires Represents(h, cfg, st, past) && HasShards(cfg, st) && cfg.shardCount >= 0 && IsPending(h, st, p)
    ensures p in IntentsOf(OpenBlocks(st, cfg.shardCount))
  {
    var id := IdOf(h, p);
    var s, k: nat :| Open(st, s, k) && Holds(h, past, s, k, id);
    var r := Block(past, s, k);
    var i :| 0 <= i < |r.intents| && IdOf(h, r.intents[i]) == id;
    BlockIdentified(h, cfg, st, past, s, k);
    OpenPlaced(h, st, past, r, r.intents[i]);
    assert r.intents[i] == p;
    OpenIsBlock(cfg, st, past, s, k);
    assert FromShards(st, cfg.shardCount, r);
    OpenMembers(cfg, st, cfg.shardCount, r);
    var rs := OpenBlocks(st, cfg.shardCount);
    var a :| 0 <= a < |rs| && rs[a] == r;
    IntentsMembers(rs, p);
  }

  /** Every pending intent is filed under its own identifier. */
  ghost predicate PendingKeyed(h: Hasher, pending: map<Hash, PaymentIntent>) {
    forall id :: id in pending ==> IdOf(h, pending[id]) == id
  }

  lemma SortedPendingMembers(h: Hasher, pending: map<Hash, PaymentIntent>, p: PaymentIntent)
    requires PendingKeyed(h, pending)
    ensures p in SortedPending(pending) <==> IdOf(h, p) in pending && pending[IdOf(h, p)] == p
  {
    var id := IdOf(h, p);
    var ids := Ordered(pending.Keys, Self());
    var ps := SortedPending(pending);
    if p in ps {
      var i :| 0 <= i < |ps| && ps[i] == p;
      assert ids[i] in ids && ids[i] in pending.Keys;
    }
    if id in pending && pending[id] == p {
      assert id in ids;
      var i :| 0 <= i < |ids| && ids[i] == id;
      assert ps[i] == p;
    }
  }

  lemma SortedPendingOk(h: Hasher, pending: map<Hash, PaymentIntent>)
    requires PendingKeyed(h, pending)
    ensures |SortedPending(pending)| == |pending.Keys|
    ensures Sorted(SortedPending(pending), IdRankOf(h)) && Distinct(SortedPending(pending), IdRankOf(h))
  {
    var ids := Ordered(pending.Keys, Self());
    OrderedDistinct(pending.Keys, Self());
    var ps := SortedPending(pending);
    forall i | 0 <= i < |ps| ensures IdRankOf(h)(ps[i]) == Self()(ids[i]) {
      assert ids[i] in ids && ids[i] in pending.Keys;
    }
    SameRanks(ps, IdRankOf(h), ids, Self());
  }

  lemma SameRanks<S, T>(a: seq<S>, f: S -> int, b: seq<T>, g: T -> int)
    requires |a| == |b| && (forall i :: 0 <= i < |a| ==> f(a[i]) == g(b[i])) && Sorted(b, g) && Distinct(b, g)
    ensures Sorted(a, f) && Distinct(a, f)
  {
    forall i, j | 0 <= i < j < |a| ensures f(a[i]) < f(a[j]) {
      assert g(b[i]) <= g(b[j]) && g(b[i]) != g(b[j]);
    }
  }

  lemma DistinctNoDuplicates<T>(s: seq<T>, rank: T -> int)
    requires Distinct(s, rank)
    ensures NoDuplicates(s)
  {
    forall i, j | 0 <= i < j < |s| ensures s[i] != s[j] {
      assert rank(s[i]) != rank(s[j]);
    }
  }

  lemma RepresentedPendingKeyed(h: Hasher, cfg: Config, st: State, past: Past)
    requires Represents(h, cfg, st, past)
    ensures PendingKeyed(h, st.pending)
  {
    forall id | id in st.pending ensures IdOf(h, st.pending[id]) == id {
      PendingIdValid(h, cfg, st, past, id);
    }
  }

  /** The pending intents are exactly the intents of the open blocks. */
  lemma PendingIsOpen(h: Hasher, cfg: Config, st: State, past: Past)
    requires Represents(h, cfg, st, past) && HasShards(cfg, st) && cfg.shardCount >= 0
    ensures multiset(SortedPending(st.pending)) == multiset(IntentsOf(OpenBlocks(st, cfg.shardCount)))
  {
    var ps, qs := SortedPending(st.pending), IntentsOf(OpenBlocks(st, cfg.shardCount));
    RepresentedPendingKeyed(h, cfg, st, past);
    SortedPendingOk(h, st.pending);
    OpenApart(h, cfg, st, past);
    IntentsDistinct(h, OpenBlocks(st, cfg.shardCount));
    DistinctNoDuplicates(ps, IdRankOf(h));
    DistinctNoDuplicates(qs, IdRankOf(h));
    forall p ensures p in ps <==> p in qs {
      SortedPendingMembers(h, st.pending, p);
      if p in ps {
        PendingInBlock(h, cfg, st, past, p);
      }
      if p in qs {
        OpenIntentPending(h, cfg, st, past, p);
      }
    }
    SameSetPermutes(ps, qs);
  }

  // ---- sealing keeps the state true to its past ----

  ghost predicate Sealable(h: Hasher, cfg: Config, st: State, past: Past) {
    Represents(h, cfg, st, past) && HasShards(cfg, st) && st.openedAt.Some? && cfg.shardCount > 0
  }

  lemma SealStreams(cfg: Config, st: State, past: Past, reason: string, now: int)
    requires StreamsOf(cfg, st, past) && HasShards(cfg, st) && st.openedAt.Some? && cfg.shardCount >= 0
    ensures var next := Seal(cfg, st, reason, now); StreamsOf(cfg, next, Sealed(past, SealedWindow(cfg, st, reason, now)))
  {
    CutStreams(cfg, st, past, Seal(cfg, st, reason, now), Sealed(past, SealedWindow(cfg, st, reason, now)));
  }

  /** Streams and heights once every shard is cut. */
  lemma CutStreams(cfg: Config, st: State, past: Past, next: State, after: Past)
    requires StreamsOf(cfg, st, past) && HasShards(cfg, st) && cfg.shardCount >= 0
    requires next.streams == StreamsTo(cfg, st, cfg.shardCount)
    requires next.lastAssigned == HeightsTo(cfg, st, cfg.shardCount)
    requires after.checkpoints == past.checkpoints && after.chains == past.chains
    ensures StreamsOf(cfg, next, after)
  {
    SealedStreams(cfg, st, past, next.streams, next.lastAssigned);
    forall s | 0 <= s < cfg.shardCount ensures StreamIs(next, after, s) {
      assert SealedStream(past, next.streams, next.lastAssigned, s);
    }
    StreamsAre(cfg, next, after);
  }

  ghost predicate SealedStream(past: Past, streams: map<int, Stream>, heights: map<int, nat>, s: int) {
    && s in streams && s in heights && 0 <= s < |past.checkpoints| && s < |past.chains|
    && StreamOf(s, streams[s], past.checkpoints[s], past.chains[s], heights[s])
  }

  lemma SealedStreams(cfg: Config, st: State, past: Past, streams: map<int, Stream>, heights: map<int, nat>)
    requires StreamsOf(cfg, st, past) && HasShards(cfg, st) && cfg.shardCount >= 0
    requires streams == StreamsTo(cfg, st, cfg.shardCount) && heights == HeightsTo(cfg, st, cfg.shardCount)
    ensures forall s :: 0 <= s < cfg.shardCount ==> SealedStream(past, streams, heights, s)
  {
    forall s | 0 <= s < cfg.shardCount ensures SealedStream(past, streams, heights, s) {
      OtherStream(cfg, st, past, s);
      EmptiedStreamOf(s, st.streams[s], past.checkpoints[s], past.chains[s], st.lastAssigned[s]);
    }
  }

  lemma EmptiedStreamOf(s: int, x: Stream, cp: Checkpoint, chain: seq<Receipt>, last: nat)
    requires StreamOf(s, x, cp, chain, last)
    ensures StreamOf(s, Emptied(x, last), cp, chain, x.continuousHeight)
  {
  }

  /** What sealing leaves of the assignment maps. */
  ghost predicate SealsMaps(cfg: Config, st: State, next: State)
    requires HasShards(cfg, st)
  {
    && next.pending == map[] && next.assignedTo.Keys == st.assignedTo.Keys + st.pending.Keys && next.lastAssigned.Keys == st.lastAssigned.Keys
    && (forall s :: 0 <= s < cfg.shardCount ==> next.lastAssigned[s] == st.streams[s].continuousHeight)
    && (forall id :: id in st.pending ==> next.assignedTo[id] == st.nextWindowId)
    && (forall id :: id in st.assignedTo && id !in st.pending ==> next.assignedTo[id] == st.assignedTo[id])
  }

  /** The contents of the sealed window. */
  ghost predicate SealsWindow(cfg: Config, st: State, w: FrozenWindow)
    requires HasShards(cfg, st) && cfg.shardCount >= 0
  {
    CutsAt(cfg, st, w.cuts) && w.receipts == OpenBlocks(st, cfg.shardCount) && w.intents == SortedPending(st.pending)
  }

  lemma SealMaps(cfg: Config, st: State, reason: string, now: int)
    requires HasShards(cfg, st) && st.openedAt.Some? && cfg.shardCount >= 0
    ensures SealsMaps(cfg, st, Seal(cfg, st, reason, now))
  {
  }

  lemma SealWindow(cfg: Config, st: State, reason: string, now: int)
    requires HasShards(cfg, st) && st.openedAt.Some? && cfg.shardCount >= 0
    ensures SealsWindow(cfg, st, SealedWindow(cfg, st, reason, now))
  {
  }

  lemma SealHolds(h: Hasher, past: Past, w: FrozenWindow, s: int, k: nat, id: Hash)
    ensures Holds(h, Sealed(past, w), s, k, id) <==> Holds(h, past, s, k, id)
  {
    if Accepted(past, s, k) {
      assert Block(Sealed(past, w), s, k) == Block(past, s, k);
    }
  }

  lemma SealOldWindows(h: Hasher, cfg: Config, past: Past, w: FrozenWindow)
    requires CutsOk(cfg, past) && CutsOk(cfg, Sealed(past, w)) && cfg.shardCount >= 0
    requires forall i: nat :: i < |past.history| ==> WindowOk(h, cfg, past, i)
    ensures forall i: nat :: i < |past.history| ==> WindowOk(h, cfg, Sealed(past, w), i)
  {
    forall i: nat | i < |past.history| ensures WindowOk(h, cfg, Sealed(past, w), i) {
      assert WindowOk(h, cfg, past, i);
      SealedOldBlocks(cfg, past, w, i, cfg.shardCount);
    }
  }

  lemma SealNewWindow(h: Hasher, cfg: Config, st: State, past: Past, w: FrozenWindow)
    requires Sealable(h, cfg, st, past) && SealsWindow(cfg, st, w) && CutsOk(cfg, Sealed(past, w))
    ensures WindowOk(h, cfg, Sealed(past, w), |past.history|)
  {
    SealedNewBlocks(cfg, st, past, w);
    PendingIsOpen(h, cfg, st, past);
    RepresentedPendingKeyed(h, cfg, st, past);
    SortedPendingOk(h, st.pending);
    assert st.pending.Keys != {};
  }

  lemma SealHistory(h: Hasher, cfg: Config, st: State, next: State, past: Past, w: FrozenWindow)
    requires Sealable(h, cfg, st, past) && SealsMaps(cfg, st, next) && SealsWindow(cfg, st, w)
    ensures HistoryOk(h, cfg, next, Sealed(past, w))
  {
    SealWindows(h, cfg, st, past, w);
    SealEnds(cfg, st, next, past, w);
    LongerHistory(h, cfg, next, Sealed(past, w), |past.history|);
  }

  lemma SealWindows(h: Hasher, cfg: Config, st: State, past: Past, w: FrozenWindow)
    requires Sealable(h, cfg, st, past) && SealsWindow(cfg, st, w)
    ensures var after := Sealed(past, w);
      CutsOk(cfg, after) && WindowOk(h, cfg, after, |past.history|) && forall i: nat :: i < |past.history| ==> WindowOk(h, cfg, after, i)
  {
    SealedCuts(cfg, st, past, w);
    SealOldWindows(h, cfg, past, w);
    SealNewWindow(h, cfg, st, past, w);
  }

  lemma LongerHistory(h: Hasher, cfg: Config, next: State, after: Past, n: nat)
    requires CutsOk(cfg, after) && |after.history| == n + 1
    requires (forall i: nat :: i < n ==> WindowOk(h, cfg, after, i)) && WindowOk(h, cfg, after, n)
    requires forall s :: 0 <= s < cfg.shardCount ==> s in next.lastAssigned && next.lastAssigned[s] == EndOf(after, n + 1, s)
    ensures HistoryOk(h, cfg, next, after)
  {
  }

  lemma SealEnds(cfg: Config, st: State, next: State, past: Past, w: FrozenWindow)
    requires HasShards(cfg, st) && StreamsOf(cfg, st, past) && SealsMaps(cfg, st, next) && CutsAt(cfg, st, w.cuts)
    ensures forall s :: 0 <= s < cfg.shardCount ==> s in next.lastAssigned && next.lastAssigned[s] == EndOf(Sealed(past, w), |past.history| + 1, s)
  {
  }

  lemma SealCloses(cfg: Config, st: State, next: State, past: Past, s: int, k: nat)
    requires StreamsOf(cfg, st, past) && HasShards(cfg, st) && SealsMaps(cfg, st, next) && Accepted(past, s, k)
    ensures !Open(next, s, k)
  {
    assert StreamOf(s, st.streams[s], past.checkpoints[s], past.chains[s], st.lastAssigned[s]);
  }

  lemma SealHeld(h: Hasher, st: State, past: Past, id: Hash)
    requires Placed(h, st, past) && (id in st.pending || id in st.assignedTo)
    ensures exists s, k: nat :: Holds(h, past, s, k, id)
  {
    if id in st.pending {
      var s, k: nat :| Open(st, s, k) && Holds(h, past, s, k, id);
    } else {
      var s, k: nat :| !Open(st, s, k) && Holds(h, past, s, k, id);
    }
  }

  /** After a seal nothing accepted is open. */
  lemma SealPlaced(h: Hasher, cfg: Config, st: State, next: State, past: Past, w: FrozenWindow)
    requires StreamsOf(cfg, st, past) && Placed(h, st, past) && HasShards(cfg, st) && SealsMaps(cfg, st, next)
    ensures Placed(h, next, Sealed(past, w))
  {
    var after := Sealed(past, w);
    forall s, k: nat, i | Accepted(after, s, k) && 0 <= i < |Block(after, s, k).intents|
      ensures PlacedOne(h, next, Block(after, s, k).intents[i], Open(next, s, k))
    {
      assert Accepted(past, s, k) && Block(past, s, k) == Block(after, s, k);
      SealCloses(cfg, st, next, past, s, k);
      assert PlacedOne(h, st, Block(past, s, k).intents[i], Open(st, s, k));
    }
    forall id | id in next.assignedTo ensures exists s, k: nat :: !Open(next, s, k) && Holds(h, after, s, k, id) {
      SealHeld(h, st, past, id);
      var s, k: nat :| Holds(h, past, s, k, id);
      SealCloses(cfg, st, next, past, s, k);
      SealHolds(h, past, w, s, k, id);
      assert !Open(next, s, k) && Holds(h, after, s, k, id);
    }
  }

  /** A pending intent sits in an open block. */
  lemma PendingOnlyOpen(h: Hasher, st: State, past: Past, s: int, k: nat, id: Hash)
    requires Placed(h, st, past) && Holds(h, past, s, k, id)
    ensures id in st.pending <==> Open(st, s, k)
    ensures id in st.assignedTo <==> !Open(st, s, k)
  {
    var r := Block(past, s, k);
    var i :| 0 <= i < |r.intents| && IdOf(h, r.intents[i]) == id;
    assert PlacedOne(h, st, Block(past, s, k).intents[i], Open(st, s, k));
  }

  lemma SealCoversNew(cfg: Config, st: State, past: Past, w: FrozenWindow, s: int, k: nat)
    requires HasShards(cfg, st) && StreamsOf(cfg, st, past) && HistoryOk'(cfg, st, past) && CutsAt(cfg, st, w.cuts)
    requires Accepted(past, s, k) && Open(st, s, k)
    ensures Covers(cfg, Sealed(past, w), |past.history| + 1, s, k)
  {
    SealedCut(cfg, st, past, s);
    var after := Sealed(past, w);
    assert after.history[|past.history|] == w;
    assert EndOf(after, |past.history|, s) == EndOf(past, |past.history|, s);
  }

  lemma SealCoversOld(cfg: Config, past: Past, w: FrozenWindow, v: nat, s: int, k: nat)
    requires Covers(cfg, past, v, s, k) && |w.cuts| == cfg.shardCount
    ensures Covers(cfg, Sealed(past, w), v, s, k)
  {
    var after := Sealed(past, w);
    assert EndOf(after, v, s) == EndOf(past, v, s) && EndOf(after, v - 1, s) == EndOf(past, v - 1, s);
  }

  lemma SealAssigned(h: Hasher, cfg: Config, st: State, next: State, past: Past, w: FrozenWindow)
    requires HasShards(cfg, st) && StreamsOf(cfg, st, past) && HistoryOk'(cfg, st, past) && Placed(h, st, past)
    requires AssignedWindows(h, cfg, st, past)
    requires SealsMaps(cfg, st, next) && CutsAt(cfg, st, w.cuts) && st.nextWindowId == |past.history| + 1
    ensures AssignedWindows(h, cfg, next, Sealed(past, w))
  {
    var after := Sealed(past, w);
    forall s, k: nat, id | Holds(h, after, s, k, id) && !Open(next, s, k) && id in next.assignedTo ensures Covers(cfg, after, next.assignedTo[id], s, k) {
      SealHolds(h, past, w, s, k, id);
      PendingOnlyOpen(h, st, past, s, k, id);
      if id in st.pending {
        SealCoversNew(cfg, st, past, w, s, k);
      } else {
        SealCoversOld(cfg, past, w, st.assignedTo[id], s, k);
      }
    }
  }

  lemma SealQueue(cfg: Config, st: State, next: State, past: Past, w: FrozenWindow)
    requires QueueOk(cfg, st, past) && next.nextWindowId == st.nextWindowId + 1 && next.frozen == st.frozen + [w]
    requires w.windowId == st.nextWindowId && |w.cuts| == cfg.shardCount && w.openedAt <= w.sealedAt
    ensures QueueOk(cfg, next, Sealed(past, w))
  {
    var n := |past.history|;
    assert next.frozen == Sealed(past, w).history[n + 1 - |next.frozen|..];
  }

  lemma SealAssignedOk(cfg: Config, st: State, next: State)
    requires AssignedOk(st) && HasShards(cfg, st) && SealsMaps(cfg, st, next)
    requires next.nextWindowId == st.nextWindowId + 1 && st.nextWindowId > 0
    ensures AssignedOk(next)
  {
  }

  /** Sealing a window keeps the state true to its past, which gains the window. */
  lemma SealKeeps(h: Hasher, cfg: Config, st: State, past: Past, reason: string, now: int)
    requires Sealable(h, cfg, st, past) && st.openedAt.value <= now
    ensures Represents(h, cfg, Seal(cfg, st, reason, now), Sealed(past, SealedWindow(cfg, st, reason, now)))
  {
    var w := SealedWindow(cfg, st, reason, now);
    var next := Seal(cfg, st, reason, now);
    SealMaps(cfg, st, reason, now);
    SealWindow(cfg, st, reason, now);
    SealStreams(cfg, st, past, reason, now);
    SealPlaced(h, cfg, st, next, past, w);
    SealHistory(h, cfg, st, next, past, w);
    SealAssigned(h, cfg, st, next, past, w);
    SealQueue(cfg, st, next, past, w);
    SealAssignedOk(cfg, st, next);
    SealDisjoint(h, past, w);
  }

  lemma SealDisjoint(h: Hasher, past: Past, w: FrozenWindow)
    requires Disjoint(h, past)
    ensures Disjoint(h, Sealed(past, w))
  {
    forall s, k: nat, t, l: nat, id | Holds(h, Sealed(past, w), s, k, id) && Holds(h, Sealed(past, w), t, l, id) ensures s == t && k == l {
      SealHolds(h, past, w, s, k, id);
      SealHolds(h, past, w, t, l, id);
    }
  }

  /** Acknowledging the oldest frozen window. */
  lemma AckKeeps(h: Hasher, cfg: Config, st: State, past: Past)
    requires Represents(h, cfg, st, past) && st.frozen != []
    ensures Represents(h, cfg, st.(frozen := st.frozen[1..]), past)
  {
    var next := st.(frozen := st.frozen[1..]);
    PlacedSame(h, st, next, past);
    AssignedSame(h, cfg, st, next, past);
    assert QueueOk(cfg, next, past);
  }
}
