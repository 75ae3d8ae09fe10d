/**
 * Payload encodings, settlement packages and their verification (pkg/netting/batch/builder.go), with the
 * commitments of pkg/netting/commitment.
 */
module Packages {
  import opened Base
  import opened ByteStrings
  import opened Merkle
  import opened Model
  import opened Sorting

  const CHUNK_DOMAIN := "BLOCKEMULATOR_SETTLEMENT_CHUNK_V1"
  const CUT_DOMAIN := "BLOCKEMULATOR_SHARD_CUT_V1"
  const RESULT_DOMAIN := "BLOCKEMULATOR_INTENT_RESULT_V1"
  const SHARD_DOMAIN := "BLOCKEMULATOR_SHARD_SETTLEMENT_V1"
  const MATCH_ROOT_DOMAIN := "BLOCKEMULATOR_MATCH_ROOT_V1"
  const BATCH_ID_DOMAIN := "BLOCKEMULATOR_BATCH_ID_V1"

  datatype ShardCommitment = ShardCommitment(shardId: Int64, shardRoot: Hash, chunkCount: Uint32)

  datatype Package = Package(
    header: Header, settlement: Settlement, chunkProof: seq<Step>, commitment: ShardCommitment, shardProof: seq<Step>)

  // ---- commitments ----

  function MatchRoot(h: Hasher, cutRoot: Hash, intentResultRoot: Hash, shardSettlementRoot: Hash): Hash {
    h(Ascii(MATCH_ROOT_DOMAIN) + BigEndian(cutRoot, 32) + BigEndian(intentResultRoot, 32) + BigEndian(shardSettlementRoot, 32))
  }

  function BatchId(h: Hasher, previousBatchId: Hash, windowId: Uint64, matchRoot: Hash): Hash {
    h(Ascii(BATCH_ID_DOMAIN) + BigEndian(previousBatchId, 32) + BigEndian(windowId, 8) + BigEndian(matchRoot, 32))
  }

  predicate HeaderDerived(h: Hasher, header: Header) {
    && MatchRoot(h, header.cutRoot, header.intentResultRoot, header.shardSettlementRoot) == header.matchRoot
    && BatchId(h, header.previousBatchId, header.windowId, header.matchRoot) == header.batchId
  }

  // ---- encoders ----

  function WriteBytes(b: Bytes): Bytes {
    BigEndian(|b|, 4) + b
  }

  function CutPayload(cut: ShardCut): Bytes {
    BigEndian(ToUint64(cut.shardId), 8) + BigEndian(cut.previousHeight, 8) + BigEndian(cut.endHeight, 8) +
    BigEndian(cut.endBlockHash, 32)
  }

  /** The encoding of a result whose amounts are known not to be negative. */
  function ResultBytes(r: IntentResult): Bytes
    requires r.matched >= 0 && r.fallback >= 0
  {
    BigEndian(r.intentId, 32) + WriteBytes(Minimal(r.matched)) + WriteBytes(Minimal(r.fallback))
  }

  function ResultPayload(h: Hasher, r: IntentResult): Result<Bytes> {
    match ValidateResult(h, r)
    case Err(e) => Err(e)
    case Ok(_) => Ok(ResultBytes(r))
  }

  function ResultsPayload(h: Hasher, rs: seq<IntentResult>): Result<Bytes> {
    if rs == [] then Ok([]) else
      match ResultPayload(h, rs[0])
      case Err(e) => Err(e)
      case Ok(first) =>
        match ResultsPayload(h, rs[1..])
        case Err(e) => Err(e)
        case Ok(rest) => Ok(WriteBytes(first) + rest)
  }

  function SettlementHead(s: Settlement): (r: Bytes)
    ensures |r| == 28
  {
    BigEndian(s.windowId, 8) + BigEndian(ToUint64(s.shardId), 8) + BigEndian(s.chunkIndex, 4) +
    BigEndian(s.chunkCount, 4) + BigEndian(|s.outgoing|, 4)
  }

  function SettlementPayload(h: Hasher, s: Settlement): Result<Bytes> {
    if s.shardId < 0 || s.chunkCount == 0 || s.chunkIndex >= s.chunkCount then Err(InvalidSettlement) else
      match ResultsPayload(h, s.outgoing)
      case Err(e) => Err(e)
      case Ok(outgoing) =>
        match ResultsPayload(h, s.incoming)
        case Err(e) => Err(e)
        case Ok(incoming) => Ok(SettlementHead(s) + outgoing + (BigEndian(|s.incoming|, 4) + incoming))
  }

  function CommitmentPayload(c: ShardCommitment): Bytes {
    BigEndian(ToUint64(c.shardId), 8) + BigEndian(c.shardRoot, 32) + BigEndian(c.chunkCount, 4)
  }

  lemma {:induction false} ResultsPayloadSnoc(h: Hasher, rs: seq<IntentResult>, r: IntentResult)
    ensures ResultsPayload(h, rs + [r]).Ok? <==> ResultsPayload(h, rs).Ok? && ResultPayload(h, r).Ok?
    ensures ResultsPayload(h, rs + [r]).Ok? ==>
      ResultsPayload(h, rs + [r]).value == ResultsPayload(h, rs).value + WriteBytes(ResultPayload(h, r).value)
    decreases |rs|
  {
    if rs == [] {
      assert rs + [r] == [r];
    } else {
      ResultsPayloadSnoc(h, rs[1..], r);
      assert (rs + [r])[1..] == rs[1..] + [r];
    }
  }

  lemma {:induction false} ResultsPayloadPrefix(h: Hasher, rs: seq<IntentResult>, i: nat)
    requires i <= |rs| && ResultsPayload(h, rs).Ok?
    ensures ResultsPayload(h, rs[..i]).Ok?
    decreases |rs|
  {
    if i < |rs| {
      var init := rs[..|rs| - 1];
      ResultsPayloadSnoc(h, init, rs[|rs| - 1]);
      assert rs == init + [rs[|rs| - 1]];
      ResultsPayloadPrefix(h, init, i);
      assert init[..i] == rs[..i];
    } else {
      assert rs[..i] == rs;
    }
  }

  /** The loop that appends length-prefixed results to the buffer. */
  method AppendResults(h: Hasher, rs: seq<IntentResult>) returns (r: Result<Bytes>)
    ensures r.Ok? <==> ResultsPayload(h, rs).Ok?
    ensures r.Ok? ==> r == ResultsPayload(h, rs)
  {
    var out: Bytes := [];
    for i := 0 to |rs|
      invariant ResultsPayload(h, rs[..i]) == Ok(out)
    {
      ResultsPayloadSnoc(h, rs[..i], rs[i]);
      assert rs[..i] + [rs[i]] == rs[..i + 1];
      match ResultPayload(h, rs[i])
      case Err(e) =>
        if ResultsPayload(h, rs).Ok? {
          ResultsPayloadPrefix(h, rs, i + 1);
        }
        return Err(e);
      case Ok(payload) =>
        out := out + WriteBytes(payload);
    }
    assert rs[..|rs|] == rs;
    r := Ok(out);
  }

  // ---- verification and grouping ----

  function VerifyPackage(h: Hasher, pack: Package): Result<()> {
    if pack.settlement.batchId != pack.header.batchId || pack.settlement.windowId != pack.header.windowId ||
       pack.settlement.shardId != pack.commitment.shardId || pack.settlement.chunkCount != pack.commitment.chunkCount
    then Err(InvalidSettlement) else
      match SettlementPayload(h, pack.settlement)
      case Err(e) => Err(e)
      case Ok(payload) =>
        if !Verify(h, CHUNK_DOMAIN, payload, pack.chunkProof, pack.commitment.shardRoot) then Err(InvalidSettlement)
        else if !Verify(h, SHARD_DOMAIN, CommitmentPayload(pack.commitment), pack.shardProof, pack.header.shardSettlementRoot)
        then Err(InvalidSettlement)
        else if !HeaderDerived(h, pack.header) then Err(InvalidSettlement)
        else Ok(())
  }

  function ByChunk(): Settlement -> int {
    (s: Settlement) => s.chunkIndex
  }

  function OfShard(ss: seq<Settlement>, shard: Int64): seq<Settlement> {
    if ss == [] then [] else (if ss[0].shardId == shard then [ss[0]] else []) + OfShard(ss[1..], shard)
  }

  lemma {:induction false} OfShardMembers(ss: seq<Settlement>, shard: Int64, s: Settlement)
    ensures s in OfShard(ss, shard) <==> s in ss && s.shardId == shard
    decreases |ss|
  {
    if ss != [] {
      OfShardMembers(ss[1..], shard, s);
      assert ss == [ss[0]] + ss[1..];
    }
  }

  /** The chunks of one shard in index order. */
  function ShardChunks(ss: seq<Settlement>, shard: Int64): seq<Settlement> {
    SortBy(OfShard(ss, shard), ByChunk())
  }

  lemma ShardChunksMembers(ss: seq<Settlement>, shard: Int64, s: Settlement)
    ensures s in ShardChunks(ss, shard) <==> s in ss && s.shardId == shard
  {
    OfShardMembers(ss, shard, s);
    SortByProperties(OfShard(ss, shard), ByChunk());
    SameElements(ShardChunks(ss, shard), OfShard(ss, shard));
  }

  predicate GoodChunk(h: Hasher, s: Settlement, j: nat, n: nat) {
    s.chunkCount == n && s.chunkIndex == j && SettlementPayload(h, s).Ok?
  }

  predicate GoodChunks(h: Hasher, chunks: seq<Settlement>) {
    forall j :: 0 <= j < |chunks| ==> GoodChunk(h, chunks[j], j, |chunks|)
  }

  function ChunkLeaves(h: Hasher, chunks: seq<Settlement>): (r: seq<Leaf>)
    requires GoodChunks(h, chunks)
    ensures |r| == |chunks|
  {
    seq(|chunks|, j requires 0 <= j < |chunks| => Leaf(j, SettlementPayload(h, chunks[j]).value))
  }

  function CommitmentOf(h: Hasher, shard: Int64, chunks: seq<Settlement>): ShardCommitment
    requires GoodChunks(h, chunks)
  {
    // A good chunk carries the number of chunks in 32 bits.
    assert |chunks| < TWO_32 by { if chunks != [] { assert GoodChunk(h, chunks[0], 0, |chunks|); } }
    ShardCommitment(shard, TreeRoot(h, CHUNK_DOMAIN, ChunkLeaves(h, chunks)), |chunks|)
  }

  /** The shards named by the settlements, each once, in ascending order. */
  ghost predicate ShardsOf(ids: seq<Int64>, ss: seq<Settlement>) {
    && (forall i, j :: 0 <= i < j < |ids| ==> ids[i] < ids[j])
    && (forall i :: 0 <= i < |ids| ==> Names(ss, ids[i]))
    && (forall s :: s in ss ==> s.shardId in ids)
  }

  ghost predicate Names(ss: seq<Settlement>, shard: Int64) {
    exists s :: s in ss && s.shardId == shard
  }

  ghost predicate GoodShard(h: Hasher, ss: seq<Settlement>, shard: Int64) {
    GoodChunks(h, ShardChunks(ss, shard))
  }

  ghost predicate AllGood(h: Hasher, ids: seq<Int64>, ss: seq<Settlement>) {
    forall i :: 0 <= i < |ids| ==> GoodShard(h, ss, ids[i])
  }

  ghost function ShardLeaves(h: Hasher, ids: seq<Int64>, ss: seq<Settlement>): (r: seq<Leaf>)
    requires AllGood(h, ids, ss) && forall i :: 0 <= i < |ids| ==> ids[i] >= 0
    ensures |r| == |ids|
  {
    seq(|ids|, i requires 0 <= i < |ids| =>
      Leaf(ids[i], CommitmentPayload(CommitmentOf(h, ids[i], ShardChunks(ss, ids[i])))))
  }

  /** The settlements are well chunked and the header commits to exactly them. */
  ghost predicate Committed(h: Hasher, header: Header, ids: seq<Int64>, ss: seq<Settlement>) {
    && ShardsOf(ids, ss) && (forall i :: 0 <= i < |ids| ==> ids[i] >= 0) && AllGood(h, ids, ss)
    && TreeRoot(h, SHARD_DOMAIN, ShardLeaves(h, ids, ss)) == header.shardSettlementRoot
  }

  // ---- injectivity of the encodings ----

  lemma WriteBytesSplit(p: Bytes, q: Bytes, u: Bytes, v: Bytes)
    requires |p| < TWO_32 && |q| < TWO_32 && WriteBytes(p) + u == WriteBytes(q) + v
    ensures p == q && u == v
  {
    WidthLimits();
    assert WriteBytes(p) + u == BigEndian(|p|, 4) + (p + u);
    assert WriteBytes(q) + v == BigEndian(|q|, 4) + (q + v);
    SplitEqual(BigEndian(|p|, 4), p + u, BigEndian(|q|, 4), q + v);
    BigEndianInjective(|p|, |q|, 4);
    SplitEqual(p, u, q, v);
  }

  /** Every variable-length field of the results fits its 32-bit length prefix. */
  ghost predicate Encodable(h: Hasher, rs: seq<IntentResult>) {
    |rs| < TWO_32 && forall i :: 0 <= i < |rs| ==> ResultPayload(h, rs[i]).Ok? ==> |ResultPayload(h, rs[i]).value| < TWO_32
  }

  lemma ResultBytesInjective(x: IntentResult, y: IntentResult)
    requires x.matched >= 0 && x.fallback >= 0 && y.matched >= 0 && y.fallback >= 0
    requires |ResultBytes(x)| < TWO_32 && ResultBytes(x) == ResultBytes(y)
    ensures x.intentId == y.intentId && x.matched == y.matched && x.fallback == y.fallback
  {
    WidthLimits();
    var xm, ym := Minimal(x.matched), Minimal(y.matched);
    var xf, yf := Minimal(x.fallback), Minimal(y.fallback);
    assert ResultBytes(x) == BigEndian(x.intentId, 32) + (WriteBytes(xm) + WriteBytes(xf));
    assert ResultBytes(y) == BigEndian(y.intentId, 32) + (WriteBytes(ym) + WriteBytes(yf));
    SplitEqual(BigEndian(x.intentId, 32), WriteBytes(xm) + WriteBytes(xf), BigEndian(y.intentId, 32), WriteBytes(ym) + WriteBytes(yf));
    BigEndianInjective(x.intentId, y.intentId, 32);
    WriteBytesSplit(xm, ym, WriteBytes(xf), WriteBytes(yf));
    assert WriteBytes(xf) + [] == WriteBytes(yf) + [];
    WriteBytesSplit(xf, yf, [], []);
    MinimalInjective(x.matched, y.matched);
    MinimalInjective(x.fallback, y.fallback);
  }

  /** Two results that agree on everything the chain commits to. */
  ghost predicate SameResult(x: IntentResult, y: IntentResult) {
    x.intentId == y.intentId && x.matched == y.matched && x.fallback == y.fallback && Unsigned(x.intent) == Unsigned(y.intent)
  }

  ghost predicate SameResults(xs: seq<IntentResult>, ys: seq<IntentResult>) {
    |xs| == |ys| && forall i :: 0 <= i < |xs| ==> SameResult(xs[i], ys[i])
  }

  ghost predicate IdsIn(rs: seq<IntentResult>, inputs: iset<Bytes>) {
    forall i :: 0 <= i < |rs| ==> CanonicalBytes(rs[i].intent).Ok? ==> CanonicalBytes(rs[i].intent).value in inputs
  }

  lemma ResultPayloadInjective(h: Hasher, x: IntentResult, y: IntentResult, inputs: iset<Bytes>)
    requires CollisionFree(h, inputs) && IdsIn([x], inputs) && IdsIn([y], inputs)
    requires ResultPayload(h, x).Ok? && ResultPayload(h, x) == ResultPayload(h, y)
    requires |ResultPayload(h, x).value| < TWO_32
    ensures SameResult(x, y)
  {
    ResultBytesInjective(x, y);
    assert [x][0] == x && [y][0] == y;
    IntentIdInjective(h, x.intent, y.intent, inputs);
  }

  lemma SameResultsCons(xs: seq<IntentResult>, ys: seq<IntentResult>)
    requires xs != [] && ys != [] && SameResult(xs[0], ys[0]) && SameResults(xs[1..], ys[1..])
    ensures SameResults(xs, ys)
  {
    forall i | 0 <= i < |xs| ensures SameResult(xs[i], ys[i]) {
      if i > 0 {
        assert SameResult(xs[1..][i - 1], ys[1..][i - 1]);
      }
    }
  }

  lemma FirstResultSplit(h: Hasher, xs: seq<IntentResult>, ys: seq<IntentResult>, u: Bytes, v: Bytes)
    requires xs != [] && ys != [] && Encodable(h, xs) && Encodable(h, ys)
    requires ResultsPayload(h, xs).Ok? && ResultsPayload(h, ys).Ok?
    requires ResultsPayload(h, xs).value + u == ResultsPayload(h, ys).value + v
    ensures ResultPayload(h, xs[0]).Ok? && ResultPayload(h, xs[0]) == ResultPayload(h, ys[0])
    ensures ResultsPayload(h, xs[1..]).Ok? && ResultsPayload(h, ys[1..]).Ok?
    ensures ResultsPayload(h, xs[1..]).value + u == ResultsPayload(h, ys[1..]).value + v
  {
    var p, q := ResultPayload(h, xs[0]).value, ResultPayload(h, ys[0]).value;
    var r, t := ResultsPayload(h, xs[1..]).value, ResultsPayload(h, ys[1..]).value;
    ConcatAssociative(WriteBytes(p), r, u);
    ConcatAssociative(WriteBytes(q), t, v);
    WriteBytesSplit(p, q, r + u, t + v);
  }

  lemma {:induction false} ResultsPayloadInjective(
    h: Hasher, xs: seq<IntentResult>, ys: seq<IntentResult>, u: Bytes, v: Bytes, inputs: iset<Bytes>)
    requires CollisionFree(h, inputs) && IdsIn(xs, inputs) && IdsIn(ys, inputs) && Encodable(h, xs) && Encodable(h, ys)
    requires |xs| == |ys| && ResultsPayload(h, xs).Ok? && ResultsPayload(h, ys).Ok?
    requires ResultsPayload(h, xs).value + u == ResultsPayload(h, ys).value + v
    ensures SameResults(xs, ys) && u == v
    decreases |xs|
  {
    if xs == [] {
      assert [] + u == u && [] + v == v;
    } else {
      FirstResultSplit(h, xs, ys, u, v);
      ResultPayloadInjective(h, xs[0], ys[0], inputs);
      ResultsPayloadInjective(h, xs[1..], ys[1..], u, v, inputs);
      SameResultsCons(xs, ys);
    }
  }

  lemma SettlementHeadInjective(a: Settlement, b: Settlement)
    requires |a.outgoing| < TWO_32 && |b.outgoing| < TWO_32 && SettlementHead(a) == SettlementHead(b)
    ensures a.windowId == b.windowId && a.shardId == b.shardId && a.chunkIndex == b.chunkIndex
    ensures a.chunkCount == b.chunkCount && |a.outgoing| == |b.outgoing|
  {
    WidthLimits();
    var a1, b1 := BigEndian(a.windowId, 8) + BigEndian(ToUint64(a.shardId), 8), BigEndian(b.windowId, 8) + BigEndian(ToUint64(b.shardId), 8);
    var a2, b2 := a1 + BigEndian(a.chunkIndex, 4), b1 + BigEndian(b.chunkIndex, 4);
    var a3, b3 := a2 + BigEndian(a.chunkCount, 4), b2 + BigEndian(b.chunkCount, 4);
    PeelLast(a3, BigEndian(|a.outgoing|, 4), b3, BigEndian(|b.outgoing|, 4));
    PeelLast(a2, BigEndian(a.chunkCount, 4), b2, BigEndian(b.chunkCount, 4));
    PeelLast(a1, BigEndian(a.chunkIndex, 4), b1, BigEndian(b.chunkIndex, 4));
    PeelLast(BigEndian(a.windowId, 8), BigEndian(ToUint64(a.shardId), 8), BigEndian(b.windowId, 8), BigEndian(ToUint64(b.shardId), 8));
    BigEndianInjective(|a.outgoing|, |b.outgoing|, 4);
    BigEndianInjective(a.chunkCount, b.chunkCount, 4);
    BigEndianInjective(a.chunkIndex, b.chunkIndex, 4);
    BigEndianInjective(ToUint64(a.shardId), ToUint64(b.shardId), 8);
    BigEndianInjective(a.windowId, b.windowId, 8);
  }

  /** Equal in every field the payload covers: all but the routing BatchID and the signatures. */
  ghost predicate SameSettlement(a: Settlement, b: Settlement) {
    && a.windowId == b.windowId && a.shardId == b.shardId && a.chunkIndex == b.chunkIndex && a.chunkCount == b.chunkCount
    && SameResults(a.outgoing, b.outgoing) && SameResults(a.incoming, b.incoming)
  }

  ghost predicate SettlementIn(h: Hasher, s: Settlement, inputs: iset<Bytes>) {
    Encodable(h, s.outgoing) && Encodable(h, s.incoming) && IdsIn(s.outgoing, inputs) && IdsIn(s.incoming, inputs)
  }

  lemma IncomingInjective(h: Hasher, a: Settlement, b: Settlement, ai: Bytes, bi: Bytes, inputs: iset<Bytes>)
    requires CollisionFree(h, inputs) && SettlementIn(h, a, inputs) && SettlementIn(h, b, inputs)
    requires ResultsPayload(h, a.incoming) == Ok(ai) && ResultsPayload(h, b.incoming) == Ok(bi)
    requires BigEndian(|a.incoming|, 4) + ai == BigEndian(|b.incoming|, 4) + bi
    ensures SameResults(a.incoming, b.incoming)
  {
    WidthLimits();
    SplitEqual(BigEndian(|a.incoming|, 4), ai, BigEndian(|b.incoming|, 4), bi);
    BigEndianInjective(|a.incoming|, |b.incoming|, 4);
    ResultsPayloadInjective(h, a.incoming, b.incoming, [], [], inputs);
  }

  /** The settlement payload determines the settlement. */
  lemma SettlementPayloadInjective(h: Hasher, a: Settlement, b: Settlement, inputs: iset<Bytes>)
    requires CollisionFree(h, inputs) && SettlementIn(h, a, inputs) && SettlementIn(h, b, inputs)
    requires SettlementPayload(h, a).Ok? && SettlementPayload(h, a) == SettlementPayload(h, b)
    ensures SameSettlement(a, b)
  {
    var ao, bo := ResultsPayload(h, a.outgoing).value, ResultsPayload(h, b.outgoing).value;
    var ai, bi := ResultsPayload(h, a.incoming).value, ResultsPayload(h, b.incoming).value;
    var at, bt := BigEndian(|a.incoming|, 4) + ai, BigEndian(|b.incoming|, 4) + bi;
    ConcatAssociative(SettlementHead(a), ao, at);
    ConcatAssociative(SettlementHead(b), bo, bt);
    SplitEqual(SettlementHead(a), ao + at, SettlementHead(b), bo + bt);
    SettlementHeadInjective(a, b);
    ResultsPayloadInjective(h, a.outgoing, b.outgoing, at, bt, inputs);
    IncomingInjective(h, a, b, ai, bi, inputs);
  }

  lemma CommitmentPayloadInjective(a: ShardCommitment, b: ShardCommitment)
    requires CommitmentPayload(a) == CommitmentPayload(b)
    ensures a == b
  {
    WidthLimits();
    var a1, b1 := BigEndian(ToUint64(a.shardId), 8) + BigEndian(a.shardRoot, 32), BigEndian(ToUint64(b.shardId), 8) + BigEndian(b.shardRoot, 32);
    PeelLast(a1, BigEndian(a.chunkCount, 4), b1, BigEndian(b.chunkCount, 4));
    PeelLast(BigEndian(ToUint64(a.shardId), 8), BigEndian(a.shardRoot, 32), BigEndian(ToUint64(b.shardId), 8), BigEndian(b.shardRoot, 32));
    BigEndianInjective(a.chunkCount, b.chunkCount, 4);
    BigEndianInjective(a.shardRoot, b.shardRoot, 32);
    BigEndianInjective(ToUint64(a.shardId), ToUint64(b.shardId), 8);
  }

  // ---- package soundness ----

  /** Every input hashed by the committing side and by the verification of the package, and by the intents' identifiers. */
  ghost predicate PackageIn(h: Hasher, ids: seq<Int64>, ss: seq<Settlement>, pack: Package, inputs: iset<Bytes>)
    requires AllGood(h, ids, ss) && (forall i :: 0 <= i < |ids| ==> ids[i] >= 0)
    requires SettlementPayload(h, pack.settlement).Ok?
  {
    && TreeIn(h, SHARD_DOMAIN, ShardLeaves(h, ids, ss), inputs)
    && (forall i :: 0 <= i < |ids| ==> TreeIn(h, CHUNK_DOMAIN, ChunkLeaves(h, ShardChunks(ss, ids[i])), inputs))
    && (forall s :: s in ss ==> SettlementIn(h, s, inputs))
    && VerifyIn(h, SHARD_DOMAIN, CommitmentPayload(pack.commitment), pack.shardProof, inputs)
    && VerifyIn(h, CHUNK_DOMAIN, SettlementPayload(h, pack.settlement).value, pack.chunkProof, inputs)
    && SettlementIn(h, pack.settlement, inputs)
  }

  lemma CommitmentFound(
    h: Hasher, ids: seq<Int64>, ss: seq<Settlement>, pack: Package, inputs: iset<Bytes>) returns (i: nat)
    requires CollisionFree(h, inputs) && Committed(h, pack.header, ids, ss) && VerifyPackage(h, pack).Ok?
    requires PackageIn(h, ids, ss, pack, inputs)
    ensures i < |ids| && pack.commitment == CommitmentOf(h, ids[i], ShardChunks(ss, ids[i]))
  {
    var leaves := ShardLeaves(h, ids, ss);
    VerifySound(h, SHARD_DOMAIN, leaves, CommitmentPayload(pack.commitment), pack.shardProof, inputs);
    i :| 0 <= i < |leaves| && leaves[i].payload == CommitmentPayload(pack.commitment);
    CommitmentPayloadInjective(pack.commitment, CommitmentOf(h, ids[i], ShardChunks(ss, ids[i])));
  }

  /**
   * A package that verifies against a header committing to the settlements carries exactly the Outgoing and
   * Incoming results committed for its shard and chunk, up to signatures.
   */
  lemma PackageSound(h: Hasher, ids: seq<Int64>, ss: seq<Settlement>, pack: Package, inputs: iset<Bytes>)
    requires CollisionFree(h, inputs) && Committed(h, pack.header, ids, ss) && VerifyPackage(h, pack).Ok?
    requires PackageIn(h, ids, ss, pack, inputs)
    ensures pack.settlement.batchId == pack.header.batchId
    ensures exists s :: s in ss && SameSettlement(pack.settlement, s)
  {
    var i := CommitmentFound(h, ids, ss, pack, inputs);
    var chunks := ShardChunks(ss, ids[i]);
    var payload := SettlementPayload(h, pack.settlement).value;
    var leaves := ChunkLeaves(h, chunks);
    VerifySound(h, CHUNK_DOMAIN, leaves, payload, pack.chunkProof, inputs);
    var j :| 0 <= j < |leaves| && leaves[j].payload == payload;
    ShardChunksMembers(ss, ids[i], chunks[j]);
    SettlementPayloadInjective(h, pack.settlement, chunks[j], inputs);
  }

  // ---- building packages ----

  /** The package BuildSettlementPackages makes for chunk j of shard ids[i]. */
  ghost function PackageOf(h: Hasher, header: Header, ids: seq<Int64>, ss: seq<Settlement>, i: nat, j: nat): Package
    requires i < |ids| && AllGood(h, ids, ss) && (forall k :: 0 <= k < |ids| ==> ids[k] >= 0)
    requires j < |ShardChunks(ss, ids[i])|
  {
    var chunks := ShardChunks(ss, ids[i]);
    Package(header, chunks[j],
            ProofSteps(h, LeafLevel(h, CHUNK_DOMAIN, ChunkLeaves(h, chunks)), j),
            CommitmentOf(h, ids[i], chunks),
            ProofSteps(h, LeafLevel(h, SHARD_DOMAIN, ShardLeaves(h, ids, ss)), i))
  }

  lemma ChunkProofVerifies(h: Hasher, shard: Int64, chunks: seq<Settlement>, j: nat)
    requires GoodChunks(h, chunks) && j < |chunks|
    ensures Verify(h, CHUNK_DOMAIN, SettlementPayload(h, chunks[j]).value,
                   ProofSteps(h, LeafLevel(h, CHUNK_DOMAIN, ChunkLeaves(h, chunks)), j), CommitmentOf(h, shard, chunks).shardRoot)
    ensures CommitmentOf(h, shard, chunks).chunkCount == chunks[j].chunkCount
  {
    ProofsVerify(h, CHUNK_DOMAIN, ChunkLeaves(h, chunks), j);
  }

  /** Every package built for a committed set of settlements verifies. */
  lemma PackagesVerify(h: Hasher, header: Header, ids: seq<Int64>, ss: seq<Settlement>, i: nat, j: nat)
    requires Committed(h, header, ids, ss) && HeaderDerived(h, header)
    requires i < |ids| && j < |ShardChunks(ss, ids[i])|
    requires forall s :: s in ss ==> s.batchId == header.batchId && s.windowId == header.windowId
    ensures VerifyPackage(h, PackageOf(h, header, ids, ss, i, j)).Ok?
    ensures PackageOf(h, header, ids, ss, i, j).settlement in ss
  {
    var chunks := ShardChunks(ss, ids[i]);
    ShardChunksMembers(ss, ids[i], chunks[j]);
    ChunkProofVerifies(h, ids[i], chunks, j);
    var leaves := ShardLeaves(h, ids, ss);
    ProofsVerify(h, SHARD_DOMAIN, leaves, i);
    assert leaves[i].payload == CommitmentPayload(CommitmentOf(h, ids[i], chunks));
  }
}
