/** BuildSettlementPackages (pkg/netting/batch/builder.go): two levels of trees and one package per chunk. */
module PackageBuilding {
  import opened Base
  import opened ByteStrings
  import opened Merkle
  import opened Model
  import opened Packages
  import opened Sorting
  import opened Builder
  import opened BuilderProofs

  function ShardRank(): Int64 -> int {
    (s: Int64) => s
  }

  // ---- grouping ----

  lemma {:induction false} OfShardSnoc(ss: seq<Settlement>, x: Settlement, s: Int64)
    ensures OfShard(ss + [x], s) == OfShard(ss, s) + if x.shardId == s then [x] else []
    decreases |ss|
  {
    if ss == [] {
      assert ss + [x] == [x] && [x][1..] == [];
    } else {
      OfShardSnoc(ss[1..], x, s);
      assert (ss + [x])[1..] == ss[1..] + [x] && (ss + [x])[0] == ss[0];
      var first, last := if ss[0].shardId == s then [ss[0]] else [], if x.shardId == s then [x] else [];
      ConcatAssociative(first, OfShard(ss[1..], s), last);
    }
  }

  ghost predicate Grouped(byShard: map<Int64, seq<Settlement>>, ss: seq<Settlement>) {
    (forall s :: s in byShard <==> Names(ss, s)) && forall s :: s in byShard ==> byShard[s] == OfShard(ss, s)
  }

  lemma NamesSnoc(ss: seq<Settlement>, x: Settlement, s: Int64)
    ensures Names(ss + [x], s) <==> Names(ss, s) || x.shardId == s
  {
    if Names(ss, s) {
      var y :| y in ss && y.shardId == s;
      assert y in ss + [x];
    }
    if s == x.shardId {
      assert x in ss + [x];
    }
  }

  lemma GroupedSnoc(byShard: map<Int64, seq<Settlement>>, ss: seq<Settlement>, x: Settlement)
    requires Grouped(byShard, ss)
    ensures Grouped(byShard[x.shardId := (if x.shardId in byShard then byShard[x.shardId] else []) + [x]], ss + [x])
  {
    var next := byShard[x.shardId := (if x.shardId in byShard then byShard[x.shardId] else []) + [x]];
    forall s ensures s in next <==> Names(ss + [x], s) {
      NamesSnoc(ss, x, s);
    }
    forall s | s in next ensures next[s] == OfShard(ss + [x], s) {
      OfShardSnoc(ss, x, s);
      if s !in byShard {
        NoneOfShard(ss, s);
      }
    }
  }

  method GroupByShard(ss: seq<Settlement>) returns (byShard: map<Int64, seq<Settlement>>)
    ensures Grouped(byShard, ss)
  {
    byShard := map[];
    for i := 0 to |ss|
      invariant Grouped(byShard, ss[..i])
    {
      GroupedSnoc(byShard, ss[..i], ss[i]);
      assert ss[..i + 1] == ss[..i] + [ss[i]];
      var s := ss[i].shardId;
      byShard := byShard[s := (if s in byShard then byShard[s] else []) + [ss[i]]];
    }
    assert ss[..|ss|] == ss;
  }

  /** The shards in order, and the settlements of each. */
  method OrderedShards(
    byShard: map<Int64, seq<Settlement>>, ghost ss: seq<Settlement>)
    returns (ids: seq<Int64>, lists: seq<seq<Settlement>>)
    requires Grouped(byShard, ss)
    ensures ShardsOf(ids, ss) && Lists(ids, ss, lists)
  {
    var listed := Listing(byShard.Keys);
    ids := SortBy(listed, ShardRank());
    SortedShards(byShard, ss, listed, ids);
    lists := seq(|ids|, i requires 0 <= i < |ids| && (forall k :: 0 <= k < |ids| ==> ids[k] in byShard) => byShard[ids[i]]);
  }

  lemma SortedShards(byShard: map<Int64, seq<Settlement>>, ss: seq<Settlement>, listed: seq<Int64>, ids: seq<Int64>)
    requires Grouped(byShard, ss) && NoDuplicates(listed) && (forall s :: s in listed <==> s in byShard)
    requires ids == SortBy(listed, ShardRank())
    ensures ShardsOf(ids, ss) && forall i :: 0 <= i < |ids| ==> ids[i] in byShard
  {
    SortByProperties(listed, ShardRank());
    SameElements(listed, ids);
    forall i, j | 0 <= i < j < |listed| ensures ShardRank()(listed[i]) != ShardRank()(listed[j]) {
    }
    DistinctPermutes(listed, ids, ShardRank());
    forall i, j | 0 <= i < j < |ids| ensures ids[i] < ids[j] {
      assert Sorted(ids, ShardRank()) && Distinct(ids, ShardRank());
      assert ShardRank()(ids[i]) <= ShardRank()(ids[j]) && ShardRank()(ids[i]) != ShardRank()(ids[j]);
    }
    forall i | 0 <= i < |ids| ensures ids[i] in byShard && Names(ss, ids[i]) {
      assert ids[i] in ids;
    }
    forall x | x in ss ensures x.shardId in ids {
      assert Names(ss, x.shardId);
    }
  }

  // ---- one shard's chunk tree ----

  lemma GoodLeavesOrdered(h: Hasher, chunks: seq<Settlement>)
    requires GoodChunks(h, chunks)
    ensures SortBy(ChunkLeaves(h, chunks), KeyOf()) == ChunkLeaves(h, chunks) && Distinct(ChunkLeaves(h, chunks), KeyOf())
  {
    OrderedLeaves(ChunkLeaves(h, chunks));
  }

  method LeavesOfChunks(h: Hasher, chunks: seq<Settlement>) returns (r: Result<seq<Leaf>>)
    ensures r.Ok? <==> GoodChunks(h, chunks)
    ensures r.Ok? ==> r.value == ChunkLeaves(h, chunks)
  {
    var leaves: seq<Leaf> := [];
    for j := 0 to |chunks|
      invariant |leaves| == j && forall k :: 0 <= k < j ==> GoodChunk(h, chunks[k], k, |chunks|) && leaves[k] == Leaf(k, SettlementPayload(h, chunks[k]).value)
    {
      if chunks[j].chunkCount != |chunks| || chunks[j].chunkIndex != j {
        return Err(InvalidSettlement);
      }
      var payload := SettlementPayload(h, chunks[j]);
      if payload.Err? {
        return Err(payload.error);
      }
      leaves := leaves + [Leaf(j, payload.value)];
    }
    r := Ok(leaves);
  }

  ghost predicate IsTree(h: Hasher, domain: string, leaves: seq<Leaf>, t: Tree) {
    t == MakeTree(h, domain, leaves, t.indexes) && IndexesLeaves(t.indexes, leaves)
  }

  ghost function TreeSet(h: Hasher, domain: string, leaves: seq<Leaf>): iset<Tree> {
    iset t | IsTree(h, domain, leaves, t)
  }

  /** The chunk tree of one shard, or an error exactly when its chunks are not numbered 0 to n - 1 of n with payloads. */
  method ChunkTree(h: Hasher, chunks: seq<Settlement>) returns (r: Result<Tree>)
    ensures r.Ok? <==> GoodChunks(h, chunks)
    ensures r.Ok? ==> IsTree(h, CHUNK_DOMAIN, ChunkLeaves(h, chunks), r.value)
  {
    var leaves := LeavesOfChunks(h, chunks);
    if leaves.Err? {
      return Err(leaves.error);
    }
    GoodLeavesOrdered(h, chunks);
    r := Build(h, CHUNK_DOMAIN, leaves.value);
  }

  // ---- all shards ----

  ghost predicate TreeFor(h: Hasher, shard: Int64, chunks: seq<Settlement>, tree: Tree, leaf: Leaf) {
    && GoodChunks(h, chunks) && shard >= 0 && IsTree(h, CHUNK_DOMAIN, ChunkLeaves(h, chunks), tree)
    && leaf == Leaf(shard, CommitmentPayload(CommitmentOf(h, shard, chunks)))
  }

  /** A shard that has chunks with payloads is not negative. */
  lemma GoodShardNonNegative(h: Hasher, ss: seq<Settlement>, s: Int64)
    requires Names(ss, s) && GoodChunks(h, ShardChunks(ss, s))
    ensures s >= 0
  {
    var x :| x in ss && x.shardId == s;
    var chunks := ShardChunks(ss, s);
    ShardChunksMembers(ss, s, x);
    var j :| 0 <= j < |chunks| && chunks[j] == x;
    assert GoodChunk(h, chunks[j], j, |chunks|);
  }

  /** One shard: its chunk tree and its leaf in the shard tree. */
  method ShardTree(h: Hasher, shard: Int64, chunks: seq<Settlement>) returns (r: Result<(Tree, Leaf)>)
    requires |chunks| < TWO_32 && (GoodChunks(h, chunks) ==> shard >= 0)
    ensures r.Ok? <==> GoodChunks(h, chunks)
    ensures r.Ok? ==> TreeFor(h, shard, chunks, r.value.0, r.value.1)
  {
    var tree := ChunkTree(h, chunks);
    if tree.Err? {
      return Err(tree.error);
    }
    CommitmentIs(h, shard, chunks, tree.value);
    r := Ok((tree.value, Leaf(shard, CommitmentPayload(ShardCommitment(shard, tree.value.root, |chunks|)))));
  }

  lemma CommitmentIs(h: Hasher, shard: Int64, chunks: seq<Settlement>, tree: Tree)
    requires GoodChunks(h, chunks) && |chunks| < TWO_32 && IsTree(h, CHUNK_DOMAIN, ChunkLeaves(h, chunks), tree)
    ensures CommitmentOf(h, shard, chunks) == ShardCommitment(shard, tree.root, |chunks|)
  {
  }

  /** The leaf of one shard in the shard tree. */
  ghost function ShardLeaf(h: Hasher, ss: seq<Settlement>, s: Int64): Leaf
    requires GoodShard(h, ss, s) && s >= 0
  {
    Leaf(s, CommitmentPayload(CommitmentOf(h, s, ShardChunks(ss, s))))
  }

  ghost predicate LeafFor(h: Hasher, ss: seq<Settlement>, s: Int64, leaf: Leaf) {
    GoodShard(h, ss, s) && s >= 0 && leaf == ShardLeaf(h, ss, s)
  }

  ghost function LeafSet(h: Hasher, ss: seq<Settlement>, s: Int64): iset<Leaf> {
    iset leaf | LeafFor(h, ss, s, leaf)
  }

  method LeafOfShard(
    h: Hasher, shard: Int64, ghost ss: seq<Settlement>, settlements: seq<Settlement>) returns (r: Result<Leaf>)
    requires |ss| < TWO_32 && Names(ss, shard) && settlements == OfShard(ss, shard)
    ensures r.Ok? <==> GoodShard(h, ss, shard)
    ensures r.Ok? ==> r.value in LeafSet(h, ss, shard)
  {
    var chunks := SortBy(settlements, ByChunk());
    assert chunks == ShardChunks(ss, shard);
    ChunksFit(ss, shard);
    if GoodChunks(h, chunks) {
      GoodShardNonNegative(h, ss, shard);
    }
    var one := ShardTree(h, shard, chunks);
    if one.Err? {
      return Err(one.error);
    }
    r := Ok(one.value.1);
  }

  /** The settlements of each of the shards. */
  ghost predicate Lists(ids: seq<Int64>, ss: seq<Settlement>, lists: seq<seq<Settlement>>) {
    |lists| == |ids| && forall i :: 0 <= i < |ids| ==> Names(ss, ids[i]) && lists[i] == OfShard(ss, ids[i])
  }

  method LeavesOfShards(
    h: Hasher, ids: seq<Int64>, ghost ss: seq<Settlement>, lists: seq<seq<Settlement>>) returns (r: Result<seq<Leaf>>)
    requires |ss| < TWO_32 && Lists(ids, ss, lists)
    ensures r.Ok? <==> AllGood(h, ids, ss)
    ensures r.Ok? ==> |r.value| == |ids| && forall i :: 0 <= i < |ids| ==> r.value[i] in LeafSet(h, ss, ids[i])
  {
    var leaves: seq<Leaf> := [];
    for i := 0 to |ids|
      invariant |leaves| == i && forall k :: 0 <= k < i ==> leaves[k] in LeafSet(h, ss, ids[k])
    {
      var one := LeafOfShard(h, ids[i], ss, lists[i]);
      if one.Err? {
        return Err(one.error);
      }
      leaves := leaves + [one.value];
    }
    LeavesGood(h, ids, ss, leaves);
    r := Ok(leaves);
  }

  lemma LeavesGood(h: Hasher, ids: seq<Int64>, ss: seq<Settlement>, leaves: seq<Leaf>)
    requires |leaves| == |ids| && forall i :: 0 <= i < |ids| ==> leaves[i] in LeafSet(h, ss, ids[i])
    ensures AllGood(h, ids, ss)
  {
    forall i | 0 <= i < |ids| ensures GoodShard(h, ss, ids[i]) {
      assert leaves[i] in LeafSet(h, ss, ids[i]);
    }
  }

  /** Settlements packages can be made of. */
  ghost predicate Packable(h: Hasher, ids: seq<Int64>, ss: seq<Settlement>) {
    AllGood(h, ids, ss) && forall k :: 0 <= k < |ids| ==> ids[k] >= 0
  }

  lemma {:induction false} OfShardSize(ss: seq<Settlement>, s: Int64)
    ensures |OfShard(ss, s)| <= |ss|
    decreases |ss|
  {
    if ss != [] {
      OfShardSize(ss[1..], s);
    }
  }

  lemma ChunksFit(ss: seq<Settlement>, s: Int64)
    ensures |ShardChunks(ss, s)| <= |ss|
  {
    OfShardSize(ss, s);
    SortByProperties(OfShard(ss, s), ByChunk());
  }

  // ---- the packages ----

  ghost function ChunkCount(ids: seq<Int64>, ss: seq<Settlement>, i: nat): nat
    requires i < |ids|
  {
    |ShardChunks(ss, ids[i])|
  }

  ghost function PackagesOfShard(
    h: Hasher, header: Header, ids: seq<Int64>, ss: seq<Settlement>, i: nat, m: nat): seq<Package>
    requires Packable(h, ids, ss) && i < |ids| && m <= ChunkCount(ids, ss, i)
  {
    if m == 0 then [] else PackagesOfShard(h, header, ids, ss, i, m - 1) + [PackageOf(h, header, ids, ss, i, m - 1)]
  }

  ghost function ShardPackages(h: Hasher, header: Header, ids: seq<Int64>, ss: seq<Settlement>, i: nat): seq<Package>
    requires Packable(h, ids, ss) && i < |ids|
  {
    PackagesOfShard(h, header, ids, ss, i, ChunkCount(ids, ss, i))
  }

  /** One package per chunk, in the order of shards and chunk indexes. */
  ghost function PackagesOf(h: Hasher, header: Header, ids: seq<Int64>, ss: seq<Settlement>, n: nat): seq<Package>
    requires Packable(h, ids, ss) && n <= |ids|
  {
    if n == 0 then [] else PackagesOf(h, header, ids, ss, n - 1) + ShardPackages(h, header, ids, ss, n - 1)
  }

  lemma LeavesAre(h: Hasher, ids: seq<Int64>, ss: seq<Settlement>, leaves: seq<Leaf>)
    requires |leaves| == |ids| && forall i :: 0 <= i < |ids| ==> leaves[i] in LeafSet(h, ss, ids[i])
    ensures Packable(h, ids, ss) && leaves == ShardLeaves(h, ids, ss)
  {
    forall i | 0 <= i < |ids| ensures GoodShard(h, ss, ids[i]) && ids[i] >= 0 {
      assert LeafFor(h, ss, ids[i], leaves[i]);
    }
    forall i | 0 <= i < |ids| ensures leaves[i] == ShardLeaves(h, ids, ss)[i] {
      assert LeafFor(h, ss, ids[i], leaves[i]);
    }
  }

  lemma ShardLeavesOrdered(h: Hasher, ids: seq<Int64>, ss: seq<Settlement>)
    requires ShardsOf(ids, ss) && Packable(h, ids, ss)
    ensures SortBy(ShardLeaves(h, ids, ss), KeyOf()) == ShardLeaves(h, ids, ss) && Distinct(ShardLeaves(h, ids, ss), KeyOf())
  {
    OrderedLeaves(ShardLeaves(h, ids, ss));
  }

  lemma TreeIndex(h: Hasher, domain: string, leaves: seq<Leaf>, t: Tree, i: nat)
    requires IsTree(h, domain, leaves, t) && i < |leaves|
    ensures t.leaves == leaves && t.domain == domain && leaves[i].key in t.indexes && t.indexes[leaves[i].key] == i
  {
  }

  /** Proof, for a key that is there. */
  method ProofAt(
    h: Hasher, ghost domain: string, ghost leaves: seq<Leaf>, t: Tree, ghost i: nat, key: nat)
    returns (r: Result<seq<Step>>)
    requires IsTree(h, domain, leaves, t) && i < |leaves| && leaves[i].key == key
    ensures r == Ok(ProofSteps(h, LeafLevel(h, domain, leaves), i))
  {
    TreeIndex(h, domain, leaves, t, i);
    r := Proof(h, t, key);
  }

  lemma PackageIs(h: Hasher, header: Header, ids: seq<Int64>, ss: seq<Settlement>, i: nat, j: nat, tree: Tree)
    requires Packable(h, ids, ss) && |ss| < TWO_32 && i < |ids| && j < ChunkCount(ids, ss, i)
    requires IsTree(h, CHUNK_DOMAIN, ChunkLeaves(h, ShardChunks(ss, ids[i])), tree)
    ensures var chunks := ShardChunks(ss, ids[i]);
      && ChunkLeaves(h, chunks)[j].key == j && chunks[j].chunkIndex == j && |chunks| < TWO_32
      && PackageOf(h, header, ids, ss, i, j) == Package(header, chunks[j], ProofSteps(h, LeafLevel(h, CHUNK_DOMAIN, ChunkLeaves(h, chunks)), j),
           ShardCommitment(ids[i], tree.root, |chunks|), ProofSteps(h, LeafLevel(h, SHARD_DOMAIN, ShardLeaves(h, ids, ss)), i))
  {
    ChunksFit(ss, ids[i]);
    CommitmentIs(h, ids[i], ShardChunks(ss, ids[i]), tree);
  }

  /** One package. */
  method PackChunk(
    h: Hasher, header: Header, ghost ids: seq<Int64>, ghost ss: seq<Settlement>, ghost i: nat, shard: Int64,
    chunks: seq<Settlement>, j: nat, tree: Tree, shardProof: seq<Step>)
    returns (r: Result<Package>)
    requires Packable(h, ids, ss) && |ss| < TWO_32 && i < |ids| && shard == ids[i]
    requires chunks == ShardChunks(ss, ids[i]) && j < ChunkCount(ids, ss, i)
    requires IsTree(h, CHUNK_DOMAIN, ChunkLeaves(h, chunks), tree)
    requires shardProof == ProofSteps(h, LeafLevel(h, SHARD_DOMAIN, ShardLeaves(h, ids, ss)), i)
    ensures r == Ok(PackageOf(h, header, ids, ss, i, j))
  {
    PackageIs(h, header, ids, ss, i, j, tree);
    var chunkProof := ProofAt(h, CHUNK_DOMAIN, ChunkLeaves(h, chunks), tree, j, chunks[j].chunkIndex);
    if chunkProof.Err? {
      return Err(LeafNotFound);
    }
    r := Ok(Package(header, chunks[j], chunkProof.value, ShardCommitment(shard, tree.root, |chunks|), shardProof));
  }

  method PackChunks(
    h: Hasher, header: Header, ghost ids: seq<Int64>, ghost ss: seq<Settlement>, ghost i: nat, shard: Int64,
    chunks: seq<Settlement>, tree: Tree, shardProof: seq<Step>)
    returns (r: Result<seq<Package>>)
    requires Packable(h, ids, ss) && |ss| < TWO_32 && i < |ids| && shard == ids[i] && chunks == ShardChunks(ss, ids[i])
    requires IsTree(h, CHUNK_DOMAIN, ChunkLeaves(h, chunks), tree)
    requires shardProof == ProofSteps(h, LeafLevel(h, SHARD_DOMAIN, ShardLeaves(h, ids, ss)), i)
    ensures r == Ok(ShardPackages(h, header, ids, ss, i))
  {
    var packages: seq<Package> := [];
    for j := 0 to |chunks|
      invariant packages == PackagesOfShard(h, header, ids, ss, i, j)
    {
      var one := PackChunk(h, header, ids, ss, i, shard, chunks, j, tree, shardProof);
      if one.Err? {
        return Err(LeafNotFound);
      }
      packages := packages + [one.value];
    }
    r := Ok(packages);
  }

  /** The packages of one shard. */
  method PackShard(
    h: Hasher, header: Header, ghost ids: seq<Int64>, ghost ss: seq<Settlement>, ghost i: nat, shard: Int64,
    settlements: seq<Settlement>, shardTree: Tree)
    returns (r: Result<seq<Package>>)
    requires Packable(h, ids, ss) && |ss| < TWO_32 && i < |ids| && shard == ids[i] && settlements == OfShard(ss, shard)
    requires shardTree in TreeSet(h, SHARD_DOMAIN, ShardLeaves(h, ids, ss))
    ensures r == Ok(ShardPackages(h, header, ids, ss, i))
  {
    var chunks := SortBy(settlements, ByChunk());
    assert chunks == ShardChunks(ss, ids[i]) && GoodShard(h, ss, ids[i]);
    var shardProof := ProofAt(h, SHARD_DOMAIN, ShardLeaves(h, ids, ss), shardTree, i, shard);
    var tree := ChunkTree(h, chunks);
    if shardProof.Err? || tree.Err? {
      return Err(LeafNotFound);
    }
    r := PackChunks(h, header, ids, ss, i, shard, chunks, tree.value, shardProof.value);
  }

  /** The packages of one more shard. */
  method PackNext(
    h: Hasher, header: Header, ghost ids: seq<Int64>, ghost ss: seq<Settlement>, ghost i: nat, shard: Int64,
    settlements: seq<Settlement>, shardTree: Tree, packages: seq<Package>)
    returns (r: Result<seq<Package>>)
    requires Packable(h, ids, ss) && |ss| < TWO_32 && i < |ids| && shard == ids[i] && settlements == OfShard(ss, shard)
    requires shardTree in TreeSet(h, SHARD_DOMAIN, ShardLeaves(h, ids, ss))
    requires packages == PackagesOf(h, header, ids, ss, i)
    ensures r == Ok(PackagesOf(h, header, ids, ss, i + 1))
  {
    var some := PackShard(h, header, ids, ss, i, shard, settlements, shardTree);
    r := if some.Ok? then Ok(packages + some.value) else Err(LeafNotFound);
  }

  /** The packages of all shards. */
  method PackAll(
    h: Hasher, header: Header, ids: seq<Int64>, ghost ss: seq<Settlement>, lists: seq<seq<Settlement>>,
    shardTree: Tree)
    returns (r: Result<seq<Package>>)
    requires Packable(h, ids, ss) && |ss| < TWO_32 && Lists(ids, ss, lists)
    requires shardTree in TreeSet(h, SHARD_DOMAIN, ShardLeaves(h, ids, ss))
    ensures r == Ok(PackagesOf(h, header, ids, ss, |ids|))
  {
    r := Ok([]);
    for i := 0 to |ids|
      invariant r == Ok(PackagesOf(h, header, ids, ss, i))
    {
      r := PackNext(h, header, ids, ss, i, ids[i], lists[i], shardTree, r.value);
      if r.Err? {
        return;
      }
    }
  }

  /** BuildSettlementPackages succeeds exactly when the header commits to the well-chunked settlements of the sidecar. */
  method BuildSettlementPackages(h: Hasher, p: Proposal) returns (r: Result<seq<Package>>, ids: seq<Int64>)
    requires |p.sidecar.shardSettlements| < TWO_32
    ensures ShardsOf(ids, p.sidecar.shardSettlements)
    ensures r.Ok? <==> Committed(h, p.header, ids, p.sidecar.shardSettlements)
    ensures r.Ok? ==> Packable(h, ids, p.sidecar.shardSettlements) && r.value == PackagesOf(h, p.header, ids, p.sidecar.shardSettlements, |ids|)
  {
    ghost var ss := p.sidecar.shardSettlements;
    var byShard := GroupByShard(p.sidecar.shardSettlements);
    var lists;
    ids, lists := OrderedShards(byShard, ss);
    var leaves := LeavesOfShards(h, ids, ss, lists);
    if leaves.Err? {
      return Err(leaves.error), ids;
    }
    LeavesAre(h, ids, ss, leaves.value);
    ShardLeavesOrdered(h, ids, ss);
    var shardTree := Build(h, SHARD_DOMAIN, leaves.value);
    if shardTree.Err? {
      return Err(DuplicateKey), ids;
    }
    if shardTree.value.root != p.header.shardSettlementRoot {
      return Err(InvalidSettlement), ids;
    }
    r := PackAll(h, p.header, ids, ss, lists, shardTree.value);
  }
}
