/** The CLPA state and its run (pkg/partition/clpa.go); the scores that pick a target shard are left to chance. */
module ClpaRun {
  import opened ByteStrings
  import opened Sums
  import opened Sorting
  import opened Clpa

  const UPDATE_THRESHOLD: nat := 50

  // ---- recomputing from the whole graph ----

  /** What the listed vertices contribute to shard k. */
  function ListedCost(d: Default, loc: Locations, edges: Edges, vs: seq<Vertex>, k: int): int
    requires forall v :: v in vs ==> v in edges
  {
    if vs == [] then 0 else
      assert vs[|vs| - 1] in vs;
      ListedCost(d, loc, edges, vs[..|vs| - 1], k) + VertexCost(d, loc, edges, vs[|vs| - 1], k)
  }

  lemma {:induction false} ListedIsSum(
    m: map<Vertex, int>, d: Default, loc: Locations, edges: Edges, vs: seq<Vertex>, k: int)
    requires NoDuplicates(vs) && (forall v :: v in vs <==> v in m)
    requires (forall v :: v in m ==> v in edges && m[v] == VertexCost(d, loc, edges, v, k))
    ensures ListedCost(d, loc, edges, vs, k) == Sum<Vertex>(m)
    decreases |vs|
  {
    if vs == [] {
      assert m == map[];
    } else {
      var n := |vs| - 1;
      var front, last, rest := vs[..n], vs[n], m - {vs[n]};
      assert last in vs;
      SumRemove(m, last);
      FrontListed(vs, m.Keys);
      assert forall v :: v in front <==> v in rest;
      ListedIsSum(rest, d, loc, edges, front, k);
    }
  }

  lemma FrontListed(vs: seq<Vertex>, keys: set<Vertex>)
    requires vs != [] && NoDuplicates(vs) && forall v :: v in vs <==> v in keys
    ensures forall v :: v in vs[..|vs| - 1] <==> v in keys && v != vs[|vs| - 1]
  {
    var n := |vs| - 1;
    forall v ensures v in vs[..n] <==> v in keys && v != vs[n] {
      assert v in vs <==> v in vs[..n] || v == vs[n];
    }
  }

  /** The ends counted so far for every shard are what the given costs say. */
  ghost predicate Counted(cross: seq<int>, inner: seq<int>, costs: int -> int) {
    |cross| == |inner| && forall k :: 0 <= k < |cross| ==> 2 * cross[k] + inner[k] == costs(k)
  }

  ghost function Costing(d: Default, loc: Locations, edges: Edges, vs: seq<Vertex>, v: Vertex, n: nat): int -> int
    requires (forall x :: x in vs ==> x in edges) && v in edges && n <= |edges[v]|
  {
    (k: int) => ListedCost(d, loc, edges, vs, k) + if Location(d, loc, v) == k then ListCost(d, loc, edges[v][..n], k) else 0
  }

  class CLPAState {
    const shardNum: nat
    const maxIterations: nat
    const d: Default
    var vertices: set<Vertex>
    var edges: Edges
    var partitionMap: Locations
    var shardWeight: seq<int>
    var vertexNumInShard: seq<int>

    ghost predicate Valid()
      reads this
    {
      && shardNum > 0 && |shardWeight| == shardNum && |vertexNumInShard| == shardNum && (forall v :: 0 <= d(v) < shardNum)
      && vertices == partitionMap.Keys && (forall v :: v in partitionMap ==> 0 <= partitionMap[v] < shardNum)
      && Symmetric(edges) && edges.Keys <= vertices && Counts(partitionMap, vertexNumInShard)
    }

    constructor (shardNum: nat, maxIterations: nat, d: Default)
      requires shardNum > 0 && forall v :: 0 <= d(v) < shardNum
      ensures Valid() && vertices == {} && edges == map[]
    {
      this.shardNum, this.maxIterations, this.d := shardNum, maxIterations, d;
      vertices, edges, partitionMap := {}, map[], map[];
      shardWeight := seq(shardNum, _ => 0);
      vertexNumInShard := seq(shardNum, _ => 0);
      new;
      NoneCounted(vertexNumInShard);
    }

    method AddVertex(v: Vertex)
      requires Valid()
      modifies this`vertices, this`partitionMap, this`vertexNumInShard
      ensures Valid() && vertices == old(vertices) + {v} && v in partitionMap
      ensures forall x :: Location(d, partitionMap, x) == old(Location(d, partitionMap, x))
    {
      vertices := vertices + {v};
      if v !in partitionMap {
        var loc := d(v);
        CountAdded(partitionMap, vertexNumInShard, v, loc);
        partitionMap := partitionMap[v := loc];
        vertexNumInShard := vertexNumInShard[loc := vertexNumInShard[loc] + 1];
      }
    }

    method AddEdge(u: Vertex, v: Vertex)
      requires Valid()
      modifies this`vertices, this`partitionMap, this`vertexNumInShard, this`edges
      ensures Valid() && edges == WithEdge(old(edges), u, v) && vertices == old(vertices) + {u, v}
    {
      if u !in vertices {
        AddVertex(u);
      }
      if v !in vertices {
        AddVertex(v);
      }
      AddEdgeSymmetric(edges, u, v);
      edges := edges[u := (if u in edges then edges[u] else []) + [v]];
      edges := edges[v := (if v in edges then edges[v] else []) + [u]];
    }

    /** The inner loop of computeEdges2Shard. */
    method CountEnds(
      v: Vertex, ghost vs: seq<Vertex>, cross0: seq<int>, inner0: seq<int>) returns (cross: seq<int>, inner: seq<int>)
      requires Valid() && v in edges && (forall x :: x in vs ==> x in edges) && |cross0| == shardNum
      requires Counted(cross0, inner0, Costing(d, partitionMap, edges, vs, v, 0))
      ensures |cross| == shardNum && Counted(cross, inner, Costing(d, partitionMap, edges, vs, v, |edges[v]|))
    {
      cross, inner := cross0, inner0;
      var vShard := Location(d, partitionMap, v);
      var list := edges[v];
      for i := 0 to |list|
        invariant |cross| == shardNum && Counted(cross, inner, Costing(d, partitionMap, edges, vs, v, i))
      {
        assert list[..i + 1][..i] == list[..i];
        if vShard != Location(d, partitionMap, list[i]) {
          cross := cross[vShard := cross[vShard] + 1];
        } else {
          inner := inner[vShard := inner[vShard] + 1];
        }
      }
    }

    /** The loop of computeEdges2Shard over the lists, in any order. */
    method CountAllEnds() returns (cross: seq<int>, inner: seq<int>)
      requires Valid()
      ensures |cross| == shardNum && |inner| == shardNum && forall k :: 0 <= k < shardNum ==> 2 * cross[k] + inner[k] == Weight(d, partitionMap, edges, k)
    {
      var vs: seq<Vertex> := Listing(edges.Keys);
      assert forall v :: v in vs <==> v in edges;
      cross, inner := seq(shardNum, _ => 0), seq(shardNum, _ => 0);
      for i := 0 to |vs|
        invariant |cross| == shardNum && |inner| == shardNum
        invariant forall k :: 0 <= k < shardNum ==> 2 * cross[k] + inner[k] == ListedCost(d, partitionMap, edges, vs[..i], k)
      {
        var v: Vertex := vs[i];
        assert v in vs;
        cross, inner := CountEnds(v, vs[..i], cross, inner);
        ListedNext(d, partitionMap, edges, vs, i);
      }
      assert vs[..|vs|] == vs;
      forall k | 0 <= k < shardNum ensures ListedCost(d, partitionMap, edges, vs, k) == Weight(d, partitionMap, edges, k) {
        ListedIsSum(Costs(d, partitionMap, edges, k), d, partitionMap, edges, vs, k);
      }
    }

    /** computeEdges2Shard: exact weights. */
    method ComputeEdges2Shard()
      requires Valid()
      modifies this`shardWeight
      ensures Valid() && Exact(d, partitionMap, edges, shardWeight)
    {
      var cross, inner := CountAllEnds();
      shardWeight := seq(shardNum, i requires 0 <= i < |cross| && i < |inner| => 2 * cross[i] + inner[i]);
    }

    /** changeShardRecompute: the weights of the two shards, edge by edge. */
    method ChangeShardRecompute(v: Vertex, old': int)
      requires Valid() && v in edges && 0 <= old' < shardNum && Location(d, partitionMap, v) != old'
      modifies this`shardWeight
      ensures Valid() && shardWeight == Recomputed(d, partitionMap, edges, v, old', old(shardWeight))
    {
      var newShard := Location(d, partitionMap, v);
      var list := edges[v];
      ghost var w := shardWeight;
      for i := 0 to |list|
        invariant |shardWeight| == shardNum
        invariant shardWeight == Shifted(d, partitionMap, list[..i], newShard, old', w)
      {
        var uShard := Location(d, partitionMap, list[i]);
        assert list[..i + 1][..i] == list[..i];
        if uShard != newShard && uShard != old' {
          shardWeight := shardWeight[newShard := shardWeight[newShard] + 2];
          shardWeight := shardWeight[old' := shardWeight[old'] - 2];
        } else if uShard == newShard {
          shardWeight := shardWeight[old' := shardWeight[old'] - 2];
        } else {
          shardWeight := shardWeight[newShard := shardWeight[newShard] + 2];
        }
      }
      assert list[..|list|] == list;
    }

    /** One move of CLPAPartition: v leaves a shard that keeps another vertex. */
    method Move(v: Vertex, s: int)
      requires Valid() && v in edges && 0 <= s < shardNum && s != Location(d, partitionMap, v)
      requires vertexNumInShard[Location(d, partitionMap, v)] > 1
      modifies this`partitionMap, this`vertexNumInShard, this`shardWeight
      ensures Valid() && partitionMap == old(partitionMap)[v := s]
      ensures forall k :: 0 <= k < shardNum && old(vertexNumInShard)[k] > 0 ==> vertexNumInShard[k] > 0
      ensures old(Exact(d, partitionMap, edges, shardWeight)) && v !in edges[v] ==> Exact(d, partitionMap, edges, shardWeight)
    {
      var now := Location(d, partitionMap, v);
      CountMoved(partitionMap, vertexNumInShard, v, s);
      MoveExact(d, partitionMap, edges, v, s, shardWeight);
      partitionMap := partitionMap[v := s];
      vertexNumInShard := vertexNumInShard[now := vertexNumInShard[now] - 1];
      vertexNumInShard := vertexNumInShard[s := vertexNumInShard[s] + 1];
      ChangeShardRecompute(v, now);
    }

    /** One pass of CLPAPartition over the vertices, in any order. */
    method Pass(
      ret0: Locations, times0: map<Vertex, nat>, ghost before: Locations, ghost counts: seq<int>)
      returns (ret: Locations, times: map<Vertex, nat>)
      requires Valid() && Tracks(d, before, partitionMap, ret0) && NoneEmptied(counts, vertexNumInShard)
      modifies this`partitionMap, this`vertexNumInShard, this`shardWeight
      ensures Valid() && Tracks(d, before, partitionMap, ret) && NoneEmptied(counts, vertexNumInShard)
      ensures LoopFree(edges) && old(Exact(d, partitionMap, edges, shardWeight)) ==> Exact(d, partitionMap, edges, shardWeight)
    {
      ret, times := ret0, times0;
      var vs: seq<Vertex> := Listing(vertices);
      for i := 0 to |vs|
        invariant Valid() && Tracks(d, before, partitionMap, ret) && NoneEmptied(counts, vertexNumInShard)
        invariant LoopFree(edges) && old(Exact(d, partitionMap, edges, shardWeight)) ==> Exact(d, partitionMap, edges, shardWeight)
      {
        var v: Vertex := vs[i];
        assert v in vs;
        if v !in times || times[v] < UPDATE_THRESHOLD {
          var now := Location(d, partitionMap, v);
          var s := PickTarget(v);
          if now != s && vertexNumInShard[now] > 1 {
            Move(v, s);
            ret := ret[v := s];
            times := times[v := (if v in times then times[v] else 0) + 1];
          }
        }
      }
    }

    /** CLPAPartition: exact weights, true counts, no shard emptied, and exactly the changed vertices reported. */
    method CLPAPartition() returns (ret: Locations)
      requires Valid()
      modifies this`partitionMap, this`vertexNumInShard, this`shardWeight
      ensures Valid() && Exact(d, partitionMap, edges, shardWeight)
      ensures NoneEmptied(old(vertexNumInShard), vertexNumInShard) && Changed(old(partitionMap), partitionMap, ret)
    {
      ComputeEdges2Shard();
      var original := partitionMap;
      ghost var counts := vertexNumInShard;
      ret := map[];
      var times: map<Vertex, nat> := map[];
      for i := 0 to maxIterations
        invariant Valid() && Tracks(d, original, partitionMap, ret) && NoneEmptied(counts, vertexNumInShard)
        invariant LoopFree(edges) ==> Exact(d, partitionMap, edges, shardWeight)
      {
        ret, times := Pass(ret, times, original, counts);
      }
      ret := Prune(ret, original);
      ComputeEdges2Shard();
    }

    /** The target of v: its own shard, or any shard of a neighbour, as the scores may have it. */
    method PickTarget(v: Vertex) returns (s: int)
      requires Valid() && v in vertices
      ensures 0 <= s < shardNum && (s != Location(d, partitionMap, v) ==> v in edges)
    {
      s := Location(d, partitionMap, v);
      if v in edges {
        for i := 0 to |edges[v]|
          invariant 0 <= s < shardNum
        {
          var better: bool := *;
          if better {
            s := Location(d, partitionMap, edges[v][i]);
          }
        }
      }
    }
  }

  lemma MoveExact(d: Default, loc: Locations, edges: Edges, v: Vertex, s: int, w: seq<int>)
    requires Graph(edges, v) && 0 <= Location(d, loc, v) < |w| && 0 <= s < |w| && s != Location(d, loc, v)
    ensures Exact(d, loc, edges, w) && v !in edges[v] ==> Exact(d, loc[v := s], edges, Recomputed(d, loc[v := s], edges, v, Location(d, loc, v), w))
  {
    if Exact(d, loc, edges, w) {
      IncrementalIff(d, loc, edges, v, s, w);
    }
  }

  ghost predicate LoopFree(edges: Edges) {
    forall v :: v in edges ==> v !in edges[v]
  }

  /** Every vertex is where the result says, or where it was. */
  ghost predicate Tracks(d: Default, before: Locations, after: Locations, ret: Locations) {
    ret.Keys <= before.Keys && after.Keys == before.Keys && forall v :: v in before ==> after[v] == if v in ret then ret[v] else before[v]
  }

  /** No shard that had a vertex has none. */
  ghost predicate NoneEmptied(before: seq<int>, after: seq<int>) {
    |before| == |after| && forall k :: 0 <= k < |before| && before[k] > 0 ==> after[k] > 0
  }

  /** The result lists exactly the vertices that changed place, with their place. */
  ghost predicate Changed(before: Locations, after: Locations, ret: Locations) {
    forall v :: (v in ret <==> v in before && v in after && after[v] != before[v]) && (v in ret ==> v in after && ret[v] == after[v])
  }

  /** Accounts that came back to where they were are dropped from the result. */
  method Prune(ret0: Locations, original: Locations) returns (ret: Locations)
    ensures ret == map v | v in ret0 && !(v in original && original[v] == ret0[v]) :: ret0[v]
  {
    var vs: seq<Vertex> := Listing(original.Keys);
    assert forall v :: v in vs <==> v in original;
    ret := ret0;
    for i := 0 to |vs|
      invariant ret == map v | v in ret0 && !(v in vs[..i] && original[v] == ret0[v]) :: ret0[v]
    {
      var v: Vertex := vs[i];
      assert vs[..i + 1] == vs[..i] + [v];
      if v in ret && ret[v] == original[v] {
        ret := ret - {v};
      }
    }
    assert vs[..|vs|] == vs;
  }

  /** Twice a count of the entries of a list outside a shard, as changeShardRecompute accumulates it. */
  function Shifted(d: Default, loc: Locations, list: seq<Vertex>, s: int, old': int, w: seq<int>): seq<int>
    requires 0 <= s < |w| && 0 <= old' < |w|
  {
    var entered := w[s := w[s] + 2 * (|list| - InShard(d, loc, list, s))];
    entered[old' := entered[old'] - 2 * (|list| - InShard(d, loc, list, old'))]
  }

  lemma ListedNext(d: Default, loc: Locations, edges: Edges, vs: seq<Vertex>, i: nat)
    requires i < |vs| && forall v :: v in vs ==> v in edges
    ensures forall k :: ListedCost(d, loc, edges, vs[..i + 1], k) == ListedCost(d, loc, edges, vs[..i], k) + VertexCost(d, loc, edges, vs[i], k)
    ensures edges[vs[i]][..|edges[vs[i]]|] == edges[vs[i]]
  {
    assert vs[..i + 1][..i] == vs[..i];
  }

  // ---- counting vertices ----

  ghost function In(loc: Locations, k: int): set<Vertex> {
    set v | v in loc && loc[v] == k
  }

  /** Every shard's number of vertices. */
  ghost predicate Counts(loc: Locations, counts: seq<int>) {
    forall k :: 0 <= k < |counts| ==> counts[k] == |In(loc, k)|
  }

  lemma NoneCounted(counts: seq<int>)
    requires forall k :: 0 <= k < |counts| ==> counts[k] == 0
    ensures Counts(map[], counts)
  {
    forall k | 0 <= k < |counts| ensures In(map[], k) == {} {
    }
  }

  lemma CountAdded(loc: Locations, counts: seq<int>, v: Vertex, s: int)
    requires Counts(loc, counts) && v !in loc && 0 <= s < |counts|
    ensures Counts(loc[v := s], counts[s := counts[s] + 1])
  {
    var next, after := loc[v := s], counts[s := counts[s] + 1];
    assert In(next, s) == In(loc, s) + {v} && v !in In(loc, s);
    forall k | 0 <= k < |after| ensures after[k] == |In(next, k)| {
      if k != s {
        assert In(next, k) == In(loc, k);
      }
    }
  }

  lemma CountMoved(loc: Locations, counts: seq<int>, v: Vertex, s: int)
    requires Counts(loc, counts) && v in loc && 0 <= loc[v] < |counts| && 0 <= s < |counts| && s != loc[v]
    ensures Counts(loc[v := s], counts[loc[v] := counts[loc[v]] - 1][s := counts[s] + 1])
  {
    var next, after := loc[v := s], counts[loc[v] := counts[loc[v]] - 1][s := counts[s] + 1];
    assert In(next, s) == In(loc, s) + {v} && v !in In(loc, s);
    assert In(next, loc[v]) == In(loc, loc[v]) - {v} && v in In(loc, loc[v]);
    forall k | 0 <= k < |after| ensures after[k] == |In(next, k)| {
      if k != s && k != loc[v] {
        assert In(next, k) == In(loc, k);
      }
    }
  }
}
