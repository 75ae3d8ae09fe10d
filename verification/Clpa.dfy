/**
 * Constrained label propagation (pkg/partition): shard weights kept up to date move by move against their full
 * recomputation. Weights are scaled by two, so that an inner edge end counts 1 and a cross-shard one 2.
 */
module Clpa {
  import opened ByteStrings
  import opened Sums
  import opened Sorting

  type Vertex = Address
  type Edges = map<Vertex, seq<Vertex>>
  type Locations = map<Vertex, int>

  /** DefaultAccountLoc: where an account is that was never moved. */
  type Default = Vertex -> int

  /** getVertexLocation. */
  function Location(d: Default, loc: Locations, v: Vertex): int {
    if v in loc then loc[v] else d(v)
  }

  // ---- the graph ----

  function Ends(edges: Edges, v: Vertex): seq<Vertex> {
    if v in edges then edges[v] else []
  }

  /** Graph.AddEdge. */
  function WithEdge(edges: Edges, u: Vertex, v: Vertex): Edges {
    var first := edges[u := Ends(edges, u) + [v]];
    first[v := Ends(first, v) + [u]]
  }

  function Count(list: seq<Vertex>, x: Vertex): nat {
    if list == [] then 0 else Count(list[..|list| - 1], x) + if list[|list| - 1] == x then 1 else 0
  }

  /** Every edge is in the lists of both its ends, as often. */
  ghost predicate Symmetric(edges: Edges) {
    forall u, v :: u != v ==> Count(Ends(edges, u), v) == Count(Ends(edges, v), u)
  }

  lemma CountSnoc(list: seq<Vertex>, y: Vertex, x: Vertex)
    ensures Count(list + [y], x) == Count(list, x) + if y == x then 1 else 0
  {
    assert (list + [y])[..|list|] == list;
  }

  lemma EndsAfter(edges: Edges, u: Vertex, v: Vertex, x: Vertex, y: Vertex)
    ensures Count(Ends(WithEdge(edges, u, v), x), y) ==
      Count(Ends(edges, x), y) + (if x == u && y == v then 1 else 0) + (if x == v && y == u then 1 else 0)
  {
    var first := edges[u := Ends(edges, u) + [v]];
    CountSnoc(Ends(edges, u), v, y);
    CountSnoc(Ends(first, v), u, y);
  }

  /** Adding an edge, even one from a vertex to itself, keeps the lists symmetric. */
  lemma AddEdgeSymmetric(edges: Edges, u: Vertex, v: Vertex)
    requires Symmetric(edges)
    ensures Symmetric(WithEdge(edges, u, v))
  {
    forall x, y | x != y ensures Count(Ends(WithEdge(edges, u, v), x), y) == Count(Ends(WithEdge(edges, u, v), y), x) {
      EndsAfter(edges, u, v, x, y);
      EndsAfter(edges, u, v, y, x);
    }
  }

  lemma {:induction false} CountPositive(list: seq<Vertex>, x: Vertex)
    ensures Count(list, x) > 0 <==> x in list
    decreases |list|
  {
    if list != [] {
      var n := |list| - 1;
      CountPositive(list[..n], x);
      assert list == list[..n] + [list[n]];
    }
  }

  // ---- weights ----

  function Cost(s: int, k: int): int {
    if s != k then 2 else 1
  }

  /** What a vertex in shard k contributes through its list. */
  function ListCost(d: Default, loc: Locations, list: seq<Vertex>, k: int): int {
    if list == [] then 0 else ListCost(d, loc, list[..|list| - 1], k) + Cost(Location(d, loc, list[|list| - 1]), k)
  }

  /** How many entries of a list are in shard k. */
  function InShard(d: Default, loc: Locations, list: seq<Vertex>, k: int): nat {
    if list == [] then 0 else InShard(d, loc, list[..|list| - 1], k) + if Location(d, loc, list[|list| - 1]) == k then 1 else 0
  }

  function VertexCost(d: Default, loc: Locations, edges: Edges, v: Vertex, k: int): int
    requires v in edges
  {
    if Location(d, loc, v) == k then ListCost(d, loc, edges[v], k) else 0
  }

  ghost function Costs(d: Default, loc: Locations, edges: Edges, k: int): map<Vertex, int> {
    map v | v in edges :: VertexCost(d, loc, edges, v, k)
  }

  /** The weight of shard k, recomputed from the whole graph. */
  ghost function Weight(d: Default, loc: Locations, edges: Edges, k: int): int {
    Sum<Vertex>(Costs(d, loc, edges, k))
  }

  lemma {:induction false} ListCostIs(d: Default, loc: Locations, list: seq<Vertex>, k: int)
    ensures ListCost(d, loc, list, k) == 2 * |list| - InShard(d, loc, list, k)
    decreases |list|
  {
    if list != [] {
      ListCostIs(d, loc, list[..|list| - 1], k);
    }
  }

  // ---- one move ----

  /** The same locations but for v, which goes to shard s. */
  function Moved(loc: Locations, v: Vertex, s: int): Locations {
    loc[v := s]
  }

  lemma {:induction false} ListCostMoved(d: Default, loc: Locations, list: seq<Vertex>, v: Vertex, s: int, k: int)
    ensures ListCost(d, Moved(loc, v, s), list, k) == ListCost(d, loc, list, k) + Count(list, v) * (Cost(s, k) - Cost(Location(d, loc, v), k))
    decreases |list|
  {
    if list != [] {
      var n := |list| - 1;
      ListCostMoved(d, loc, list[..n], v, s, k);
      var change := Cost(s, k) - Cost(Location(d, loc, v), k);
      if list[n] == v {
        assert Count(list, v) * change == Count(list[..n], v) * change + change;
      }
    }
  }

  lemma {:induction false} InShardMoved(d: Default, loc: Locations, list: seq<Vertex>, v: Vertex, s: int, k: int)
    requires v !in list
    ensures InShard(d, Moved(loc, v, s), list, k) == InShard(d, loc, list, k)
    decreases |list|
  {
    if list != [] {
      InShardMoved(d, loc, list[..|list| - 1], v, s, k);
    }
  }

  /** The entries of a list in shard k, counted vertex by vertex. */
  ghost function Tally(d: Default, loc: Locations, keys: set<Vertex>, list: seq<Vertex>, k: int): map<Vertex, int> {
    map x | x in keys :: TallyOf(d, loc, list, k, x)
  }

  function TallyOf(d: Default, loc: Locations, list: seq<Vertex>, k: int, x: Vertex): nat {
    if Location(d, loc, x) == k then Count(list, x) else 0
  }

  lemma TallyNext(d: Default, loc: Locations, keys: set<Vertex>, list: seq<Vertex>, k: int, y: Vertex)
    requires y in keys
    ensures Sum<Vertex>(Tally(d, loc, keys, list + [y], k)) == Sum<Vertex>(Tally(d, loc, keys, list, k)) + (if Location(d, loc, y) == k then 1 else 0)
  {
    var before: map<Vertex, int> := Tally(d, loc, keys, list, k);
    var after: map<Vertex, int> := Tally(d, loc, keys, list + [y], k);
    forall x | x in keys ensures after[x] == before[x] + if x == y && Location(d, loc, y) == k then 1 else 0 {
      CountSnoc(list, y, x);
    }
    assert after == before[y := after[y]];
    SumUpdate<Vertex>(before, y, after[y]);
    assert Sum<Vertex>(after) == Sum<Vertex>(before) + after[y] - before[y];
  }

  /** Counting by vertex or by position is the same. */
  lemma {:induction false} TallySum(d: Default, loc: Locations, keys: set<Vertex>, list: seq<Vertex>, k: int)
    requires forall x :: x in list ==> x in keys
    ensures Sum<Vertex>(Tally(d, loc, keys, list, k)) == InShard(d, loc, list, k)
    decreases |list|
  {
    if list == [] {
      SumZero(Tally(d, loc, keys, list, k));
    } else {
      var n := |list| - 1;
      assert list[n] in list && list == list[..n] + [list[n]];
      TallySum(d, loc, keys, list[..n], k);
      TallyNext(d, loc, keys, list[..n], k, list[n]);
    }
  }

  /** The graph the move is made in: symmetric, and v has a list. */
  ghost predicate Graph(edges: Edges, v: Vertex) {
    Symmetric(edges) && v in edges
  }

  /** ... in which v has no edge to itself. */
  ghost predicate Movable(edges: Edges, v: Vertex) {
    Graph(edges, v) && v !in edges[v]
  }

  lemma NeighboursListed(edges: Edges, v: Vertex, x: Vertex)
    requires Graph(edges, v) && x in edges[v]
    ensures x in edges
  {
    if x != v {
      CountPositive(edges[v], x);
      CountPositive(Ends(edges, x), v);
      assert Count(Ends(edges, v), x) == Count(Ends(edges, x), v);
    }
  }

  /** What the move changes in the contribution of another vertex of shard k. */
  lemma OtherCost(d: Default, loc: Locations, edges: Edges, v: Vertex, s: int, k: int, x: Vertex)
    requires Graph(edges, v) && x in edges && x != v
    ensures VertexCost(d, Moved(loc, v, s), edges, x, k) ==
      VertexCost(d, loc, edges, x, k) + TallyOf(d, loc, edges[v], k, x) * (Cost(s, k) - Cost(Location(d, loc, v), k))
  {
    ListCostMoved(d, loc, edges[x], v, s, k);
    assert Count(Ends(edges, x), v) == Count(Ends(edges, v), x);
  }

  lemma OwnCost(d: Default, loc: Locations, edges: Edges, v: Vertex, s: int, k: int)
    requires Movable(edges, v)
    ensures VertexCost(d, loc, edges, v, k) == if Location(d, loc, v) == k then 2 * |edges[v]| - InShard(d, loc, edges[v], k) else 0
    ensures VertexCost(d, Moved(loc, v, s), edges, v, k) == if s == k then 2 * |edges[v]| - InShard(d, loc, edges[v], k) else 0
    ensures TallyOf(d, loc, edges[v], k, v) == 0
  {
    ListCostIs(d, loc, edges[v], k);
    ListCostIs(d, Moved(loc, v, s), edges[v], k);
    InShardMoved(d, loc, edges[v], v, s, k);
    CountPositive(edges[v], v);
  }

  lemma TallyTotal(d: Default, loc: Locations, edges: Edges, v: Vertex, k: int)
    requires Graph(edges, v)
    ensures Sum<Vertex>(Tally(d, loc, edges.Keys, edges[v], k)) == InShard(d, loc, edges[v], k)
  {
    forall x | x in edges[v] ensures x in edges.Keys {
      NeighboursListed(edges, v, x);
    }
    TallySum(d, loc, edges.Keys, edges[v], k);
  }

  /** How many neighbours of v are outside shard k. */
  function Outside(d: Default, loc: Locations, edges: Edges, v: Vertex, k: int): int
    requires v in edges
  {
    |edges[v]| - InShard(d, loc, edges[v], k)
  }

  /** The shard a vertex leaves loses two for every neighbour outside it, and one for every end of an edge to itself. */
  lemma WeightLeft(d: Default, loc: Locations, edges: Edges, v: Vertex, s: int)
    requires Graph(edges, v) && s != Location(d, loc, v)
    ensures var k := Location(d, loc, v);
      Weight(d, Moved(loc, v, s), edges, k) == Weight(d, loc, edges, k) - 2 * Outside(d, loc, edges, v, k) - Count(edges[v], v)
  {
    var k := Location(d, loc, v);
    var a, b, tally := Costs(d, loc, edges, k), Costs(d, Moved(loc, v, s), edges, k), Tally(d, loc, edges.Keys, edges[v], k);
    ListCostIs(d, loc, edges[v], k);
    forall x | x in edges && x != v ensures b[x] == a[x] + tally[x] {
      OtherCost(d, loc, edges, v, s, k, x);
    }
    TallyTotal(d, loc, edges, v, k);
    Replaced(a, b, tally, v);
  }

  /** Dropping one value and adding the tally of the others. */
  lemma Replaced(a: map<Vertex, int>, b: map<Vertex, int>, tally: map<Vertex, int>, v: Vertex)
    requires a.Keys == b.Keys && a.Keys == tally.Keys && v in a && b[v] == 0
    requires forall x :: x in a && x != v ==> b[x] == a[x] + tally[x]
    ensures Sum(b) == Sum(a) - a[v] + Sum(tally) - tally[v]
  {
    var c := a[v := -tally[v]];
    SumUpdate(a, v, -tally[v]);
    SumAdd(c, tally, b);
  }

  /** The shard a vertex enters gains two for every neighbour outside it. */
  lemma WeightEntered(d: Default, loc: Locations, edges: Edges, v: Vertex, k: int)
    requires Movable(edges, v) && k != Location(d, loc, v)
    ensures Weight(d, Moved(loc, v, k), edges, k) == Weight(d, loc, edges, k) + 2 * Outside(d, loc, edges, v, k)
  {
    var a, b, tally := Costs(d, loc, edges, k), Costs(d, Moved(loc, v, k), edges, k), Tally(d, loc, edges.Keys, edges[v], k);
    OwnCost(d, loc, edges, v, k, k);
    forall x | x in edges && x != v ensures a[x] == b[x] + tally[x] {
      OtherCost(d, loc, edges, v, k, k, x);
    }
    TallyTotal(d, loc, edges, v, k);
    Replaced(b, a, tally, v);
  }

  /** Every other shard keeps its weight. */
  lemma WeightElsewhere(d: Default, loc: Locations, edges: Edges, v: Vertex, s: int, k: int)
    requires Movable(edges, v) && k != Location(d, loc, v) && k != s
    ensures Weight(d, Moved(loc, v, s), edges, k) == Weight(d, loc, edges, k)
  {
    var a, b := Costs(d, loc, edges, k), Costs(d, Moved(loc, v, s), edges, k);
    OwnCost(d, loc, edges, v, s, k);
    forall x | x in edges ensures b[x] == a[x] {
      if x != v {
        OtherCost(d, loc, edges, v, s, k, x);
      }
    }
    assert a == b;
  }

  // ---- the incremental form ----

  ghost predicate Exact(d: Default, loc: Locations, edges: Edges, weights: seq<int>) {
    forall k :: 0 <= k < |weights| ==> weights[k] == Weight(d, loc, edges, k)
  }

  /** changeShardRecompute, after v moved from shard `old'` to the one it is in now. */
  function Recomputed(d: Default, loc: Locations, edges: Edges, v: Vertex, old': int, weights: seq<int>): seq<int>
    requires v in edges && 0 <= old' < |weights| && 0 <= Location(d, loc, v) < |weights|
  {
    var s := Location(d, loc, v);
    var entered := weights[s := weights[s] + 2 * Outside(d, loc, edges, v, s)];
    entered[old' := entered[old'] - 2 * Outside(d, loc, edges, v, old')]
  }

  lemma {:induction false} InShardSelf(d: Default, loc: Locations, list: seq<Vertex>, v: Vertex, s: int, k: int)
    requires k == Location(d, loc, v) && s != k
    ensures InShard(d, Moved(loc, v, s), list, k) == InShard(d, loc, list, k) - Count(list, v)
    decreases |list|
  {
    if list != [] {
      InShardSelf(d, loc, list[..|list| - 1], v, s, k);
    }
  }

  /** From exact weights, the incremental form stays exact after a move exactly when the vertex has no edge to itself. */
  lemma IncrementalIff(d: Default, loc: Locations, edges: Edges, v: Vertex, s: int, weights: seq<int>)
    requires Graph(edges, v) && Exact(d, loc, edges, weights)
    requires 0 <= Location(d, loc, v) < |weights| && 0 <= s < |weights| && s != Location(d, loc, v)
    ensures Exact(d, Moved(loc, v, s), edges, Recomputed(d, Moved(loc, v, s), edges, v, Location(d, loc, v), weights)) <==> v !in edges[v]
  {
    var k, next := Location(d, loc, v), Moved(loc, v, s);
    var w := Recomputed(d, next, edges, v, k, weights);
    WeightLeft(d, loc, edges, v, s);
    InShardSelf(d, loc, edges[v], v, s, k);
    CountPositive(edges[v], v);
    assert w[k] == weights[k] - 2 * Outside(d, next, edges, v, k);
    if v !in edges[v] {
      forall j | 0 <= j < |w| ensures w[j] == Weight(d, next, edges, j) {
        if j == s {
          WeightEntered(d, loc, edges, v, s);
          InShardMoved(d, loc, edges[v], v, s, s);
        } else if j != k {
          WeightElsewhere(d, loc, edges, v, s, j);
        }
      }
    } else {
      assert w[k] != Weight(d, next, edges, k);
    }
  }

  /** After AddEdge(u, u) a move of u leaves the incremental weights wrong, whatever the rest of the graph. */
  lemma SelfEdgeBreaks(d: Default, loc: Locations, edges: Edges, u: Vertex, s: int, weights: seq<int>)
    requires Symmetric(edges) && Exact(d, loc, WithEdge(edges, u, u), weights)
    requires 0 <= Location(d, loc, u) < |weights| && 0 <= s < |weights| && s != Location(d, loc, u)
    ensures var g, next := WithEdge(edges, u, u), Moved(loc, u, s);
      !Exact(d, next, g, Recomputed(d, next, g, u, Location(d, loc, u), weights))
  {
    var g := WithEdge(edges, u, u);
    AddEdgeSymmetric(edges, u, u);
    assert g[u][|g[u]| - 1] == u;
    IncrementalIff(d, loc, g, u, s, weights);
  }

  /** The least such case: one account that pays itself, moved from shard 0 to shard 1, leaves weights [-2, 0] for [0, 2]. */
  lemma SelfEdgeExample(d: Default, u: Vertex)
    ensures var g, loc := WithEdge(map[], u, u), map[u := 0];
      && Exact(d, loc, g, [2, 0]) && Exact(d, Moved(loc, u, 1), g, [0, 2])
      && Recomputed(d, Moved(loc, u, 1), g, u, 0, [2, 0]) == [-2, 0]
  {
    var loc, next: Locations := map[u := 0], map[u := 1];
    SelfEdgeGraph(u);
    SelfEdgeWeights(d, loc, u);
    SelfEdgeWeights(d, next, u);
    TwoInShard(d, next, u, 0);
    TwoInShard(d, next, u, 1);
    assert Moved(loc, u, 1) == next && Location(d, loc, u) == 0 && Location(d, next, u) == 1;
    assert Outside(d, next, map[u := [u, u]], u, 0) == 2 && Outside(d, next, map[u := [u, u]], u, 1) == 0;
  }

  lemma SelfEdgeGraph(u: Vertex)
    ensures WithEdge(map[], u, u) == map[u := [u, u]]
  {
    var first: Edges := map[u := [u]];
    assert Ends(map[], u) + [u] == [u] && Ends(first, u) + [u] == [u, u];
    assert first[u := [u, u]] == map[u := [u, u]];
  }

  lemma TwoInShard(d: Default, loc: Locations, u: Vertex, k: int)
    ensures InShard(d, loc, [u, u], k) == if Location(d, loc, u) == k then 2 else 0
    ensures ListCost(d, loc, [u, u], k) == 2 * Cost(Location(d, loc, u), k)
  {
    assert [u, u][..1] == [u] && [u][..0] == [];
    assert InShard(d, loc, [u], k) == if Location(d, loc, u) == k then 1 else 0;
    assert ListCost(d, loc, [u], k) == Cost(Location(d, loc, u), k);
  }

  lemma SelfEdgeWeights(d: Default, loc: Locations, u: Vertex)
    ensures forall k :: Weight(d, loc, map[u := [u, u]], k) == if Location(d, loc, u) == k then 2 else 0
  {
    forall k ensures Weight(d, loc, map[u := [u, u]], k) == if Location(d, loc, u) == k then 2 else 0 {
      TwoInShard(d, loc, u, k);
      var costs: map<Vertex, int> := Costs(d, loc, map[u := [u, u]], k);
      SumRemove<Vertex>(costs, u);
      assert costs - {u} == map[];
    }
  }
}
