/** The domain-separated Merkle tree of netting batches (pkg/netting/merkle/tree.go). */
module Merkle {
  import opened Base
  import opened ByteStrings
  import opened Sorting

  /** Keys within one tree have one width, so a key is the number its bytes spell. */
  datatype Leaf = Leaf(key: nat, payload: Bytes)
  datatype Step = Step(sibling: Hash, siblingOnLeft: bool)
  datatype Tree = Tree(domain: string, leaves: seq<Leaf>, indexes: map<nat, nat>, levels: seq<seq<Hash>>, root: Hash)

  const EMPTY_ROOT_DOMAIN := "BLOCKEMULATOR_MERKLE_EMPTY_V1"

  function LeafInput(domain: string, payload: Bytes): Bytes {
    [0] + Ascii(domain) + payload
  }

  function NodeInput(left: Hash, right: Hash): Bytes {
    [1] + BigEndian(left, 32) + BigEndian(right, 32)
  }

  function HashLeaf(h: Hasher, domain: string, payload: Bytes): Hash {
    h(LeafInput(domain, payload))
  }

  function HashNode(h: Hasher, left: Hash, right: Hash): Hash {
    h(NodeInput(left, right))
  }

  function EmptyRoot(h: Hasher): Hash {
    h(Ascii(EMPTY_ROOT_DOMAIN))
  }

  function KeyOf(): Leaf -> int {
    (leaf: Leaf) => leaf.key
  }

  // ---- the tree as functions of its leaf level ----

  /** The right child of parent node i: the last node of an odd level is paired with itself. */
  function RightChild(n: nat, i: nat): nat {
    if 2 * i + 1 == n then 2 * i else 2 * i + 1
  }

  function Parents(h: Hasher, level: seq<Hash>): (r: seq<Hash>)
    ensures |r| == (|level| + 1) / 2
  {
    seq((|level| + 1) / 2, i requires 0 <= i < (|level| + 1) / 2 => HashNode(h, level[2 * i], level[RightChild(|level|, i)]))
  }

  function Levels(h: Hasher, level: seq<Hash>): (r: seq<seq<Hash>>)
    requires level != []
    ensures r != [] && r[0] == level && |r[|r| - 1]| == 1
    decreases |level|
  {
    if |level| == 1 then [level] else [level] + Levels(h, Parents(h, level))
  }

  function RootOf(h: Hasher, level: seq<Hash>): Hash
    requires level != []
    decreases |level|
  {
    if |level| == 1 then level[0] else RootOf(h, Parents(h, level))
  }

  function LeafLevel(h: Hasher, domain: string, leaves: seq<Leaf>): (r: seq<Hash>)
    ensures |r| == |leaves|
  {
    seq(|leaves|, i requires 0 <= i < |leaves| => HashLeaf(h, domain, leaves[i].payload))
  }

  /** The root Build assigns to leaves already in key order. */
  function TreeRoot(h: Hasher, domain: string, leaves: seq<Leaf>): Hash {
    if leaves == [] then EmptyRoot(h) else RootOf(h, LeafLevel(h, domain, leaves))
  }

  function Sibling(n: nat, index: nat): nat {
    var s := if index % 2 == 0 then index + 1 else index - 1;
    if s >= n then index else s
  }

  function ProofSteps(h: Hasher, level: seq<Hash>, index: nat): seq<Step>
    requires index < |level|
    decreases |level|
  {
    if |level| == 1 then [] else
      var s := Sibling(|level|, index);
      [Step(level[s], s < index)] + ProofSteps(h, Parents(h, level), index / 2)
  }

  function ClimbOne(h: Hasher, current: Hash, step: Step): Hash {
    if step.siblingOnLeft then HashNode(h, step.sibling, current) else HashNode(h, current, step.sibling)
  }

  function Climb(h: Hasher, current: Hash, steps: seq<Step>): Hash
    decreases |steps|
  {
    if steps == [] then current
    else ClimbOne(h, Climb(h, current, steps[..|steps| - 1]), steps[|steps| - 1])
  }

  predicate Verify(h: Hasher, domain: string, payload: Bytes, proof: seq<Step>, expectedRoot: Hash) {
    Climb(h, HashLeaf(h, domain, payload), proof) == expectedRoot
  }

  function MakeTree(h: Hasher, domain: string, leaves: seq<Leaf>, indexes: map<nat, nat>): Tree {
    Tree(domain, leaves, indexes,
         if leaves == [] then [] else Levels(h, LeafLevel(h, domain, leaves)),
         TreeRoot(h, domain, leaves))
  }

  ghost predicate IndexesLeaves(indexes: map<nat, nat>, leaves: seq<Leaf>) {
    && (forall k :: k in indexes ==> indexes[k] < |leaves| && leaves[indexes[k]].key == k)
    && (forall i :: 0 <= i < |leaves| ==> leaves[i].key in indexes && indexes[leaves[i].key] == i)
  }

  // ---- the loops ----

  method ParentLevel(h: Hasher, current: seq<Hash>) returns (r: seq<Hash>)
    ensures r == Parents(h, current)
  {
    var parent := new Hash[(|current| + 1) / 2](i => 0);
    var idx := 0;
    while idx < |current|
      invariant 0 <= idx <= |current| + 1 && idx % 2 == 0
      invariant forall k :: 0 <= k < idx / 2 ==> parent[k] == HashNode(h, current[2 * k], current[RightChild(|current|, k)])
    {
      var right := idx + 1;
      if right == |current| {
        right := idx;
      }
      parent[idx / 2] := HashNode(h, current[idx], current[right]);
      idx := idx + 2;
    }
    r := parent[..];
  }

  lemma {:induction false} LevelsUnfold(h: Hasher, level: seq<Hash>)
    requires |level| > 1
    ensures Levels(h, level) == [level] + Levels(h, Parents(h, level))
  {
  }

  lemma {:induction false} TopOfLevels(h: Hasher, level: seq<Hash>)
    requires level != []
    ensures var ls := Levels(h, level); ls[|ls| - 1] == [RootOf(h, level)]
    decreases |level|
  {
    if |level| > 1 {
      TopOfLevels(h, Parents(h, level));
    }
  }

  /** The key index, or None when a key repeats. */
  method IndexLeaves(leaves: seq<Leaf>) returns (r: Option<map<nat, nat>>)
    ensures r.None? <==> !Distinct(leaves, KeyOf())
    ensures r.Some? ==> IndexesLeaves(r.value, leaves)
  {
    var indexes: map<nat, nat> := map[];
    for idx := 0 to |leaves|
      invariant forall k :: k in indexes ==> indexes[k] < idx && leaves[indexes[k]].key == k
      invariant forall i :: 0 <= i < idx ==> leaves[i].key in indexes && indexes[leaves[i].key] == i
    {
      var key := leaves[idx].key;
      if key in indexes {
        assert KeyOf()(leaves[indexes[key]]) == KeyOf()(leaves[idx]);
        return None;
      }
      indexes := indexes[key := idx];
    }
    r := Some(indexes);
  }

  lemma LevelsStep(h: Hasher, levels: seq<seq<Hash>>, leafLevel: seq<Hash>)
    requires leafLevel != [] && levels != [] && |levels[|levels| - 1]| > 1
    requires levels[..|levels| - 1] + Levels(h, levels[|levels| - 1]) == Levels(h, leafLevel)
    ensures levels + Levels(h, Parents(h, levels[|levels| - 1])) == Levels(h, leafLevel)
  {
    var current := levels[|levels| - 1];
    LevelsUnfold(h, current);
    assert levels == levels[..|levels| - 1] + [current];
  }

  method BuildLevels(h: Hasher, leafLevel: seq<Hash>) returns (levels: seq<seq<Hash>>)
    requires leafLevel != []
    ensures levels == Levels(h, leafLevel)
  {
    levels := [leafLevel];
    while |levels[|levels| - 1]| > 1
      invariant levels != [] && levels[|levels| - 1] != []
      invariant levels[..|levels| - 1] + Levels(h, levels[|levels| - 1]) == Levels(h, leafLevel)
      decreases |levels[|levels| - 1]|
    {
      LevelsStep(h, levels, leafLevel);
      var parent := ParentLevel(h, levels[|levels| - 1]);
      assert (levels + [parent])[..|levels|] == levels;
      levels := levels + [parent];
    }
    assert levels == levels[..|levels| - 1] + [levels[|levels| - 1]];
  }

  /** Build: an error exactly on an empty domain or a repeated key; otherwise the tree of the key-ordered leaves. */
  method Build(h: Hasher, domain: string, input: seq<Leaf>) returns (r: Result<Tree>)
    ensures r.Err? <==> domain == "" || !Distinct(input, KeyOf())
    ensures r.Ok? ==>
      && r.value == MakeTree(h, domain, SortBy(input, KeyOf()), r.value.indexes)
      && IndexesLeaves(r.value.indexes, r.value.leaves)
      && multiset(r.value.leaves) == multiset(input)
  {
    if domain == "" {
      return Err(EmptyDomain);
    }
    var leaves := SortBy(input, KeyOf());
    SortByProperties(input, KeyOf());
    if Distinct(input, KeyOf()) {
      DistinctPermutes(input, leaves, KeyOf());
    }
    if Distinct(leaves, KeyOf()) {
      DistinctPermutes(leaves, input, KeyOf());
    }
    var indexes := IndexLeaves(leaves);
    if indexes.None? {
      return Err(DuplicateKey);
    }
    if leaves == [] {
      return Ok(Tree(domain, leaves, indexes.value, [], EmptyRoot(h)));
    }
    var leafLevel := LeafLevel(h, domain, leaves);
    var levels := BuildLevels(h, leafLevel);
    TopOfLevels(h, leafLevel);
    r := Ok(Tree(domain, leaves, indexes.value, levels, levels[|levels| - 1][0]));
  }

  /** The levels from position i on are the levels of a tree of their own. */
  lemma LevelsFrom(h: Hasher, levels: seq<seq<Hash>>, i: nat)
    requires i + 1 < |levels| && levels[i] != [] && levels[i..] == Levels(h, levels[i])
    ensures |levels[i]| > 1 && levels[i + 1] == Parents(h, levels[i])
    ensures levels[i + 1..] == Levels(h, levels[i + 1])
  {
    assert |Levels(h, levels[i])| > 1;
    LevelsUnfold(h, levels[i]);
    assert levels[i + 1] == levels[i..][1];
    assert levels[i + 1..] == levels[i..][1..];
  }

  lemma ProofStepsUnfold(h: Hasher, level: seq<Hash>, index: nat)
    requires index < |level| && |level| > 1
    ensures index / 2 < |Parents(h, level)|
    ensures var s := Sibling(|level|, index);
      ProofSteps(h, level, index) == [Step(level[s], s < index)] + ProofSteps(h, Parents(h, level), index / 2)
  {
  }

  method PathSteps(h: Hasher, levels: seq<seq<Hash>>, start: nat) returns (steps: seq<Step>)
    requires levels != [] && start < |levels[0]| && levels == Levels(h, levels[0])
    ensures steps == ProofSteps(h, levels[0], start)
  {
    steps := [];
    var index: nat := start;
    assert levels[0..] == levels;
    ghost var goal := ProofSteps(h, levels[0], start);
    for levelIdx := 0 to |levels| - 1
      invariant levels[levelIdx] != [] && levels[levelIdx..] == Levels(h, levels[levelIdx])
      invariant index < |levels[levelIdx]|
      invariant steps + ProofSteps(h, levels[levelIdx], index) == goal
    {
      var level := levels[levelIdx];
      LevelsFrom(h, levels, levelIdx);
      ProofStepsUnfold(h, level, index);
      var siblingIndex := if index % 2 == 0 then index + 1 else index - 1;
      if siblingIndex >= |level| {
        siblingIndex := index;
      }
      ghost var rest := ProofSteps(h, levels[levelIdx + 1], index / 2);
      var step := Step(level[siblingIndex], siblingIndex < index);
      ConcatAssociative(steps, [step], rest);
      steps := steps + [step];
      index := index / 2;
    }
  }

  /** Proof: the steps of the path from the leaf with this key, or LeafNotFound. */
  method Proof(h: Hasher, t: Tree, key: nat) returns (r: Result<seq<Step>>)
    requires t == MakeTree(h, t.domain, t.leaves, t.indexes) && IndexesLeaves(t.indexes, t.leaves)
    ensures r.Ok? <==> exists i :: 0 <= i < |t.leaves| && t.leaves[i].key == key
    ensures r.Ok? ==> key in t.indexes && r.value == ProofSteps(h, LeafLevel(h, t.domain, t.leaves), t.indexes[key])
  {
    if key !in t.indexes {
      return Err(LeafNotFound);
    }
    var steps := PathSteps(h, t.levels, t.indexes[key]);
    r := Ok(steps);
  }

  /** Verify's running hash. */
  method VerifyProof(h: Hasher, domain: string, payload: Bytes, proof: seq<Step>, expectedRoot: Hash) returns (ok: bool)
    ensures ok == Verify(h, domain, payload, proof, expectedRoot)
  {
    var current := HashLeaf(h, domain, payload);
    for i := 0 to |proof|
      invariant current == Climb(h, HashLeaf(h, domain, payload), proof[..i])
    {
      assert proof[..i + 1][..i] == proof[..i];
      current := ClimbOne(h, current, proof[i]);
    }
    assert proof[..|proof|] == proof;
    ok := current == expectedRoot;
  }

  // ---- completeness: every proof verifies ----

  lemma {:induction false} ClimbCons(h: Hasher, current: Hash, step: Step, steps: seq<Step>)
    ensures Climb(h, current, [step] + steps) == Climb(h, ClimbOne(h, current, step), steps)
    decreases |steps|
  {
    if steps == [] {
      assert ([step] + steps)[..0] == [];
    } else {
      var init := steps[..|steps| - 1];
      ClimbCons(h, current, step, init);
      assert ([step] + steps)[..|steps|] == [step] + init;
    }
  }

  lemma {:induction false} ClimbReachesRoot(h: Hasher, level: seq<Hash>, index: nat)
    requires index < |level|
    ensures Climb(h, level[index], ProofSteps(h, level, index)) == RootOf(h, level)
    decreases |level|
  {
    if |level| > 1 {
      var s := Sibling(|level|, index);
      var step := Step(level[s], s < index);
      var up := Parents(h, level);
      assert ClimbOne(h, level[index], step) == up[index / 2] by {
        if index % 2 == 0 {
          assert 2 * (index / 2) == index && RightChild(|level|, index / 2) == s;
        } else {
          assert 2 * (index / 2) == s && RightChild(|level|, index / 2) == index;
        }
      }
      ClimbCons(h, level[index], step, ProofSteps(h, up, index / 2));
      ClimbReachesRoot(h, up, index / 2);
    }
  }

  /** For every number of leaves, odd levels included, the proof of each leaf verifies against the root. */
  lemma ProofsVerify(h: Hasher, domain: string, leaves: seq<Leaf>, i: nat)
    requires i < |leaves|
    ensures Verify(h, domain, leaves[i].payload, ProofSteps(h, LeafLevel(h, domain, leaves), i), TreeRoot(h, domain, leaves))
  {
    ClimbReachesRoot(h, LeafLevel(h, domain, leaves), i);
  }

  // ---- soundness under a collision-free hash ----

  /** Every inner-node input hashed while building from this level is among the inputs. */
  ghost predicate NodesIn(h: Hasher, level: seq<Hash>, inputs: iset<Bytes>)
    decreases |level|
  {
    |level| > 1 ==>
      && (forall i :: 0 <= i < |Parents(h, level)| ==> NodeInput(level[2 * i], level[RightChild(|level|, i)]) in inputs)
      && NodesIn(h, Parents(h, level), inputs)
  }

  ghost predicate LeavesIn(domain: string, leaves: seq<Leaf>, inputs: iset<Bytes>) {
    forall i :: 0 <= i < |leaves| ==> LeafInput(domain, leaves[i].payload) in inputs
  }

  /** Every input hashed while building a tree. */
  ghost predicate TreeIn(h: Hasher, domain: string, leaves: seq<Leaf>, inputs: iset<Bytes>) {
    LeavesIn(domain, leaves, inputs) && NodesIn(h, LeafLevel(h, domain, leaves), inputs) &&
    Ascii(EMPTY_ROOT_DOMAIN) in inputs
  }

  function StepInput(current: Hash, step: Step): Bytes {
    if step.siblingOnLeft then NodeInput(step.sibling, current) else NodeInput(current, step.sibling)
  }

  /** Every input hashed while climbing a proof. */
  ghost predicate ClimbIn(h: Hasher, current: Hash, steps: seq<Step>, inputs: iset<Bytes>) {
    forall k: nat :: k < |steps| ==> StepIn(h, current, steps, k, inputs)
  }

  ghost predicate StepIn(h: Hasher, current: Hash, steps: seq<Step>, k: nat, inputs: iset<Bytes>)
    requires k < |steps|
  {
    StepInput(Climb(h, current, steps[..k]), steps[k]) in inputs
  }

  /** Every input hashed by Verify. */
  ghost predicate VerifyIn(h: Hasher, domain: string, payload: Bytes, proof: seq<Step>, inputs: iset<Bytes>) {
    LeafInput(domain, payload) in inputs && ClimbIn(h, HashLeaf(h, domain, payload), proof, inputs)
  }

  lemma NodeInputInjective(a: Hash, b: Hash, c: Hash, d: Hash)
    requires NodeInput(a, b) == NodeInput(c, d)
    ensures a == c && b == d
  {
    SplitEqual([1] + BigEndian(a, 32), BigEndian(b, 32), [1] + BigEndian(c, 32), BigEndian(d, 32));
    SplitEqual([1], BigEndian(a, 32), [1], BigEndian(c, 32));
    WidthLimits();
    BigEndianInjective(a, c, 32);
    BigEndianInjective(b, d, 32);
  }

  lemma LeafInputInjective(domain: string, p: Bytes, q: Bytes)
    requires LeafInput(domain, p) == LeafInput(domain, q)
    ensures p == q
  {
    SplitEqual([0] + Ascii(domain), p, [0] + Ascii(domain), q);
  }

  /** Leaf, node and empty-root inputs start with different bytes. */
  lemma TagsDiffer(domain: string, p: Bytes, a: Hash, b: Hash)
    ensures LeafInput(domain, p) != NodeInput(a, b)
    ensures LeafInput(domain, p) != Ascii(EMPTY_ROOT_DOMAIN)
    ensures NodeInput(a, b) != Ascii(EMPTY_ROOT_DOMAIN)
  {
    assert LeafInput(domain, p)[0] == 0 && NodeInput(a, b)[0] == 1;
    assert Ascii(EMPTY_ROOT_DOMAIN)[0] == 'B' as int % 256 == 66;
  }

  ghost function Height(n: nat): nat
    requires n > 0
  {
    if n == 1 then 0 else 1 + Height((n + 1) / 2)
  }

  /** The level k steps above. */
  ghost function Up(h: Hasher, level: seq<Hash>, k: nat): (r: seq<Hash>)
    requires level != [] && k <= Height(|level|)
    ensures r != [] && Height(|r|) == Height(|level|) - k
    decreases k
  {
    if k == 0 then level else Up(h, Parents(h, level), k - 1)
  }

  lemma UpStep(h: Hasher, level: seq<Hash>, k: nat)
    requires level != [] && 0 < k <= Height(|level|)
    ensures |level| > 1 && k - 1 <= Height(|Parents(h, level)|)
    ensures Up(h, level, k) == Up(h, Parents(h, level), k - 1)
    ensures RootOf(h, level) == RootOf(h, Parents(h, level))
  {
  }

  lemma {:induction false} UpRoot(h: Hasher, level: seq<Hash>, k: nat, top: seq<Hash>)
    requires level != [] && k <= Height(|level|) && top == Up(h, level, k)
    ensures RootOf(h, top) == RootOf(h, level)
    decreases k
  {
    if k > 0 {
      UpStep(h, level, k);
      UpRoot(h, Parents(h, level), k - 1, top);
    }
  }

  lemma {:induction false} UpNodes(h: Hasher, level: seq<Hash>, k: nat, inputs: iset<Bytes>)
    requires level != [] && k <= Height(|level|) && NodesIn(h, level, inputs)
    ensures NodesIn(h, Up(h, level, k), inputs)
    decreases k
  {
    if k > 0 {
      UpStep(h, level, k);
      UpNodes(h, Parents(h, level), k - 1, inputs);
    }
  }

  lemma UpKeepsRoot(h: Hasher, level: seq<Hash>, k: nat, inputs: iset<Bytes>)
    requires level != [] && k <= Height(|level|) && NodesIn(h, level, inputs)
    ensures RootOf(h, Up(h, level, k)) == RootOf(h, level)
    ensures NodesIn(h, Up(h, level, k), inputs)
  {
    UpRoot(h, level, k, Up(h, level, k));
    UpNodes(h, level, k, inputs);
  }

  ghost predicate Above(h: Hasher, level: seq<Hash>, k: nat, x: Hash)
    requires level != [] && k <= Height(|level|)
  {
    x in Up(h, level, k)
  }

  /** Above the leaves every hash is the hash of some inner-node input. */
  lemma {:induction false} UpIsNode(
    h: Hasher, level: seq<Hash>, k: nat, x: Hash, inputs: iset<Bytes>) returns (a: Hash, b: Hash)
    requires level != [] && 0 < k <= Height(|level|) && Above(h, level, k, x) && NodesIn(h, level, inputs)
    ensures x == h(NodeInput(a, b)) && NodeInput(a, b) in inputs
    decreases k
  {
    if k == 1 {
      var up := Parents(h, level);
      var i :| 0 <= i < |up| && up[i] == x;
      a, b := level[2 * i], level[RightChild(|level|, i)];
    } else {
      a, b := UpIsNode(h, Parents(h, level), k - 1, x, inputs);
    }
  }

  lemma ClimbLast(h: Hasher, x: Hash, steps: seq<Step>, k: nat)
    requires k < |steps|
    ensures Climb(h, x, steps[..k + 1]) == ClimbOne(h, Climb(h, x, steps[..k]), steps[k])
  {
    assert steps[..k + 1][..k] == steps[..k];
  }

  /** One hash of a parent level found on a climb puts the hash before it on the level below. */
  lemma ClimbChild(h: Hasher, level: seq<Hash>, z: Hash, step: Step, inputs: iset<Bytes>)
    requires |level| > 1 && ClimbOne(h, z, step) in Parents(h, level)
    requires CollisionFree(h, inputs) && NodesIn(h, level, inputs) && StepInput(z, step) in inputs
    ensures z in level
  {
    var up := Parents(h, level);
    var i :| 0 <= i < |up| && up[i] == ClimbOne(h, z, step);
    var a, b := level[2 * i], level[RightChild(|level|, i)];
    assert h(StepInput(z, step)) == h(NodeInput(a, b));
    if step.siblingOnLeft {
      NodeInputInjective(step.sibling, z, a, b);
    } else {
      NodeInputInjective(z, step.sibling, a, b);
    }
  }

  /** Where a climb from x that ends in the root stands relative to a level of height k. */
  ghost predicate OnLevel(h: Hasher, level: seq<Hash>, k: nat, x: Hash, steps: seq<Step>)
    requires level != [] && k == Height(|level|)
  {
    if |steps| >= k then Climb(h, x, steps[..|steps| - k]) in level else Above(h, level, k - |steps|, x)
  }

  lemma OnLevelBelowLong(h: Hasher, level: seq<Hash>, x: Hash, steps: seq<Step>, j: nat, inputs: iset<Bytes>)
    requires |level| > 1 && j < |steps| && Climb(h, x, steps[..j + 1]) in Parents(h, level)
    requires CollisionFree(h, inputs) && NodesIn(h, level, inputs) && ClimbIn(h, x, steps, inputs)
    ensures Climb(h, x, steps[..j]) in level
  {
    ClimbLast(h, x, steps, j);
    assert StepIn(h, x, steps, j, inputs);
    ClimbChild(h, level, Climb(h, x, steps[..j]), steps[j], inputs);
  }

  lemma AboveUnfold(h: Hasher, level: seq<Hash>, k: nat, x: Hash)
    requires level != [] && 0 < k <= Height(|level|)
    ensures Height(|Parents(h, level)|) == Height(|level|) - 1
    ensures Above(h, level, k, x) <==> Above(h, Parents(h, level), k - 1, x)
  {
  }

  lemma OnLevelBelow(h: Hasher, level: seq<Hash>, k: nat, x: Hash, steps: seq<Step>, inputs: iset<Bytes>)
    requires |level| > 1 && k + 1 == Height(|level|) && k == Height(|Parents(h, level)|)
    requires OnLevel(h, Parents(h, level), k, x, steps)
    requires CollisionFree(h, inputs) && NodesIn(h, level, inputs) && ClimbIn(h, x, steps, inputs)
    ensures OnLevel(h, level, k + 1, x, steps)
  {
    if |steps| > k {
      OnLevelBelowLong(h, level, x, steps, |steps| - k - 1, inputs);
    } else {
      AboveUnfold(h, level, k + 1 - |steps|, x);
      if |steps| == k {
        assert steps[..0] == [];
        assert Above(h, Parents(h, level), 0, x);
      }
    }
  }

  /** A climb that ends in the root passes through every level of the tree, from the root down. */
  lemma {:induction false} ClimbTraces(h: Hasher, level: seq<Hash>, x: Hash, steps: seq<Step>, inputs: iset<Bytes>)
    requires level != [] && Climb(h, x, steps) == RootOf(h, level)
    requires CollisionFree(h, inputs) && NodesIn(h, level, inputs) && ClimbIn(h, x, steps, inputs)
    ensures OnLevel(h, level, Height(|level|), x, steps)
    decreases |level|
  {
    if |level| == 1 {
      assert steps[..|steps|] == steps;
    } else {
      ClimbTraces(h, Parents(h, level), x, steps, inputs);
      OnLevelBelow(h, level, Height(|level|) - 1, x, steps, inputs);
    }
  }

  lemma NonEmptyClimbIsNode(h: Hasher, x: Hash, steps: seq<Step>, inputs: iset<Bytes>) returns (a: Hash, b: Hash)
    requires steps != [] && ClimbIn(h, x, steps, inputs)
    ensures Climb(h, x, steps) == h(NodeInput(a, b)) && NodeInput(a, b) in inputs
  {
    var k := |steps| - 1;
    ClimbLast(h, x, steps, k);
    assert StepIn(h, x, steps, k, inputs) && steps[..k + 1] == steps;
    var z := Climb(h, x, steps[..k]);
    if steps[k].siblingOnLeft {
      a, b := steps[k].sibling, z;
    } else {
      a, b := z, steps[k].sibling;
    }
    assert StepInput(z, steps[k]) == NodeInput(a, b);
  }

  lemma ClimbInPrefix(h: Hasher, x: Hash, steps: seq<Step>, k: nat, inputs: iset<Bytes>)
    requires k <= |steps| && ClimbIn(h, x, steps, inputs)
    ensures ClimbIn(h, x, steps[..k], inputs)
  {
    forall j: nat | j < k ensures StepIn(h, x, steps[..k], j, inputs) {
      assert StepIn(h, x, steps, j, inputs) && steps[..k][..j] == steps[..j];
    }
  }

  /**
   * Under a collision-free hash, Verify accepts only the payload of an actual leaf, whatever proof is offered;
   * against the root of the empty tree it accepts nothing.
   */
  lemma VerifySound(h: Hasher, domain: string, leaves: seq<Leaf>, payload: Bytes, proof: seq<Step>, inputs: iset<Bytes>)
    requires CollisionFree(h, inputs)
    requires TreeIn(h, domain, leaves, inputs) && VerifyIn(h, domain, payload, proof, inputs)
    requires Verify(h, domain, payload, proof, TreeRoot(h, domain, leaves))
    ensures exists i :: 0 <= i < |leaves| && leaves[i].payload == payload
  {
    var x := HashLeaf(h, domain, payload);
    if leaves == [] {
      TagsDiffer(domain, payload, 0, 0);
      if proof != [] {
        var a, b := NonEmptyClimbIsNode(h, x, proof, inputs);
        TagsDiffer(domain, payload, a, b);
      }
      assert false;
    } else {
      var level := LeafLevel(h, domain, leaves);
      ClimbTraces(h, level, x, proof, inputs);
      LandsOnLeaf(h, domain, leaves, Height(|leaves|), payload, proof, inputs);
    }
  }

  lemma LandsOnLeaf(
    h: Hasher, domain: string, leaves: seq<Leaf>, k: nat, payload: Bytes, proof: seq<Step>, inputs: iset<Bytes>)
    requires leaves != [] && k == Height(|leaves|) && CollisionFree(h, inputs)
    requires TreeIn(h, domain, leaves, inputs) && VerifyIn(h, domain, payload, proof, inputs)
    requires OnLevel(h, LeafLevel(h, domain, leaves), k, HashLeaf(h, domain, payload), proof)
    ensures exists i :: 0 <= i < |leaves| && leaves[i].payload == payload
  {
    var x := HashLeaf(h, domain, payload);
    if |proof| < k {
      LeafIsNoNode(h, domain, leaves, k - |proof|, payload, inputs);
      assert false;
    } else {
      PrefixLandsOnLeaf(h, domain, leaves, |proof| - k, payload, proof, inputs);
    }
  }

  lemma PrefixLandsOnLeaf(
    h: Hasher, domain: string, leaves: seq<Leaf>, j: nat, payload: Bytes, proof: seq<Step>, inputs: iset<Bytes>)
    requires j <= |proof| && CollisionFree(h, inputs) && LeavesIn(domain, leaves, inputs)
    requires LeafInput(domain, payload) in inputs
    requires ClimbIn(h, HashLeaf(h, domain, payload), proof, inputs)
    requires Climb(h, HashLeaf(h, domain, payload), proof[..j]) in LeafLevel(h, domain, leaves)
    ensures exists i :: 0 <= i < |leaves| && leaves[i].payload == payload
  {
    ClimbInPrefix(h, HashLeaf(h, domain, payload), proof, j, inputs);
    LeafHashIsLeaf(h, domain, leaves, payload, proof[..j], inputs);
  }

  /** The hash of a leaf is no hash of an inner level. */
  lemma LeafIsNoNode(h: Hasher, domain: string, leaves: seq<Leaf>, k: nat, payload: Bytes, inputs: iset<Bytes>)
    requires leaves != [] && 0 < k <= Height(|leaves|) && CollisionFree(h, inputs)
    requires NodesIn(h, LeafLevel(h, domain, leaves), inputs)
    requires LeafInput(domain, payload) in inputs
    ensures !Above(h, LeafLevel(h, domain, leaves), k, HashLeaf(h, domain, payload))
  {
    if Above(h, LeafLevel(h, domain, leaves), k, HashLeaf(h, domain, payload)) {
      var a, b := UpIsNode(h, LeafLevel(h, domain, leaves), k, HashLeaf(h, domain, payload), inputs);
      TagsDiffer(domain, payload, a, b);
      assert false;
    }
  }

  lemma LeafHashIsLeaf(
    h: Hasher, domain: string, leaves: seq<Leaf>, payload: Bytes, head: seq<Step>, inputs: iset<Bytes>)
    requires CollisionFree(h, inputs) && LeavesIn(domain, leaves, inputs)
    requires LeafInput(domain, payload) in inputs && ClimbIn(h, HashLeaf(h, domain, payload), head, inputs)
    requires Climb(h, HashLeaf(h, domain, payload), head) in LeafLevel(h, domain, leaves)
    ensures exists i :: 0 <= i < |leaves| && leaves[i].payload == payload
  {
    var level := LeafLevel(h, domain, leaves);
    var x := HashLeaf(h, domain, payload);
    var i :| 0 <= i < |level| && level[i] == Climb(h, x, head);
    if head != [] {
      var a, b := NonEmptyClimbIsNode(h, x, head, inputs);
      TagsDiffer(domain, leaves[i].payload, a, b);
      assert false;
    } else {
      assert h(LeafInput(domain, payload)) == h(LeafInput(domain, leaves[i].payload));
      LeafInputInjective(domain, payload, leaves[i].payload);
    }
  }

  // ---- the root determines the leaves ----

  ghost function Pow2(k: nat): nat {
    if k == 0 then 1 else 2 * Pow2(k - 1)
  }

  lemma {:induction false} HeightCovers(n: nat)
    requires n > 0
    ensures n <= Pow2(Height(n))
  {
    if n > 1 {
      HeightCovers((n + 1) / 2);
    }
  }

  /** The position of a level reached by following path j (bit by bit) from the root, last-node duplication included. */
  ghost function Reach(n: nat, j: nat): (r: nat)
    requires n > 0
    ensures r < n
    decreases n
  {
    if n == 1 then 0 else
      var i := Reach((n + 1) / 2, j / 2);
      if j % 2 == 0 then 2 * i else RightChild(n, i)
  }

  lemma {:induction false} ReachDirect(n: nat, j: nat)
    requires j < n
    ensures Reach(n, j) == j
    decreases n
  {
    if n > 1 {
      ReachDirect((n + 1) / 2, j / 2);
    }
  }

  /** Two levels of one height with the same root agree along every path. */
  lemma {:induction false} SameRootSamePaths(h: Hasher, a: seq<Hash>, b: seq<Hash>, j: nat, inputs: iset<Bytes>)
    requires a != [] && b != [] && Height(|a|) == Height(|b|) && RootOf(h, a) == RootOf(h, b)
    requires CollisionFree(h, inputs) && NodesIn(h, a, inputs) && NodesIn(h, b, inputs)
    ensures a[Reach(|a|, j)] == b[Reach(|b|, j)]
    decreases |a|
  {
    if |a| > 1 {
      assert |b| > 1;
      var pa, pb := Parents(h, a), Parents(h, b);
      SameRootSamePaths(h, pa, pb, j / 2, inputs);
      var ia, ib := Reach(|pa|, j / 2), Reach(|pb|, j / 2);
      assert h(NodeInput(a[2 * ia], a[RightChild(|a|, ia)])) == h(NodeInput(b[2 * ib], b[RightChild(|b|, ib)]));
      NodeInputInjective(a[2 * ia], a[RightChild(|a|, ia)], b[2 * ib], b[RightChild(|b|, ib)]);
    }
  }

  lemma SameRootSameHeight(h: Hasher, domain: string, p: seq<Leaf>, q: seq<Leaf>, inputs: iset<Bytes>)
    requires p != [] && q != [] && CollisionFree(h, inputs)
    requires TreeIn(h, domain, p, inputs) && TreeIn(h, domain, q, inputs)
    requires TreeRoot(h, domain, p) == TreeRoot(h, domain, q)
    ensures Height(|p|) >= Height(|q|)
  {
    var a, b := LeafLevel(h, domain, p), LeafLevel(h, domain, q);
    if Height(|p|) < Height(|q|) {
      var d := Height(|q|) - Height(|p|);
      var up := Up(h, b, d);
      UpKeepsRoot(h, b, d, inputs);
      SameRootSamePaths(h, a, up, 0, inputs);
      ReachDirect(|a|, 0);
      ReachDirect(|up|, 0);
      var l, r := UpIsNode(h, b, d, up[0], inputs);
      TagsDiffer(domain, p[0].payload, l, r);
      assert false;
    }
  }

  ghost predicate DistinctPayloads(leaves: seq<Leaf>) {
    forall i, j :: 0 <= i < j < |leaves| ==> leaves[i].payload != leaves[j].payload
  }

  lemma SamePayload(h: Hasher, domain: string, p: seq<Leaf>, q: seq<Leaf>, i: nat, j: nat, inputs: iset<Bytes>)
    requires i < |p| && j < |q| && CollisionFree(h, inputs)
    requires LeavesIn(domain, p, inputs) && LeavesIn(domain, q, inputs)
    requires LeafLevel(h, domain, p)[i] == LeafLevel(h, domain, q)[j]
    ensures p[i].payload == q[j].payload
  {
    assert h(LeafInput(domain, p[i].payload)) == h(LeafInput(domain, q[j].payload));
    LeafInputInjective(domain, p[i].payload, q[j].payload);
  }

  lemma EqualRootsNotLonger(h: Hasher, domain: string, p: seq<Leaf>, q: seq<Leaf>, inputs: iset<Bytes>)
    requires p != [] && q != [] && CollisionFree(h, inputs)
    requires TreeIn(h, domain, p, inputs) && TreeIn(h, domain, q, inputs)
    requires TreeRoot(h, domain, p) == TreeRoot(h, domain, q)
    requires DistinctPayloads(q)
    ensures |q| <= |p|
    ensures forall i :: 0 <= i < |q| ==> p[i].payload == q[i].payload
  {
    var a, b := LeafLevel(h, domain, p), LeafLevel(h, domain, q);
    SameRootSameHeight(h, domain, p, q, inputs);
    SameRootSameHeight(h, domain, q, p, inputs);
    forall i | 0 <= i < |p| && i < |q| ensures p[i].payload == q[i].payload {
      SameRootSamePaths(h, a, b, i, inputs);
      ReachDirect(|p|, i);
      ReachDirect(|q|, i);
      SamePayload(h, domain, p, q, i, i, inputs);
    }
    if |p| < |q| {
      var j := |p|;
      SameRootSamePaths(h, a, b, j, inputs);
      ReachDirect(|q|, j);
      SamePayload(h, domain, p, q, Reach(|p|, j), j, inputs);
      assert false;
    }
  }

  /**
   * Although an odd level repeats its last node, the root of pairwise distinct payloads determines the whole
   * sequence of payloads.
   */
  lemma RootDeterminesPayloads(h: Hasher, domain: string, p: seq<Leaf>, q: seq<Leaf>, inputs: iset<Bytes>)
    requires CollisionFree(h, inputs)
    requires TreeIn(h, domain, p, inputs) && TreeIn(h, domain, q, inputs)
    requires DistinctPayloads(p) && DistinctPayloads(q)
    requires TreeRoot(h, domain, p) == TreeRoot(h, domain, q)
    ensures |p| == |q| && forall i :: 0 <= i < |p| ==> p[i].payload == q[i].payload
  {
    if p == [] || q == [] {
      RootOfLeavesIsNotEmpty(h, domain, p, inputs);
      RootOfLeavesIsNotEmpty(h, domain, q, inputs);
    } else {
      EqualRootsNotLonger(h, domain, p, q, inputs);
      EqualRootsNotLonger(h, domain, q, p, inputs);
    }
  }

  lemma RootOfLeavesIsNotEmpty(h: Hasher, domain: string, leaves: seq<Leaf>, inputs: iset<Bytes>)
    requires CollisionFree(h, inputs) && TreeIn(h, domain, leaves, inputs)
    ensures TreeRoot(h, domain, leaves) == EmptyRoot(h) ==> leaves == []
  {
    if leaves != [] && TreeRoot(h, domain, leaves) == EmptyRoot(h) {
      var level := LeafLevel(h, domain, leaves);
      if |leaves| == 1 {
        TagsDiffer(domain, leaves[0].payload, 0, 0);
      } else {
        var k := Height(|leaves|);
        UpKeepsRoot(h, level, k, inputs);
        var top := Up(h, level, k);
        var a, b := UpIsNode(h, level, k, top[0], inputs);
        TagsDiffer(domain, [], a, b);
      }
      assert false;
    }
  }

  /** Without distinct payloads the root does not: repeating the last of three leaves leaves the root unchanged. */
  lemma DuplicationCollides(h: Hasher, domain: string, x: Leaf, y: Leaf, z: Leaf)
    ensures TreeRoot(h, domain, [x, y, z]) == TreeRoot(h, domain, [x, y, z, z])
  {
    var p, q := LeafLevel(h, domain, [x, y, z]), LeafLevel(h, domain, [x, y, z, z]);
    assert p[0] == q[0] && p[1] == q[1] && p[2] == q[2] && p[2] == q[3];
    assert Parents(h, p) == Parents(h, q);
  }
}
