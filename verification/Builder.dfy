/** The batch builder: the deterministic derivation of a Beacon proposal from a frozen window (pkg/netting/batch/builder.go). */
module Builder {
  import opened Base
  import opened ByteStrings
  import opened Merkle
  import opened Model
  import opened Packages
  import opened Sorting
  import opened Matching
  import opened MatchingProofs
  import opened Matcher
  import opened MatcherRun

  /** The part of a frozen window the derivation uses. */
  datatype Frozen = Frozen(windowId: Uint64, cuts: seq<ShardCut>, receipts: seq<Receipt>, intents: seq<PaymentIntent>)

  // ---- cuts ----

  function ByShard(): ShardCut -> int {
    (cut: ShardCut) => cut.shardId
  }

  function ByIntent(): IntentResult -> int {
    (r: IntentResult) => r.intentId
  }

  ghost predicate GoodCuts(cuts: seq<ShardCut>) {
    (forall i :: 0 <= i < |cuts| ==> cuts[i].shardId >= 0 && cuts[i].endHeight >= cuts[i].previousHeight) && Distinct(cuts, ByShard())
  }

  function ShardIds(cuts: seq<ShardCut>): (ids: seq<Int64>)
    ensures |ids| == |cuts|
  {
    seq(|cuts|, i requires 0 <= i < |cuts| => cuts[i].shardId)
  }

  lemma GoodCutsPermute(a: seq<ShardCut>, b: seq<ShardCut>)
    requires multiset(a) == multiset(b) && GoodCuts(a)
    ensures GoodCuts(b)
  {
    SameElements(a, b);
    DistinctPermutes(a, b, ByShard());
    forall i | 0 <= i < |b| ensures b[i].shardId >= 0 && b[i].endHeight >= b[i].previousHeight {
      assert b[i] in a;
    }
  }

  /** Cuts sorted by shard; an error exactly on a malformed cut or two cuts of one shard. */
  method CanonicalCuts(input: seq<ShardCut>) returns (r: Result<(seq<ShardCut>, seq<Int64>)>)
    ensures r.Ok? <==> GoodCuts(input)
    ensures r.Ok? ==> r.value == (SortBy(input, ByShard()), ShardIds(SortBy(input, ByShard())))
    ensures r.Err? ==> r.error == InvalidShardCut || r.error == DuplicateShardCut
  {
    var cuts := SortBy(input, ByShard());
    SortByProperties(input, ByShard());
    if GoodCuts(input) {
      GoodCutsPermute(input, cuts);
    }
    var ids: seq<Int64> := [];
    for i := 0 to |cuts|
      invariant ids == ShardIds(cuts)[..i]
      invariant forall j :: 0 <= j < i ==> cuts[j].shardId >= 0 && cuts[j].endHeight >= cuts[j].previousHeight
      invariant forall j, k :: 0 <= j < k < i ==> ByShard()(cuts[j]) < ByShard()(cuts[k])
    {
      var cut := cuts[i];
      if cut.shardId < 0 || cut.endHeight < cut.previousHeight {
        return Err(InvalidShardCut);
      }
      if i > 0 && cuts[i - 1].shardId == cut.shardId {
        assert ByShard()(cuts[i - 1]) == ByShard()(cuts[i]);
        return Err(DuplicateShardCut);
      }
      forall j | 0 <= j < i ensures ByShard()(cuts[j]) < ByShard()(cuts[i]) {
        assert ByShard()(cuts[j]) <= ByShard()(cuts[i - 1]) <= ByShard()(cuts[i]);
      }
      ids := ids + [cut.shardId];
    }
    GoodCutsPermute(cuts, input);
    assert ShardIds(cuts)[..|cuts|] == ShardIds(cuts);
    r := Ok((cuts, ids));
  }

  // ---- settlements ----

  function OutgoingOf(rs: seq<IntentResult>, s: Int64): (out: seq<IntentResult>) {
    if rs == [] then [] else
      var last := rs[|rs| - 1];
      OutgoingOf(rs[..|rs| - 1], s) + if last.intent.sourceShard == s then [last] else []
  }

  function IncomingOf(rs: seq<IntentResult>, s: Int64): (inc: seq<IntentResult>) {
    if rs == [] then [] else
      var last := rs[|rs| - 1];
      IncomingOf(rs[..|rs| - 1], s) + if last.intent.destinationShard == s && last.matched > 0 then [last] else []
  }

  /** What shard s is told to settle. */
  function SettlementOf(batchId: Hash, windowId: Uint64, rs: seq<IntentResult>, s: Int64): Settlement {
    Settlement(batchId, windowId, s, 0, 1, SortBy(OutgoingOf(rs, s), ByIntent()), SortBy(IncomingOf(rs, s), ByIntent()))
  }

  ghost predicate Spans(ids: seq<Int64>, p: PaymentIntent) {
    p.sourceShard in ids && p.destinationShard in ids
  }

  ghost predicate CoveredBy(ids: seq<Int64>, rs: seq<IntentResult>) {
    forall i :: 0 <= i < |rs| ==> Spans(ids, rs[i].intent)
  }

  ghost predicate Payable(h: Hasher, windowId: Uint64, ids: seq<Int64>, rs: seq<IntentResult>) {
    forall i :: 0 <= i < |ids| ==> SettlementPayload(h, SettlementOf(0, windowId, rs, ids[i])).Ok?
  }

  function SettlementsOf(batchId: Hash, windowId: Uint64, ids: seq<Int64>, rs: seq<IntentResult>): (ss: seq<Settlement>)
    ensures |ss| == |ids|
  {
    seq(|ids|, i requires 0 <= i < |ids| => SettlementOf(batchId, windowId, rs, ids[i]))
  }

  /** The leaf a shard's single chunk gives the shard tree. */
  function SettlementLeaf(h: Hasher, s: Settlement): Leaf
    requires SettlementPayload(h, s).Ok? && s.shardId >= 0
  {
    var root := TreeRoot(h, CHUNK_DOMAIN, [Leaf(s.chunkIndex, SettlementPayload(h, s).value)]);
    Leaf(s.shardId, CommitmentPayload(ShardCommitment(s.shardId, root, s.chunkCount)))
  }

  /** Settlements while results are being distributed: the first i of them. */
  ghost predicate Distributed(
    byShard: map<Int64, Settlement>, windowId: Uint64, ids: seq<Int64>, rs: seq<IntentResult>) {
    && (forall s :: s in byShard <==> s in ids)
    && (forall s :: s in byShard ==> byShard[s] == Settlement(0, windowId, s, 0, 1, OutgoingOf(rs, s), IncomingOf(rs, s)))
  }

  method Distribute(
    windowId: Uint64, ids: seq<Int64>, rs: seq<IntentResult>) returns (r: Result<map<Int64, Settlement>>)
    ensures r.Ok? <==> CoveredBy(ids, rs)
    ensures r.Ok? ==> Distributed(r.value, windowId, ids, rs)
    ensures r.Err? ==> r.error == MissingShardCut
  {
    var byShard: map<Int64, Settlement> := map[];
    for i := 0 to |ids|
      invariant Distributed(byShard, windowId, ids[..i], [])
    {
      assert ids[..i + 1] == ids[..i] + [ids[i]];
      byShard := byShard[ids[i] := Settlement(0, windowId, ids[i], 0, 1, [], [])];
    }
    assert ids[..|ids|] == ids;
    for i := 0 to |rs|
      invariant CoveredBy(ids, rs[..i]) && Distributed(byShard, windowId, ids, rs[..i])
    {
      var result := rs[i];
      var source, destination := result.intent.sourceShard, result.intent.destinationShard;
      if source !in byShard || destination !in byShard {
        return Err(MissingShardCut);
      }
      DistributeNext(byShard, windowId, ids, rs[..i], result);
      assert rs[..i + 1] == rs[..i] + [result];
      byShard := byShard[source := byShard[source].(outgoing := byShard[source].outgoing + [result])];
      if result.matched > 0 {
        byShard := byShard[destination := byShard[destination].(incoming := byShard[destination].incoming + [result])];
      }
    }
    assert rs[..|rs|] == rs;
    r := Ok(byShard);
  }

  /** One result joins the outgoing side of its source and, if anything of it is matched, the incoming side of its destination. */
  lemma DistributeNext(
    byShard: map<Int64, Settlement>, windowId: Uint64, ids: seq<Int64>, rs: seq<IntentResult>, r: IntentResult)
    requires Distributed(byShard, windowId, ids, rs) && r.intent.sourceShard in byShard
    requires r.intent.destinationShard in byShard
    ensures var s, d := r.intent.sourceShard, r.intent.destinationShard;
      var sent := byShard[s := byShard[s].(outgoing := byShard[s].outgoing + [r])];
      Distributed(if r.matched > 0 then sent[d := sent[d].(incoming := sent[d].incoming + [r])] else sent, windowId, ids, rs + [r])
  {
    var s, d := r.intent.sourceShard, r.intent.destinationShard;
    var sent := byShard[s := byShard[s].(outgoing := byShard[s].outgoing + [r])];
    var next := if r.matched > 0 then sent[d := sent[d].(incoming := sent[d].incoming + [r])] else sent;
    forall x | x in next ensures next[x] == Settlement(0, windowId, x, 0, 1, OutgoingOf(rs + [r], x), IncomingOf(rs + [r], x)) {
      SidesNext(rs, r, x);
    }
  }

  /** What one more result adds to the two sides of a shard. */
  lemma SidesNext(rs: seq<IntentResult>, r: IntentResult, x: Int64)
    ensures OutgoingOf(rs + [r], x) == OutgoingOf(rs, x) + if r.intent.sourceShard == x then [r] else []
    ensures IncomingOf(rs + [r], x) == IncomingOf(rs, x) + if r.intent.destinationShard == x && r.matched > 0 then [r] else []
    ensures r.intent.sourceShard != x ==> OutgoingOf(rs + [r], x) == OutgoingOf(rs, x)
    ensures !(r.intent.destinationShard == x && r.matched > 0) ==> IncomingOf(rs + [r], x) == IncomingOf(rs, x)
  {
    assert (rs + [r])[..|rs|] == rs;
  }

  function SettlementLeaves(h: Hasher, ss: seq<Settlement>): (leaves: seq<Leaf>)
    requires forall i :: 0 <= i < |ss| ==> SettlementPayload(h, ss[i]).Ok? && ss[i].shardId >= 0
    ensures |leaves| == |ss|
  {
    seq(|ss|, i requires 0 <= i < |ss| => SettlementLeaf(h, ss[i]))
  }

  lemma SingleLeaf(leaf: Leaf)
    ensures SortBy([leaf], KeyOf()) == [leaf] && Distinct([leaf], KeyOf())
  {
    assert [leaf][1..] == [];
  }

  /** A shard's settlement with its results in identifier order, and its leaf. */
  method Finish(h: Hasher, draft: Settlement) returns (r: Result<(Settlement, Leaf)>)
    requires draft.shardId >= 0
    ensures var s := draft.(outgoing := SortBy(draft.outgoing, ByIntent()), incoming := SortBy(draft.incoming, ByIntent()));
      && (r.Ok? <==> SettlementPayload(h, s).Ok?) && (r.Ok? ==> r.value == (s, SettlementLeaf(h, s)))
  {
    var s := draft.(outgoing := SortBy(draft.outgoing, ByIntent()), incoming := SortBy(draft.incoming, ByIntent()));
    match SettlementPayload(h, s) {
      case Err(e) =>
        r := Err(e);
      case Ok(payload) =>
        var leaf := Leaf(s.chunkIndex, payload);
        SingleLeaf(leaf);
        var tree := Build(h, CHUNK_DOMAIN, [leaf]);
        if tree.Err? {
          return Err(InvalidSettlement);
        }
        r := Ok((s, Leaf(s.shardId, CommitmentPayload(ShardCommitment(s.shardId, tree.value.root, s.chunkCount)))));
    }
  }

  method BuildSettlements(
    h: Hasher, windowId: Uint64, ids: seq<Int64>, rs: seq<IntentResult>)
    returns (r: Result<(seq<Settlement>, seq<Leaf>)>)
    requires forall i :: 0 <= i < |ids| ==> ids[i] >= 0
    ensures r.Ok? <==> CoveredBy(ids, rs) && Payable(h, windowId, ids, rs)
    ensures r.Ok? ==> r.value.0 == SettlementsOf(0, windowId, ids, rs) && r.value.1 == SettlementLeaves(h, r.value.0)
  {
    var distributed := Distribute(windowId, ids, rs);
    if distributed.Err? {
      return Err(distributed.error);
    }
    var byShard := distributed.value;
    var ss: seq<Settlement>, leaves: seq<Leaf> := [], [];
    for i := 0 to |ids|
      invariant Finished(h, windowId, ids[..i], rs, ss, leaves)
    {
      assert ids[i] in byShard;
      var done := Finish(h, byShard[ids[i]]);
      if done.Err? {
        assert SettlementPayload(h, SettlementOf(0, windowId, rs, ids[i])).Err?;
        return Err(done.error);
      }
      assert ids[..i + 1] == ids[..i] + [ids[i]];
      ss := ss + [done.value.0];
      leaves := leaves + [done.value.1];
    }
    assert ids[..|ids|] == ids;
    AllFinished(h, windowId, ids, rs, ss, leaves);
    r := Ok((ss, leaves));
  }

  /** The settlements and leaves of the given shards. */
  ghost predicate Finished(
    h: Hasher, windowId: Uint64, ids: seq<Int64>, rs: seq<IntentResult>, ss: seq<Settlement>, leaves: seq<Leaf>) {
    |ss| == |ids| && |leaves| == |ids| && forall j :: 0 <= j < |ids| ==> FinishedOne(h, windowId, ids[j], rs, ss[j], leaves[j])
  }

  ghost predicate FinishedOne(h: Hasher, windowId: Uint64, id: Int64, rs: seq<IntentResult>, s: Settlement, leaf: Leaf) {
    s == SettlementOf(0, windowId, rs, id) && SettlementPayload(h, s).Ok? && id >= 0 && leaf == SettlementLeaf(h, s)
  }

  lemma AllFinished(
    h: Hasher, windowId: Uint64, ids: seq<Int64>, rs: seq<IntentResult>, ss: seq<Settlement>, leaves: seq<Leaf>)
    requires Finished(h, windowId, ids, rs, ss, leaves)
    ensures Payable(h, windowId, ids, rs) && ss == SettlementsOf(0, windowId, ids, rs)
    ensures (forall i :: 0 <= i < |ss| ==> SettlementPayload(h, ss[i]).Ok? && ss[i].shardId >= 0) && leaves == SettlementLeaves(h, ss)
  {
    forall j | 0 <= j < |ids| ensures ss[j] == SettlementOf(0, windowId, rs, ids[j]) && SettlementPayload(h, ss[j]).Ok? && ss[j].shardId >= 0 {
      assert FinishedOne(h, windowId, ids[j], rs, ss[j], leaves[j]);
    }
    forall j | 0 <= j < |ids| ensures leaves[j] == SettlementLeaf(h, ss[j]) {
      assert FinishedOne(h, windowId, ids[j], rs, ss[j], leaves[j]);
    }
  }

  // ---- the proposal ----

  function CutLeaves(cuts: seq<ShardCut>): (leaves: seq<Leaf>)
    requires forall i :: 0 <= i < |cuts| ==> cuts[i].shardId >= 0
    ensures |leaves| == |cuts|
  {
    seq(|cuts|, i requires 0 <= i < |cuts| => Leaf(cuts[i].shardId, CutPayload(cuts[i])))
  }

  function ResultLeaves(h: Hasher, rs: seq<IntentResult>): (leaves: seq<Leaf>)
    ensures |leaves| == |rs|
  {
    seq(|rs|, i requires 0 <= i < |rs| => Leaf(rs[i].intentId, match ResultPayload(h, rs[i]) case Ok(payload) => payload case Err(_) => []))
  }

  /** The proposal over canonical cuts and results in identifier order. */
  function ProposalOf(
    h: Hasher, frozen: Frozen, previous: Hash, mode: string, cuts: seq<ShardCut>, rs: seq<IntentResult>,
    leaves: seq<Leaf>): Proposal
    requires forall i :: 0 <= i < |cuts| ==> cuts[i].shardId >= 0
  {
    var cutRoot := TreeRoot(h, CUT_DOMAIN, CutLeaves(cuts));
    var resultRoot := TreeRoot(h, RESULT_DOMAIN, ResultLeaves(h, rs));
    var shardRoot := TreeRoot(h, SHARD_DOMAIN, leaves);
    var matchRoot := MatchRoot(h, cutRoot, resultRoot, shardRoot);
    var batchId := BatchId(h, previous, frozen.windowId, matchRoot);
    Proposal(
      Header(batchId, previous, frozen.windowId, mode, cutRoot, resultRoot, shardRoot, matchRoot, cuts),
      Sidecar(frozen.receipts, rs, SettlementsOf(batchId, frozen.windowId, ShardIds(cuts), rs)))
  }

  /** The window has intents, good cuts and acceptable intents. */
  ghost predicate Matchable(h: Hasher, frozen: Frozen, mode: string) {
    frozen.intents != [] && GoodCuts(frozen.cuts) && Outcome(h, frozen.intents, mode).Some?
  }

  /** The canonical cuts and the results in identifier order. */
  ghost function CutsOf(frozen: Frozen): seq<ShardCut> {
    SortBy(frozen.cuts, ByShard())
  }

  ghost function ResultsFor(h: Hasher, frozen: Frozen, mode: string): seq<IntentResult>
    requires Outcome(h, frozen.intents, mode).Some?
  {
    SortBy(Outcome(h, frozen.intents, mode).value.results, ByIntent())
  }

  ghost predicate Buildable(h: Hasher, frozen: Frozen, mode: string) {
    && Matchable(h, frozen, mode) && CoveredBy(ShardIds(CutsOf(frozen)), ResultsFor(h, frozen, mode))
    && Payable(h, frozen.windowId, ShardIds(CutsOf(frozen)), ResultsFor(h, frozen, mode))
  }

  lemma CanonicalShards(cuts: seq<ShardCut>)
    requires GoodCuts(cuts)
    ensures var c := SortBy(cuts, ByShard());
      && GoodCuts(c) && (forall i :: 0 <= i < |c| ==> c[i].shardId >= 0 && ShardIds(c)[i] >= 0)
      && (forall i, j :: 0 <= i < j < |c| ==> ShardIds(c)[i] < ShardIds(c)[j])
  {
    var c := SortBy(cuts, ByShard());
    SortByProperties(cuts, ByShard());
    GoodCutsPermute(cuts, c);
    forall i, j | 0 <= i < j < |c| ensures ShardIds(c)[i] < ShardIds(c)[j] {
      assert ByShard()(c[i]) <= ByShard()(c[j]) && ByShard()(c[i]) != ByShard()(c[j]);
    }
  }

  /** The Builder's whole outcome as a function of the window. */
  ghost function Built(h: Hasher, frozen: Frozen, previous: Hash, mode: string): Option<Proposal> {
    if !Buildable(h, frozen, mode) then None else
      CanonicalShards(frozen.cuts);
      Some(ProposalOf(h, frozen, previous, NormalizeMode(mode), CutsOf(frozen), ResultsFor(h, frozen, mode), LeavesFor(h, frozen, mode)))
  }

  /** The settlement leaves of a buildable window. */
  ghost function LeavesFor(h: Hasher, frozen: Frozen, mode: string): seq<Leaf>
    requires Buildable(h, frozen, mode)
  {
    CanonicalShards(frozen.cuts);
    SettlementLeaves(h, SettlementsOf(0, frozen.windowId, ShardIds(CutsOf(frozen)), ResultsFor(h, frozen, mode)))
  }

  // ---- building ----

  /** Already ordered leaves are not moved. */
  lemma OrderedLeaves(leaves: seq<Leaf>)
    requires forall i, j :: 0 <= i < j < |leaves| ==> leaves[i].key < leaves[j].key
    ensures SortBy(leaves, KeyOf()) == leaves && Distinct(leaves, KeyOf())
  {
    assert Sorted(leaves, KeyOf()) && Distinct(leaves, KeyOf());
    SortByProperties(leaves, KeyOf());
    SortedUnique(leaves, SortBy(leaves, KeyOf()), KeyOf());
  }

  method RootOfLeaves(h: Hasher, domain: string, leaves: seq<Leaf>) returns (root: Result<Hash>)
    requires domain != "" && forall i, j :: 0 <= i < j < |leaves| ==> leaves[i].key < leaves[j].key
    ensures root == Ok(TreeRoot(h, domain, leaves))
  {
    OrderedLeaves(leaves);
    var tree := Build(h, domain, leaves);
    if tree.Err? {
      return Err(DuplicateKey);
    }
    root := Ok(tree.value.root);
  }

  lemma ResultsDistinct(h: Hasher, intents: seq<PaymentIntent>, mode: string)
    requires Outcome(h, intents, mode).Some?
    ensures var rs := Outcome(h, intents, mode).value.results; forall i, j :: 0 <= i < j < |rs| ==> rs[i].intentId < rs[j].intentId
  {
    var book := BookOf(h, intents);
    var ids := Ids(book);
    OrderedDistinct(book.Keys, ById());
    var rs := Outcome(h, intents, mode).value.results;
    forall i, j | 0 <= i < j < |rs| ensures rs[i].intentId < rs[j].intentId {
      assert ids[i] in ids && ids[j] in ids;
      assert ById()(ids[i]) <= ById()(ids[j]) && ById()(ids[i]) != ById()(ids[j]);
    }
  }

  /** The results of the matcher are in identifier order already. */
  lemma ResultsOrdered(h: Hasher, intents: seq<PaymentIntent>, mode: string)
    requires Outcome(h, intents, mode).Some?
    ensures var rs := Outcome(h, intents, mode).value.results; SortBy(rs, ByIntent()) == rs && Distinct(rs, ByIntent()) && Sorted(rs, ByIntent())
  {
    var rs := Outcome(h, intents, mode).value.results;
    ResultsDistinct(h, intents, mode);
    forall i, j | 0 <= i < j < |rs| ensures ByIntent()(rs[i]) < ByIntent()(rs[j]) {
    }
    SortByProperties(rs, ByIntent());
    SortedUnique(rs, SortBy(rs, ByIntent()), ByIntent());
  }

  /** The committing half of the derivation: settlements, roots and header. */
  method Commit(
    h: Hasher, frozen: Frozen, previous: Hash, mode: string, cuts: seq<ShardCut>, rs: seq<IntentResult>)
    returns (r: Result<Proposal>)
    requires (forall i :: 0 <= i < |cuts| ==> cuts[i].shardId >= 0)
    requires (forall i, j :: 0 <= i < j < |cuts| ==> cuts[i].shardId < cuts[j].shardId)
    requires forall i, j :: 0 <= i < j < |rs| ==> rs[i].intentId < rs[j].intentId
    ensures r.Ok? <==> CoveredBy(ShardIds(cuts), rs) && Payable(h, frozen.windowId, ShardIds(cuts), rs)
    ensures r.Ok? ==> r.value == ProposalOf(h, frozen, previous, mode, cuts, rs, SettlementLeaves(h, SettlementsOf(0, frozen.windowId, ShardIds(cuts), rs)))
  {
    var ids := ShardIds(cuts);
    var built := BuildSettlements(h, frozen.windowId, ids, rs);
    if built.Err? {
      return Err(built.error);
    }
    var settlements, leaves := built.value.0, built.value.1;
    var cutRoot := RootOfLeaves(h, CUT_DOMAIN, CutLeaves(cuts));
    var resultRoot := RootOfLeaves(h, RESULT_DOMAIN, ResultLeaves(h, rs));
    var shardRoot := RootOfLeaves(h, SHARD_DOMAIN, leaves);
    if cutRoot.Err? || resultRoot.Err? || shardRoot.Err? {
      return Err(DuplicateKey);
    }
    var matchRoot := MatchRoot(h, cutRoot.value, resultRoot.value, shardRoot.value);
    var batchId := BatchId(h, previous, frozen.windowId, matchRoot);
    var named := NameBatch(settlements, batchId);
    assert named == SettlementsOf(batchId, frozen.windowId, ids, rs);
    r := Ok(Proposal(
      Header(batchId, previous, frozen.windowId, mode, cutRoot.value, resultRoot.value, shardRoot.value, matchRoot, cuts),
      Sidecar(frozen.receipts, rs, named)));
  }

  method NameBatch(ss: seq<Settlement>, batchId: Hash) returns (named: seq<Settlement>)
    ensures |named| == |ss| && forall i :: 0 <= i < |ss| ==> named[i] == ss[i].(batchId := batchId)
  {
    named := ss;
    for i := 0 to |ss|
      invariant |named| == |ss| && forall j :: 0 <= j < |ss| ==> named[j] == if j < i then ss[j].(batchId := batchId) else ss[j]
    {
      named := named[i := named[i].(batchId := batchId)];
    }
  }

  /** The Builder succeeds exactly on buildable windows and derives exactly the specified proposal. */
  method BuildBatch(h: Hasher, frozen: Frozen, previous: Hash, requested: string) returns (r: Result<Proposal>)
    ensures (if r.Ok? then Some(r.value) else None) == Built(h, frozen, previous, requested)
  {
    if |frozen.intents| == 0 {
      return Err(EmptyWindow);
    }
    var mode := NormalizeMode(requested);
    var canonical := CanonicalCuts(frozen.cuts);
    if canonical.Err? {
      return Err(canonical.error);
    }
    var matched := MatchWithMode(h, frozen.intents, mode);
    NormalizeTwice(requested);
    if matched.Err? {
      return Err(matched.error);
    }
    PartsOrdered(h, frozen, requested);
    if Buildable(h, frozen, requested) {
      BuiltIs(h, frozen, previous, requested);
    }
    r := Commit(h, frozen, previous, mode, canonical.value.0, SortBy(matched.value.results, ByIntent()));
  }

  /** The canonical cuts and the results are strictly ordered. */
  lemma PartsOrdered(h: Hasher, frozen: Frozen, mode: string)
    requires Matchable(h, frozen, mode)
    ensures var cuts, rs := CutsOf(frozen), ResultsFor(h, frozen, mode);
      && (forall i :: 0 <= i < |cuts| ==> cuts[i].shardId >= 0) && (forall i, j :: 0 <= i < j < |cuts| ==> cuts[i].shardId < cuts[j].shardId)
      && (forall i, j :: 0 <= i < j < |rs| ==> rs[i].intentId < rs[j].intentId)
  {
    CanonicalShards(frozen.cuts);
    ResultsOrdered(h, frozen.intents, mode);
    ResultsDistinct(h, frozen.intents, mode);
    var cuts := CutsOf(frozen);
    forall i, j | 0 <= i < j < |cuts| ensures cuts[i].shardId < cuts[j].shardId {
      assert ShardIds(cuts)[i] < ShardIds(cuts)[j];
    }
  }

  lemma BuiltIs(h: Hasher, frozen: Frozen, previous: Hash, mode: string)
    requires Buildable(h, frozen, mode)
    ensures var cuts, rs := CutsOf(frozen), ResultsFor(h, frozen, mode);
      && (forall i :: 0 <= i < |cuts| ==> cuts[i].shardId >= 0)
      && Built(h, frozen, previous, mode) == Some(ProposalOf(h, frozen, previous, NormalizeMode(mode), cuts, rs, LeavesFor(h, frozen, mode)))
  {
    CanonicalShards(frozen.cuts);
  }

  lemma NormalizeTwice(mode: string)
    ensures NormalizeMode(NormalizeMode(mode)) == NormalizeMode(mode)
  {
  }
}
