/** The loops of the Beacon validator (pkg/netting/beacon/validator.go). */
module BeaconValidator {
  import opened Base
  import opened ByteStrings
  import opened Model
  import opened Sorting
  import opened MatchingProofs
  import opened Matcher
  import opened Builder
  import opened Beacon

  // ---- one cut ----

  /** Checks a shard's receipts against its cut and collects their intents. */
  method FillCut(
    tip: Option<MatchRootBlock>, previous: Option<ShardCut>, cut: ShardCut, receipts: seq<Receipt>)
    returns (ok: bool, intents: seq<PaymentIntent>)
    requires cut.endHeight >= cut.previousHeight && previous == PreviousCut(tip, cut.shardId)
    ensures ok <==> CutFilled(tip, cut, receipts)
    ensures ok ==> intents == IntentsOf(receipts)
  {
    intents := [];
    if |receipts| != cut.endHeight - cut.previousHeight {
      return false, intents;
    }
    var parent: Hash := if previous.Some? then previous.value.endBlockHash else 0;
    for i := 0 to |receipts|
      invariant forall j: nat :: j < i ==> ReceiptFits(cut, previous, receipts, j)
      invariant intents == IntentsOf(receipts[..i])
      invariant ParentOf(previous, receipts, i).Some? ==> parent == ParentOf(previous, receipts, i).value
    {
      var receipt := receipts[i];
      if receipt.height != cut.previousHeight + i + 1 || receipt.shardId != cut.shardId {
        assert !ReceiptFits(cut, previous, receipts, i);
        return false, intents;
      }
      if (i > 0 || previous.Some?) && receipt.parentHash != parent {
        assert !ReceiptFits(cut, previous, receipts, i);
        return false, intents;
      }
      parent := receipt.blockHash;
      assert receipts[..i + 1][..i] == receipts[..i];
      intents := intents + receipt.intents;
    }
    assert receipts[..|receipts|] == receipts;
    if |receipts| > 0 && parent != cut.endBlockHash {
      return false, intents;
    }
    if |receipts| == 0 && previous.Some? && cut.endBlockHash != previous.value.endBlockHash {
      return false, intents;
    }
    ok := true;
  }

  // ---- lookups by shard ----

  ghost predicate CutsByShard(m: map<Int64, ShardCut>, cuts: seq<ShardCut>) {
    forall s: Int64 :: CutFor(cuts, s) == if s in m then Some(m[s]) else None
  }

  method IndexCuts(tip: Option<MatchRootBlock>) returns (m: map<Int64, ShardCut>)
    ensures forall s: Int64 :: PreviousCut(tip, s) == if s in m then Some(m[s]) else None
  {
    m := map[];
    match tip {
      case None =>
      case Some(block) =>
        var cuts := block.body.cuts;
        for i := 0 to |cuts|
          invariant CutsByShard(m, cuts[..i])
        {
          CutsSnoc(m, cuts[..i], cuts[i]);
          assert cuts[..i + 1] == cuts[..i] + [cuts[i]];
          m := m[cuts[i].shardId := cuts[i]];
        }
        assert cuts[..|cuts|] == cuts;
    }
  }

  lemma CutsSnoc(m: map<Int64, ShardCut>, cuts: seq<ShardCut>, cut: ShardCut)
    requires CutsByShard(m, cuts)
    ensures CutsByShard(m[cut.shardId := cut], cuts + [cut])
  {
    assert (cuts + [cut])[..|cuts|] == cuts;
  }

  ghost predicate NamesShard(rs: seq<Receipt>, s: Int64) {
    exists r :: r in rs && r.shardId == s
  }

  lemma NamesShardSnoc(rs: seq<Receipt>, r: Receipt, s: Int64)
    ensures NamesShard(rs + [r], s) <==> NamesShard(rs, s) || r.shardId == s
    ensures OfShardReceipts(rs + [r], s) == OfShardReceipts(rs, s) + if r.shardId == s then [r] else []
  {
    assert (rs + [r])[..|rs|] == rs;
    if NamesShard(rs, s) {
      var x :| x in rs && x.shardId == s;
      assert x in rs + [r];
    }
    if r.shardId == s {
      assert r in rs + [r];
    }
  }

  lemma {:induction false} NotNamed(rs: seq<Receipt>, s: Int64)
    requires !NamesShard(rs, s)
    ensures OfShardReceipts(rs, s) == []
    decreases |rs|
  {
    if rs != [] {
      var n := |rs| - 1;
      assert rs == rs[..n] + [rs[n]];
      NamesShardSnoc(rs[..n], rs[n], s);
      NotNamed(rs[..n], s);
    }
  }

  ghost predicate ReceiptsByShard(m: map<Int64, seq<Receipt>>, rs: seq<Receipt>) {
    (forall s :: s in m <==> NamesShard(rs, s)) && forall s :: s in m ==> m[s] == OfShardReceipts(rs, s)
  }

  lemma ReceiptsSnoc(m: map<Int64, seq<Receipt>>, rs: seq<Receipt>, r: Receipt)
    requires ReceiptsByShard(m, rs)
    ensures ReceiptsByShard(m[r.shardId := (if r.shardId in m then m[r.shardId] else []) + [r]], rs + [r])
  {
    var next := m[r.shardId := (if r.shardId in m then m[r.shardId] else []) + [r]];
    forall s ensures (s in next <==> NamesShard(rs + [r], s)) && (s in next ==> next[s] == OfShardReceipts(rs + [r], s)) {
      NamesShardSnoc(rs, r, s);
      if s !in m {
        NotNamed(rs, s);
      }
    }
  }

  method IndexReceipts(rs: seq<Receipt>) returns (m: map<Int64, seq<Receipt>>, epoch: nat)
    ensures ReceiptsByShard(m, rs) && epoch == AcceptanceEpoch(rs)
  {
    m, epoch := map[], 0;
    for i := 0 to |rs|
      invariant ReceiptsByShard(m, rs[..i]) && epoch == AcceptanceEpoch(rs[..i])
    {
      var r := rs[i];
      ReceiptsSnoc(m, rs[..i], r);
      assert rs[..i + 1] == rs[..i] + [r] && rs[..i + 1][..i] == rs[..i];
      m := m[r.shardId := (if r.shardId in m then m[r.shardId] else []) + [r]];
      if r.epoch >= 0 && r.epoch > epoch {
        epoch := r.epoch;
      }
    }
    assert rs[..|rs|] == rs;
  }

  // ---- all cuts ----

  /** The cut of a shard is among the first n. */
  ghost predicate CutAmong(cuts: seq<ShardCut>, n: nat, s: Int64) {
    n <= |cuts| && exists i :: 0 <= i < n && cuts[i].shardId == s
  }

  /** After n cuts: their receipts are gone from the index. */
  ghost predicate Uncut(m: map<Int64, seq<Receipt>>, cuts: seq<ShardCut>, n: nat, rs: seq<Receipt>) {
    (forall s: Int64 :: s in m <==> NamesShard(rs, s) && !CutAmong(cuts, n, s)) && forall s :: s in m ==> m[s] == OfShardReceipts(rs, s)
  }

  lemma CutAmongNext(cuts: seq<ShardCut>, n: nat, s: Int64)
    requires n < |cuts|
    ensures CutAmong(cuts, n + 1, s) <==> CutAmong(cuts, n, s) || cuts[n].shardId == s
  {
    if CutAmong(cuts, n, s) {
      var i :| 0 <= i < n && cuts[i].shardId == s;
      assert i < n + 1;
    }
    if cuts[n].shardId == s {
      assert n < n + 1;
    }
  }

  lemma UncutNext(m: map<Int64, seq<Receipt>>, cuts: seq<ShardCut>, n: nat, rs: seq<Receipt>)
    requires n < |cuts| && Uncut(m, cuts, n, rs)
    ensures Uncut(m - {cuts[n].shardId}, cuts, n + 1, rs)
  {
    forall s: Int64 ensures s in m - {cuts[n].shardId} <==> NamesShard(rs, s) && !CutAmong(cuts, n + 1, s) {
      CutAmongNext(cuts, n, s);
    }
  }

  /** The receipts indexed for the next cut are its shard's. */
  lemma UncutLookup(m: map<Int64, seq<Receipt>>, cuts: seq<ShardCut>, n: nat, rs: seq<Receipt>)
    requires n < |cuts| && Uncut(m, cuts, n, rs) && !CutAmong(cuts, n, cuts[n].shardId)
    ensures (if cuts[n].shardId in m then m[cuts[n].shardId] else []) == OfShardReceipts(rs, cuts[n].shardId)
  {
    if !NamesShard(rs, cuts[n].shardId) {
      NotNamed(rs, cuts[n].shardId);
    }
  }

  lemma DistinctCutsNext(cuts: seq<ShardCut>, n: nat)
    requires n < |cuts| && Distinct(cuts[..n], ByShard())
    ensures CutAmong(cuts, n, cuts[n].shardId) ==> !Distinct(cuts, ByShard())
    ensures !CutAmong(cuts, n, cuts[n].shardId) ==> Distinct(cuts[..n + 1], ByShard())
  {
    if CutAmong(cuts, n, cuts[n].shardId) {
      var i :| 0 <= i < n && cuts[i].shardId == cuts[n].shardId;
      assert ByShard()(cuts[i]) == ByShard()(cuts[n]);
    } else {
      var next := cuts[..n + 1];
      forall i, j | 0 <= i < j < |next| ensures ByShard()(next[i]) != ByShard()(next[j]) {
        if j == n {
          assert cuts[i].shardId != cuts[n].shardId;
        } else {
          assert ByShard()(cuts[..n][i]) != ByShard()(cuts[..n][j]);
        }
      }
    }
  }

  lemma LeftOver(m: map<Int64, seq<Receipt>>, cuts: seq<ShardCut>, rs: seq<Receipt>)
    requires Uncut(m, cuts, |cuts|, rs)
    ensures m == map[] <==> forall r :: r in rs ==> exists i :: 0 <= i < |cuts| && cuts[i].shardId == r.shardId
  {
    if m == map[] {
      forall r | r in rs ensures exists i :: 0 <= i < |cuts| && cuts[i].shardId == r.shardId {
        assert NamesShard(rs, r.shardId);
        assert r.shardId !in m;
        assert CutAmong(cuts, |cuts|, r.shardId);
      }
    } else {
      var s := Pick(m.Keys);
      assert NamesShard(rs, s) && !CutAmong(cuts, |cuts|, s);
      var r :| r in rs && r.shardId == s;
      assert !exists i :: 0 <= i < |cuts| && cuts[i].shardId == r.shardId;
    }
  }

  /** Cuts sequence and receipts coverage of one cut. */
  method CheckCut(
    tip: Option<MatchRootBlock>, previousCuts: map<Int64, ShardCut>, cut: ShardCut, receipts: seq<Receipt>,
    ghost rs: seq<Receipt>)
    returns (r: Result<seq<PaymentIntent>>)
    requires (forall s: Int64 :: PreviousCut(tip, s) == if s in previousCuts then Some(previousCuts[s]) else None)
    requires receipts == OfShardReceipts(rs, cut.shardId)
    ensures r.Ok? <==> CutCovered(tip, cut, rs)
    ensures r.Ok? ==> r.value == IntentsOf(ShardReceipts(rs, cut.shardId))
  {
    if cut.endHeight < cut.previousHeight {
      return Err(CutSequence);
    }
    var previous := if cut.shardId in previousCuts then Some(previousCuts[cut.shardId]) else None;
    if tip.Some? && (previous.None? || cut.previousHeight != previous.value.endHeight) {
      return Err(CutSequence);
    }
    var ok, intents := FillCut(tip, previous, cut, SortBy(receipts, ByHeight()));
    r := if ok then Ok(intents) else Err(ReceiptCoverage);
  }

  /** What the loop over the cuts knows after n of them. */
  ghost predicate CoveredTo(
    tip: Option<MatchRootBlock>, cuts: seq<ShardCut>, rs: seq<Receipt>, n: nat, seen: set<Int64>,
    intents: seq<PaymentIntent>, m: map<Int64, seq<Receipt>>) {
    && n <= |cuts| && Distinct(cuts[..n], ByShard()) && (forall s: Int64 :: s in seen <==> CutAmong(cuts, n, s))
    && (forall j :: 0 <= j < n ==> CutCovered(tip, cuts[j], rs)) && intents == CutIntents(cuts[..n], rs) && Uncut(m, cuts, n, rs)
  }

  lemma CoveredNext(
    tip: Option<MatchRootBlock>, cuts: seq<ShardCut>, rs: seq<Receipt>, n: nat, seen: set<Int64>,
    intents: seq<PaymentIntent>, m: map<Int64, seq<Receipt>>)
    requires CoveredTo(tip, cuts, rs, n, seen, intents, m) && n < |cuts| && cuts[n].shardId !in seen
    requires CutCovered(tip, cuts[n], rs)
    ensures CoveredTo(tip, cuts, rs, n + 1, seen + {cuts[n].shardId}, intents + IntentsOf(ShardReceipts(rs, cuts[n].shardId)), m - {cuts[n].shardId})
  {
    DistinctCutsNext(cuts, n);
    UncutNext(m, cuts, n, rs);
    forall s: Int64 ensures s in seen + {cuts[n].shardId} <==> CutAmong(cuts, n + 1, s) {
      CutAmongNext(cuts, n, s);
    }
    assert cuts[..n + 1][..n] == cuts[..n];
  }

  ghost predicate AllCovered(tip: Option<MatchRootBlock>, cuts: seq<ShardCut>, rs: seq<Receipt>) {
    Distinct(cuts, ByShard()) && forall i :: 0 <= i < |cuts| ==> CutCovered(tip, cuts[i], rs)
  }

  /** The loop over the cuts; what it leaves of the index are the receipts of other shards. */
  method CoverCuts(tip: Option<MatchRootBlock>, cuts: seq<ShardCut>, rs: seq<Receipt>, start: map<Int64, seq<Receipt>>)
    returns (r: Result<seq<PaymentIntent>>, m: map<Int64, seq<Receipt>>)
    requires ReceiptsByShard(start, rs)
    ensures r.Ok? <==> AllCovered(tip, cuts, rs)
    ensures r.Ok? ==> r.value == CutIntents(cuts, rs) && Uncut(m, cuts, |cuts|, rs)
  {
    var previousCuts := IndexCuts(tip);
    var intents: seq<PaymentIntent>, seen: set<Int64> := [], {};
    m := start;
    for i := 0 to |cuts|
      invariant CoveredTo(tip, cuts, rs, i, seen, intents, m)
    {
      if cuts[i].shardId in seen {
        SeenShard(tip, cuts, rs, i, seen, intents, m);
        return Err(CutSequence), m;
      }
      UncutLookup(m, cuts, i, rs);
      var filled := CheckCut(tip, previousCuts, cuts[i], if cuts[i].shardId in m then m[cuts[i].shardId] else [], rs);
      if filled.Err? {
        return Err(filled.error), m;
      }
      CoveredNext(tip, cuts, rs, i, seen, intents, m);
      seen := seen + {cuts[i].shardId};
      intents := intents + filled.value;
      m := m - {cuts[i].shardId};
    }
    CoveredAll(tip, cuts, rs, seen, intents, m);
    r := Ok(intents);
  }

  lemma CoveredAll(
    tip: Option<MatchRootBlock>, cuts: seq<ShardCut>, rs: seq<Receipt>, seen: set<Int64>, intents: seq<PaymentIntent>, m: map<Int64, seq<Receipt>>)
    requires CoveredTo(tip, cuts, rs, |cuts|, seen, intents, m)
    ensures AllCovered(tip, cuts, rs) && intents == CutIntents(cuts, rs) && Uncut(m, cuts, |cuts|, rs)
  {
    assert cuts[..|cuts|] == cuts;
  }

  lemma SeenShard(
    tip: Option<MatchRootBlock>, cuts: seq<ShardCut>, rs: seq<Receipt>, n: nat, seen: set<Int64>,
    intents: seq<PaymentIntent>, m: map<Int64, seq<Receipt>>)
    requires CoveredTo(tip, cuts, rs, n, seen, intents, m) && n < |cuts| && cuts[n].shardId in seen
    ensures !AllCovered(tip, cuts, rs)
  {
    DistinctCutsNext(cuts, n);
  }

  /** The receipts cover the cuts exactly; the intents come in the order of cuts and heights. */
  method ValidateReceiptCoverage(
    p: Proposal, tip: Option<MatchRootBlock>) returns (r: Result<(seq<PaymentIntent>, nat)>)
    ensures r.Ok? <==> Coverage(tip, p.header.cuts, p.sidecar.finalizedBlocks)
    ensures r.Ok? ==> r.value == (CutIntents(p.header.cuts, p.sidecar.finalizedBlocks), AcceptanceEpoch(p.sidecar.finalizedBlocks))
  {
    var cuts, rs := p.header.cuts, p.sidecar.finalizedBlocks;
    var m, epoch := IndexReceipts(rs);
    var intents, rest := CoverCuts(tip, cuts, rs, m);
    if intents.Err? {
      return Err(intents.error);
    }
    LeftOver(rest, cuts, rs);
    if rest != map[] {
      return Err(ReceiptCoverage);
    }
    r := Ok((intents.value, epoch));
  }

  // ---- intents ----

  ghost predicate SeenIds(h: Hasher, ps: seq<PaymentIntent>, n: nat, seen: set<Hash>)
    requires n <= |ps|
  {
    forall id: Hash :: id in seen <==> exists i :: 0 <= i < n && IntentId(h, ps[i]) == Ok(id)
  }

  lemma FreshNext(h: Hasher, consumed: set<Hash>, epoch: nat, ps: seq<PaymentIntent>, n: nat, seen: set<Hash>)
    requires n < |ps| && FreshIntents(h, consumed, epoch, ps[..n]) && SeenIds(h, ps, n, seen)
    requires FreshIntent(h, consumed, epoch, ps[n]) && IntentId(h, ps[n]).value !in seen
    ensures FreshIntents(h, consumed, epoch, ps[..n + 1])
  {
    var front, next := ps[..n], ps[..n + 1];
    forall i, j | 0 <= i < j < |next| ensures IdRank(h)(next[i]) != IdRank(h)(next[j]) {
      assert FreshIntent(h, consumed, epoch, front[i]);
      if j < n {
        assert IdRank(h)(front[i]) != IdRank(h)(front[j]);
      } else {
        assert IntentId(h, ps[i]) == Ok(IntentId(h, ps[i]).value);
      }
    }
    forall i | 0 <= i < |next| ensures FreshIntent(h, consumed, epoch, next[i]) {
      if i < n {
        assert FreshIntent(h, consumed, epoch, front[i]);
      }
    }
  }

  lemma SeenTwice(h: Hasher, consumed: set<Hash>, epoch: nat, ps: seq<PaymentIntent>, n: nat, seen: set<Hash>)
    requires n < |ps| && SeenIds(h, ps, n, seen) && IntentId(h, ps[n]).Ok? && IntentId(h, ps[n]).value in seen
    ensures !FreshIntents(h, consumed, epoch, ps)
  {
    var i :| 0 <= i < n && IntentId(h, ps[i]) == Ok(IntentId(h, ps[n]).value);
    assert IdRank(h)(ps[i]) == IdRank(h)(ps[n]);
  }

  lemma SeenNext(h: Hasher, ps: seq<PaymentIntent>, n: nat, seen: set<Hash>, id: Hash)
    requires n < |ps| && SeenIds(h, ps, n, seen) && IntentId(h, ps[n]) == Ok(id)
    ensures SeenIds(h, ps, n + 1, seen + {id})
  {
    forall x: Hash ensures x in seen + {id} <==> exists i :: 0 <= i < n + 1 && IntentId(h, ps[i]) == Ok(x) {
      if i :| 0 <= i < n + 1 && IntentId(h, ps[i]) == Ok(x) && i < n {
        assert x in seen;
      }
    }
  }

  /** Every intent has an identifier, new to the batch and to the chain, and is not expired. */
  method CheckIntents(h: Hasher, consumed: set<Hash>, epoch: nat, ps: seq<PaymentIntent>) returns (err: Option<Error>)
    ensures err.None? <==> FreshIntents(h, consumed, epoch, ps)
  {
    var seen: set<Hash> := {};
    for n := 0 to |ps|
      invariant FreshIntents(h, consumed, epoch, ps[..n])
      invariant SeenIds(h, ps, n, seen)
    {
      var id := IntentId(h, ps[n]);
      if id.Err? {
        assert !FreshIntent(h, consumed, epoch, ps[n]);
        return Some(id.error);
      }
      if id.value in seen {
        SeenTwice(h, consumed, epoch, ps, n, seen);
        return Some(DuplicateBatchIntent);
      }
      if id.value in consumed {
        assert !FreshIntent(h, consumed, epoch, ps[n]);
        return Some(DuplicateBatchIntent);
      }
      if ps[n].expiryEpoch <= epoch {
        assert !FreshIntent(h, consumed, epoch, ps[n]);
        return Some(ExpiredBatchIntent);
      }
      FreshNext(h, consumed, epoch, ps, n, seen);
      SeenNext(h, ps, n, seen, id.value);
      seen := seen + {id.value};
    }
    assert ps[..|ps|] == ps;
    err := None;
  }

  /** The error of the first result that does not pass Validate. */
  method CheckResults(h: Hasher, rs: seq<IntentResult>) returns (err: Option<Error>)
    ensures err.None? <==> forall i :: 0 <= i < |rs| ==> ValidateResult(h, rs[i]).Ok?
  {
    for i := 0 to |rs|
      invariant forall j :: 0 <= j < i ==> ValidateResult(h, rs[j]).Ok?
    {
      var valid := ValidateResult(h, rs[i]);
      if valid.Err? {
        return Some(valid.error);
      }
    }
    err := None;
  }

  /** The Builder derives the same header, results and settlements. */
  method Rederive(h: Hasher, p: Proposal, intents: seq<PaymentIntent>) returns (err: Option<Error>)
    ensures err.None? <==> Rederived(h, p, intents)
  {
    var expected := BuildBatch(h, WindowOf(p, intents), p.header.previousBatchId, p.header.matcherMode);
    if expected.Err? {
      return Some(expected.error);
    }
    if expected.value.header != p.header || expected.value.sidecar.intentResults != p.sidecar.intentResults ||
       expected.value.sidecar.shardSettlements != p.sidecar.shardSettlements {
      return Some(DerivedBatchMismatch);
    }
    err := None;
  }

  ghost predicate ContentsOk(h: Hasher, consumed: set<Hash>, p: Proposal, intents: seq<PaymentIntent>, epoch: nat) {
    && FreshIntents(h, consumed, epoch, intents) && Rederived(h, p, intents)
    && (forall i :: 0 <= i < |p.sidecar.intentResults| ==> ValidateResult(h, p.sidecar.intentResults[i]).Ok?)
  }

  method CheckContents(
    h: Hasher, consumed: set<Hash>, p: Proposal, intents: seq<PaymentIntent>, epoch: nat) returns (err: Option<Error>)
    ensures err.None? <==> ContentsOk(h, consumed, p, intents, epoch)
  {
    err := CheckIntents(h, consumed, epoch, intents);
    if err.Some? {
      return;
    }
    err := CheckResults(h, p.sidecar.intentResults);
    if err.Some? {
      return;
    }
    err := Rederive(h, p, intents);
  }

  /** Validate accepts exactly the proposals that follow the tip, cover their cuts and are what the Builder derives. */
  method ValidateProposal(
    h: Hasher, tip: Option<MatchRootBlock>, consumed: set<Hash>, p: Proposal) returns (err: Option<Error>)
    ensures err.None? <==> Accepts(h, tip, consumed, p)
    ensures !SequenceOk(p.header, tip) ==> err == Some(BatchSequence)
  {
    if !SequenceOk(p.header, tip) {
      return Some(BatchSequence);
    }
    var coverage := ValidateReceiptCoverage(p, tip);
    if coverage.Err? {
      return Some(coverage.error);
    }
    err := CheckContents(h, consumed, p, coverage.value.0, coverage.value.1);
  }
}
