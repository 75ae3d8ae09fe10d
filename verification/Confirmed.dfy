/**
 * From the Beacon to the shards: every batch the Beacon commits is one the settlement system may confirm, so its run
 * theorems hold of whatever the Beacon commits.
 */
module ConfirmedBatches {
  import opened Base
  import opened ByteStrings
  import opened Model
  import opened Packages
  import opened Sorting
  import opened Builder
  import opened BuilderProofs
  import opened BuilderExecutes
  import opened Beacon
  import opened BeaconStore
  import opened Settlements
  import opened NettingSystem

  // ---- a proposal as a batch ----

  function ResultMap(rs: seq<IntentResult>): map<Hash, IntentResult> {
    if rs == [] then map[] else ResultMap(rs[..|rs| - 1])[rs[|rs| - 1].intentId := rs[|rs| - 1]]
  }

  /** What the shards see of a proposal. */
  function BatchOf(p: Proposal): Batch {
    Batch(p.header, ResultMap(p.sidecar.intentResults), ShardIds(p.header.cuts), p.sidecar.shardSettlements)
  }

  lemma {:induction false} ResultMapFrom(rs: seq<IntentResult>, id: Hash)
    requires id in ResultMap(rs)
    ensures ResultMap(rs)[id] in rs && ResultMap(rs)[id].intentId == id
    decreases |rs|
  {
    if rs[|rs| - 1].intentId != id {
      ResultMapFrom(rs[..|rs| - 1], id);
    }
  }

  lemma {:induction false} ResultMapAt(rs: seq<IntentResult>, k: nat)
    requires Distinct(rs, ByIntent()) && k < |rs|
    ensures rs[k].intentId in ResultMap(rs) && ResultMap(rs)[rs[k].intentId] == rs[k]
    decreases |rs|
  {
    if k < |rs| - 1 {
      assert ByIntent()(rs[k]) != ByIntent()(rs[|rs| - 1]);
      ResultMapAt(rs[..|rs| - 1], k);
    }
  }

  ghost predicate AllListed(b: Batch, rs: seq<IntentResult>) {
    forall k :: 0 <= k < |rs| ==> Listed(b, rs[k])
  }

  lemma BatchLists(p: Proposal)
    requires Distinct(p.sidecar.intentResults, ByIntent())
    ensures AllListed(BatchOf(p), p.sidecar.intentResults)
  {
    var rs := p.sidecar.intentResults;
    forall k | 0 <= k < |rs| ensures Listed(BatchOf(p), rs[k]) {
      ResultMapAt(rs, k);
    }
  }

  // ---- a batch of the Builder is well formed ----

  lemma ListedSettlement(b: Batch, rs: seq<IntentResult>, windowId: Uint64, s: Int64)
    requires AllListed(b, rs)
    ensures SettlementFor(b, s, SettlementOf(b.header.batchId, windowId, rs, s))
  {
    var x := SettlementOf(b.header.batchId, windowId, rs, s);
    forall k | 0 <= k < |x.outgoing| ensures Listed(b, x.outgoing[k]) && x.outgoing[k].intent.sourceShard == s {
      SettlementMembers(b.header.batchId, windowId, rs, s, x.outgoing[k]);
      var j :| 0 <= j < |rs| && rs[j] == x.outgoing[k];
    }
    forall k | 0 <= k < |x.incoming| ensures Listed(b, x.incoming[k]) && x.incoming[k].intent.destinationShard == s {
      SettlementMembers(b.header.batchId, windowId, rs, s, x.incoming[k]);
      var j :| 0 <= j < |rs| && rs[j] == x.incoming[k];
    }
  }

  lemma BuiltSettlementFor(h: Hasher, frozen: Frozen, previous: Hash, mode: string, p: Proposal, i: nat)
    requires Built(h, frozen, previous, mode) == Some(p) && i < |p.sidecar.shardSettlements|
    requires AllListed(BatchOf(p), p.sidecar.intentResults)
    ensures SettlementFor(BatchOf(p), p.sidecar.shardSettlements[i].shardId, p.sidecar.shardSettlements[i])
  {
    BuiltDerived(h, frozen, previous, mode);
    SettlementAt(h, frozen, previous, mode, p, i);
    ListedSettlement(BatchOf(p), p.sidecar.intentResults, frozen.windowId, p.header.cuts[i].shardId);
  }

  lemma BuiltListed(h: Hasher, frozen: Frozen, previous: Hash, mode: string, p: Proposal)
    requires Built(h, frozen, previous, mode) == Some(p)
    ensures AllListed(BatchOf(p), p.sidecar.intentResults) && ValidResults(h, p.sidecar.intentResults)
  {
    BuiltDerived(h, frozen, previous, mode);
    ResultsValid(h, frozen, mode);
    ResultsOrdered(h, frozen.intents, mode);
    BatchLists(p);
  }

  lemma MappedResult(h: Hasher, rs: seq<IntentResult>, id: Hash)
    requires ValidResults(h, rs) && id in ResultMap(rs)
    ensures ValidateResult(h, ResultMap(rs)[id]).Ok? && ResultMap(rs)[id].intentId == id
  {
    ResultMapFrom(rs, id);
    var k :| 0 <= k < |rs| && rs[k] == ResultMap(rs)[id];
  }

  /** Every batch made from a Builder's proposal is well formed for the settlement system. */
  lemma BuiltWellFormed(h: Hasher, frozen: Frozen, previous: Hash, mode: string, p: Proposal)
    requires Built(h, frozen, previous, mode) == Some(p)
    ensures WellFormedBatch(h, BatchOf(p))
  {
    BuiltListed(h, frozen, previous, mode, p);
    BuiltCommitted(h, frozen, previous, mode);
    var ss := p.sidecar.shardSettlements;
    forall x | x in ss ensures SettlementFor(BatchOf(p), x.shardId, x) {
      var i :| 0 <= i < |ss| && ss[i] == x;
      BuiltSettlementFor(h, frozen, previous, mode, p, i);
    }
    WellFormed(h, p);
  }

  lemma WellFormed(h: Hasher, p: Proposal)
    requires ValidResults(h, p.sidecar.intentResults)
    requires Committed(h, p.header, ShardIds(p.header.cuts), p.sidecar.shardSettlements)
    requires forall x :: x in p.sidecar.shardSettlements ==> SettlementFor(BatchOf(p), x.shardId, x)
    ensures WellFormedBatch(h, BatchOf(p))
  {
    var b := BatchOf(p);
    forall id | id in b.results ensures ValidateResult(h, b.results[id]).Ok? && b.results[id].intentId == id {
      MappedResult(h, p.sidecar.intentResults, id);
    }
  }

  /** So is every proposal the Beacon accepts, since the Beacon rebuilds it. */
  lemma AcceptedWellFormed(h: Hasher, tip: Option<MatchRootBlock>, consumed: set<Hash>, p: Proposal)
    requires Accepts(h, tip, consumed, p)
    ensures WellFormedBatch(h, BatchOf(p))
  {
    var window := WindowOf(p, CutIntents(p.header.cuts, p.sidecar.finalizedBlocks));
    var expected := Built(h, window, p.header.previousBatchId, p.header.matcherMode).value;
    BuiltWellFormed(h, window, p.header.previousBatchId, p.header.matcherMode, expected);
    assert BatchOf(expected) == BatchOf(p);
  }

  // ---- what the Beacon commits can be confirmed ----

  lemma {:induction false} CommittedBlocks(h: Hasher, blockHash: MatchRootBlock -> Hash, w: History, i: nat, n: nat)
    requires BeaconRun(h, blockHash, w) && i < n <= |w.commits|
    ensures w.commits[i].header.batchId in w.states[n].blocks
    decreases n
  {
    assert CommitAt(blockHash, w, n - 1);
    if i < n - 1 {
      CommittedBlocks(h, blockHash, w, i, n - 1);
    }
  }

  lemma BatchIdsDistinct(h: Hasher, blockHash: MatchRootBlock -> Hash, w: History, i: nat, j: nat)
    requires BeaconRun(h, blockHash, w) && i < j < |w.commits|
    ensures w.commits[i].header.batchId != w.commits[j].header.batchId
  {
    CommittedBlocks(h, blockHash, w, i, j);
    assert CommitAt(blockHash, w, j);
  }

  lemma BatchConsumes(p: Proposal, id: Hash)
    requires id in BatchOf(p).results
    ensures Consumes(p, id)
  {
    var rs := p.sidecar.intentResults;
    ResultMapFrom(rs, id);
    var k :| 0 <= k < |rs| && rs[k] == ResultMap(rs)[id];
  }

  lemma ResultsDisjoint(h: Hasher, blockHash: MatchRootBlock -> Hash, w: History, i: nat, j: nat)
    requires BeaconRun(h, blockHash, w) && i < j < |w.commits|
    ensures BatchOf(w.commits[i]).results.Keys !! BatchOf(w.commits[j]).results.Keys
  {
    forall id | id in BatchOf(w.commits[i]).results ensures id !in BatchOf(w.commits[j]).results {
      BatchConsumes(w.commits[i], id);
      NoIntentTwice(h, blockHash, w, i, j, id);
      if id in BatchOf(w.commits[j]).results {
        BatchConsumes(w.commits[j], id);
      }
    }
  }

  /** The batch of one of the Beacon's commits. */
  ghost predicate FromBeacon(w: History, batch: Batch) {
    exists j: nat :: j < |w.commits| && batch == BatchOf(w.commits[j])
  }

  ghost predicate AllFromBeacon(w: History, batches: map<Hash, Batch>) {
    forall x :: x in batches ==> batches[x].header.batchId == x && FromBeacon(w, batches[x])
  }

  /** Distinct commits have distinct identifiers and share no intent. */
  lemma CommitsApart(h: Hasher, blockHash: MatchRootBlock -> Hash, w: History, x: Batch, y: Batch)
    requires BeaconRun(h, blockHash, w) && FromBeacon(w, x) && FromBeacon(w, y) && x != y
    ensures x.header.batchId != y.header.batchId && x.results.Keys !! y.results.Keys
  {
    var i: nat :| i < |w.commits| && x == BatchOf(w.commits[i]);
    var j: nat :| j < |w.commits| && y == BatchOf(w.commits[j]);
    if i < j {
      BatchIdsDistinct(h, blockHash, w, i, j);
      ResultsDisjoint(h, blockHash, w, i, j);
    } else {
      BatchIdsDistinct(h, blockHash, w, j, i);
      ResultsDisjoint(h, blockHash, w, j, i);
    }
  }

  lemma BeaconWellFormed(h: Hasher, blockHash: MatchRootBlock -> Hash, w: History, batch: Batch)
    requires BeaconRun(h, blockHash, w) && FromBeacon(w, batch)
    ensures WellFormedBatch(h, batch)
  {
    var j: nat :| j < |w.commits| && batch == BatchOf(w.commits[j]);
    ValidationIsCurrent(h, blockHash, w, j);
    AcceptedWellFormed(h, w.states[j].tip, w.states[j].consumed.Keys, w.commits[j]);
  }

  lemma BeaconFresh(h: Hasher, blockHash: MatchRootBlock -> Hash, w: History, batches: map<Hash, Batch>, batch: Batch)
    requires BeaconRun(h, blockHash, w) && AllFromBeacon(w, batches) && FromBeacon(w, batch) && batch !in batches.Values
    ensures batch.header.batchId !in batches
    ensures forall x :: x in batches ==> batches[x].results.Keys !! batch.results.Keys
    ensures AllFromBeacon(w, batches[batch.header.batchId := batch])
  {
    forall x | x in batches ensures x != batch.header.batchId && batches[x].results.Keys !! batch.results.Keys {
      assert batches[x] in batches.Values;
      CommitsApart(h, blockHash, w, batches[x], batch);
    }
  }

  /** Every commit of the Beacon that is not confirmed yet can be confirmed, in any order. */
  lemma ConfirmEnabled(
    h: Hasher, inputs: iset<Bytes>, blockHash: MatchRootBlock -> Hash, w: History, a: System, batch: Batch)
    requires BeaconRun(h, blockHash, w) && AllFromBeacon(w, a.batches) && FromBeacon(w, batch)
    requires batch !in a.batches.Values
    ensures StepTo(h, inputs, a, Confirm(batch), a.(batches := a.batches[batch.header.batchId := batch]))
    ensures AllFromBeacon(w, a.batches[batch.header.batchId := batch])
  {
    BeaconFresh(h, blockHash, w, a.batches, batch);
    BeaconWellFormed(h, blockHash, w, batch);
  }

  // ---- runs fed by the Beacon ----

  /** A step in which confirmations come from the Beacon and nothing else is asked of them. */
  ghost predicate FedStep(h: Hasher, inputs: iset<Bytes>, w: History, a: System, e: Event, b: System) {
    if e.Confirm? then
      FromBeacon(w, e.batch) && e.batch !in a.batches.Values && b == a.(batches := a.batches[e.batch.header.batchId := e.batch])
    else StepTo(h, inputs, a, e, b)
  }

  ghost predicate FedRun(h: Hasher, inputs: iset<Bytes>, w: History, states: seq<System>, events: seq<Event>) {
    && |states| == |events| + 1 && Init(states[0]) && CollisionFree(h, inputs)
    && forall i: nat :: i < |events| ==> FedStepAt(h, inputs, w, states, events, i)
  }

  ghost predicate FedStepAt(h: Hasher, inputs: iset<Bytes>, w: History, states: seq<System>, events: seq<Event>, i: nat)
    requires i < |events| && |states| == |events| + 1
  {
    FedStep(h, inputs, w, states[i], events[i], states[i + 1])
  }

  lemma FedStepTo(
    h: Hasher, inputs: iset<Bytes>, blockHash: MatchRootBlock -> Hash, w: History, a: System, e: Event,
    b: System)
    requires BeaconRun(h, blockHash, w) && AllFromBeacon(w, a.batches) && FedStep(h, inputs, w, a, e, b)
    ensures StepTo(h, inputs, a, e, b) && AllFromBeacon(w, b.batches)
  {
    if e.Confirm? {
      ConfirmEnabled(h, inputs, blockHash, w, a, e.batch);
    } else {
      BatchesKept(h, inputs, a, e, b);
    }
  }

  lemma BatchesKept(h: Hasher, inputs: iset<Bytes>, a: System, e: Event, b: System)
    requires StepTo(h, inputs, a, e, b) && !e.Confirm?
    ensures b.batches == a.batches
  {
  }

  lemma {:induction false} FedBatches(
    h: Hasher, inputs: iset<Bytes>, blockHash: MatchRootBlock -> Hash, w: History, states: seq<System>, events: seq<Event>, n: nat)
    requires BeaconRun(h, blockHash, w) && FedRun(h, inputs, w, states, events) && n < |states|
    ensures AllFromBeacon(w, states[n].batches)
    decreases n
  {
    if n > 0 {
      FedBatches(h, inputs, blockHash, w, states, events, n - 1);
      assert FedStepAt(h, inputs, w, states, events, n - 1);
      FedStepTo(h, inputs, blockHash, w, states[n - 1], events[n - 1], states[n]);
    }
  }

  /**
   * Every run whose confirmations come from a Beacon is a run of the settlement system: that batches are well formed,
   * that their identifiers are fresh and that they share no intent is what the Beacon guarantees.
   */
  lemma FedIsRun(
    h: Hasher, inputs: iset<Bytes>, blockHash: MatchRootBlock -> Hash, w: History, states: seq<System>,
    events: seq<Event>)
    requires BeaconRun(h, blockHash, w) && FedRun(h, inputs, w, states, events)
    ensures Run(h, inputs, states, events)
  {
    forall i | 0 <= i < |events| ensures StepTo(h, inputs, states[i], events[i], states[i + 1]) {
      FedBatches(h, inputs, blockHash, w, states, events, i);
      assert FedStepAt(h, inputs, w, states, events, i);
      FedStepTo(h, inputs, blockHash, w, states[i], events[i], states[i + 1]);
    }
  }

  /** Exactly once, of whatever the Beacon commits: no part of an intent is credited twice anywhere. */
  lemma BeaconExactlyOnce(
    h: Hasher, inputs: iset<Bytes>, blockHash: MatchRootBlock -> Hash, w: History, states: seq<System>, events: seq<Event>, n: nat,
    kind: CreditKind, id: Hash, s: Int64, i: nat, t: Int64, j: nat)
    requires BeaconRun(h, blockHash, w) && FedRun(h, inputs, w, states, events) && n < |states|
    requires Gave(states[n], s, i, kind, id) && Gave(states[n], t, j, kind, id)
    ensures s == t && i == j
  {
    FedIsRun(h, inputs, blockHash, w, states, events);
    CreditedAtMostOnce(h, inputs, states, events, n, kind, id, s, i, t, j);
  }
}
