/** What every run of the Solver keeps, crashes included. */
module SolverProofs {
  import opened Base
  import opened ByteStrings
  import opened Model
  import opened Windows
  import WindowSteps
  import opened WindowSeal
  import opened WindowStates
  import opened WindowRun
  import opened WindowOrder
  import opened WindowManager
  import opened Packages
  import opened Beacon
  import opened BeaconStore
  import opened SolverToBeacon
  import B = Builder
  import P = BuilderProofs
  import opened Solver

  // ---- the chain of batches ----

  /** What the chain says of one batch. */
  lemma ChainAt(c: Setup, st: State, built: seq<Proposal>, t: nat, past: Past, delivered: set<Receipt>, i: nat)
    requires ManagerOk(c, st, built, t, past, delivered) && i < |built|
    ensures var p := built[i].header; p.windowId == i + 1 && p.previousBatchId == PreviousId(built, i) && HeaderDerived(c.h, p)
    ensures SolverToBeacon.Known(c.h, c.cfg, st, past, i)
  {
    assert SolverToBeacon.Known(c.h, c.cfg, st, past, i);
    BatchShape(c.h, c.cfg, st, past, c.mode, built, i);
    assert BuiltAt(c.h, past, c.mode, built, i);
    P.BuiltDerived(c.h, FrozenOf(past.history[i]), PreviousId(built, i), c.mode);
  }

  lemma ChainGrows(c: Setup, a: Past, b: Past, built: seq<Proposal>)
    requires SolverChain(c.h, a, c.mode, built) && a.history <= b.history
    ensures SolverChain(c.h, b, c.mode, built)
  {
    forall i: nat | i < |built| ensures BuiltAt(c.h, b, c.mode, built, i) {
      assert BuiltAt(c.h, a, c.mode, built, i) && a.history[i] == b.history[i];
    }
  }

  /** The window at the head of the queue is the next one to build from. */
  lemma HeadOfQueue(c: Setup, st: State, built: seq<Proposal>, t: nat, past: Past, delivered: set<Receipt>)
    requires ManagerOk(c, st, built, t, past, delivered) && st.frozen != []
    ensures |built| < |past.history| && st.frozen[0] == past.history[|built|]
  {
    assert QueueOk(c.cfg, st, past);
  }

  lemma ChainDrained(c: Setup, past: Past, built: seq<Proposal>, p: Proposal)
    requires SolverChain(c.h, past, c.mode, built) && |built| < |past.history| && Fits(past.history[|built|])
    requires p in BatchesFrom(c.h, past.history[|built|], PreviousId(built, |built|), c.mode)
    ensures SolverChain(c.h, past, c.mode, built + [p])
  {
    FitsNext(past, |built|);
    ChainExtended(c, past, built, p, built + [p]);
  }

  lemma ChainExtended(c: Setup, past: Past, built: seq<Proposal>, p: Proposal, next: seq<Proposal>)
    requires SolverChain(c.h, past, c.mode, built) && next == built + [p] && |next| <= |past.history|
    requires forall i :: 0 <= i < |next| ==> Fits(past.history[i])
    requires p in BatchesFrom(c.h, past.history[|built|], PreviousId(built, |built|), c.mode)
    ensures SolverChain(c.h, past, c.mode, next)
  {
    forall i: nat | i < |next| ensures BuiltAt(c.h, past, c.mode, next, i) {
      if i < |built| {
        assert BuiltAt(c.h, past, c.mode, built, i);
        OldBuilt(c, past, built, p, next, i);
      } else {
        NewBuilt(c, past, built, p, next, i);
      }
    }
  }

  lemma FitsNext(past: Past, n: nat)
    requires n < |past.history| && (forall i :: 0 <= i < n ==> Fits(past.history[i])) && Fits(past.history[n])
    ensures forall i :: 0 <= i < n + 1 ==> Fits(past.history[i])
  {
  }

  lemma OldBuilt(c: Setup, past: Past, built: seq<Proposal>, p: Proposal, next: seq<Proposal>, i: nat)
    requires i < |built| && i < |past.history| && Fits(past.history[i]) && BuiltAt(c.h, past, c.mode, built, i)
    requires next == built + [p]
    ensures BuiltAt(c.h, past, c.mode, next, i)
  {
    SameBatches(c, past.history[i], PreviousId(built, i), PreviousId(next, i));
    assert next[i] == built[i];
  }

  lemma NewBuilt(c: Setup, past: Past, built: seq<Proposal>, p: Proposal, next: seq<Proposal>, i: nat)
    requires i == |built| < |past.history| && Fits(past.history[i]) && next == built + [p]
    requires p in BatchesFrom(c.h, past.history[i], PreviousId(built, i), c.mode)
    ensures BuiltAt(c.h, past, c.mode, next, i)
  {
    SameBatches(c, past.history[i], PreviousId(built, i), PreviousId(next, i));
    assert next[i] == p;
  }

  lemma SameBatches(c: Setup, w: FrozenWindow, a: Hash, b: Hash)
    requires Fits(w) && a == b
    ensures BatchesFrom(c.h, w, a, c.mode) == BatchesFrom(c.h, w, b, c.mode)
  {
  }

  lemma PendingDrained(s: Snapshot, built: seq<Proposal>, p: Proposal)
    requires PendingOk(s, built) && s.manager.Some? && s.manager.value.frozen != []
    ensures PendingOk(AfterDrain(s, p), built + [p])
  {
    assert IdsOf(built + [p]) == IdsOf(built) + [p.header.batchId];
  }

  lemma DrainKeeps(
    c: Setup, s: Snapshot, built: seq<Proposal>, t: nat, past: Past, delivered: set<Receipt>, p: Proposal)
    requires SnapshotOk(c, s, built, t, past, delivered) && Drains(c, s, p)
    ensures SnapshotOk(c, AfterDrain(s, p), built + [p], t, past, delivered)
  {
    var st := s.manager.value;
    HeadOfQueue(c, st, built, t, past, delivered);
    ChainDrained(c, past, built, p);
    AckBetween(c.h, c.cfg, st, past, c.clock, t, delivered);
    PendingDrained(s, built, p);
  }

  // ---- steps of the manager ----

  lemma DeliverKeeps(
    c: Setup, st: State, built: seq<Proposal>, t: nat, past: Past, delivered: set<Receipt>, r: Receipt)
    returns (after: Past)
    requires ManagerOk(c, st, built, t, past, delivered) && HasShards(c.cfg, st) && OnlyShards(c.cfg, st)
    requires r.height < TWO_64 - 1
    ensures var step := Receive(c.h, c.cfg, st, r, c.clock, t); ManagerOk(c, step.st, built, step.t, after, delivered + {r})
  {
    after := ReceiveKeeps(c.h, c.cfg, st, past, c.clock, t, delivered, r);
    ReceiveOut(c, st, r, t);
    ChainGrows(c, past, after, built);
  }

  lemma CloseKeeps(
    c: Setup, st: State, built: seq<Proposal>, t: nat, past: Past, delivered: set<Receipt>) returns (after: Past)
    requires ManagerOk(c, st, built, t, past, delivered) && HasShards(c.cfg, st)
    ensures var step := TryClose(c.cfg, st, c.clock, t); ManagerOk(c, step.st, built, step.t, after, delivered)
  {
    var step := TryClose(c.cfg, st, c.clock, t);
    CloseBetween(c.h, c.cfg, st, past, c.clock, t, delivered);
    after := ClosedPast(past, step);
    CloseOut(c, st, t);
    ChainGrows(c, past, after, built);
  }

  lemma StartKeeps(c: Setup, b: Bootstrap, cps: seq<Checkpoint>, st: State, t: nat)
    requires ValidConfig(c.cfg) && Ticking(c.clock) && Starts(c, b, cps) && InitialState(c.cfg, cps, st)
    ensures ManagerOk(c, st, [], t, InitialPast(cps), {})
  {
    forall s | 0 <= s < |cps| ensures cps[s].height < TWO_64 - 1 {
      assert FirstOf(b[s], cps[s]);
    }
    InitialBetween(c.h, c.cfg, cps, st, c.clock, t);
  }

  // ---- every step keeps the invariant ----

  lemma DrainStored(w: World, p: Proposal, after: World)
    requires StoredOk(w) && after.built == w.built + [p] && after.log == w.log
    requires after.disk.proposals == w.disk.proposals[p.header.batchId := p]
    ensures StoredOk(after)
  {
    forall id | id in after.disk.proposals ensures Stores(after.disk.proposals[id], after.built, id) {
      if id == p.header.batchId {
        assert after.built[|w.built|] == p;
      } else {
        assert Stores(w.disk.proposals[id], w.built, id);
      }
    }
  }

  lemma DrainInv(c: Setup, a: World, p: Proposal, b: World, pasts: Pasts)
    requires Inv(c, a, pasts) && StepTo(c, a, Drain(p), b)
    ensures Inv(c, b, Pasts(pasts.mem, pasts.memDelivered, pasts.mem, pasts.memDelivered))
  {
    DrainKeeps(c, a.mem.saved, a.built, a.t, pasts.mem, pasts.memDelivered, p);
    DrainStored(a, p, b);
  }

  lemma DispatchInv(c: Setup, a: World, b: World, pasts: Pasts)
    requires Inv(c, a, pasts) && StepTo(c, a, Dispatch, b)
    ensures Inv(c, b, pasts)
  {
    var id := a.mem.saved.pending[0];
    assert Stores(a.disk.proposals[id], a.built, id);
  }

  lemma FinalizeInv(c: Setup, a: World, header: Header, b: World, pasts: Pasts)
    requires Inv(c, a, pasts) && StepTo(c, a, Finalize(header), b)
    ensures Inv(c, b, pasts)
  {
    var s, n := a.mem.saved, |a.built|;
    assert s.pending[1..] == IdsOf(a.built)[n - |s.pending| + 1..];
  }

  lemma DeliverInv(c: Setup, a: World, r: Receipt, b: World, pasts: Pasts) returns (after: Pasts)
    requires Inv(c, a, pasts) && StepTo(c, a, Deliver(r), b)
    ensures Inv(c, b, after)
  {
    var st := a.mem.saved.manager.value;
    var step := Receive(c.h, c.cfg, st, r, c.clock, a.t);
    var past := DeliverKeeps(c, st, a.built, a.t, pasts.mem, pasts.memDelivered, r);
    ReceiveOut(c, st, r, a.t);
    after := pasts.(mem := past, memDelivered := pasts.memDelivered + {r});
    LaterSnapshot(c, a.disk.saved, a.built, a.t, step.t, pasts.disk, pasts.diskDelivered);
    SnapshotManaged(c, a.mem.saved, a.built, a.t, pasts.mem, pasts.memDelivered, step.st, step.t, past, after.memDelivered);
  }

  lemma CloseInv(c: Setup, a: World, b: World, pasts: Pasts) returns (after: Pasts)
    requires Inv(c, a, pasts) && StepTo(c, a, Event.Close, b)
    ensures Inv(c, b, after)
  {
    var st := a.mem.saved.manager.value;
    var step := TryClose(c.cfg, st, c.clock, a.t);
    var past := CloseKeeps(c, st, a.built, a.t, pasts.mem, pasts.memDelivered);
    CloseOut(c, st, a.t);
    after := pasts.(mem := past);
    LaterSnapshot(c, a.disk.saved, a.built, a.t, step.t, pasts.disk, pasts.diskDelivered);
    SnapshotManaged(c, a.mem.saved, a.built, a.t, pasts.mem, pasts.memDelivered, step.st, step.t, past, pasts.memDelivered);
  }

  /** A snapshot with another manager that has handed out the same windows. */
  lemma SnapshotManaged(
    c: Setup, s: Snapshot, built: seq<Proposal>, t: nat, past: Past, delivered: set<Receipt>, st: State, u: nat, after: Past, more: set<Receipt>)
    requires SnapshotOk(c, s, built, t, past, delivered) && ManagerOk(c, st, built, u, after, more)
    ensures SnapshotOk(c, s.(manager := Some(st)), built, u, after, more)
  {
  }

  lemma StartInv(c: Setup, a: World, cps: seq<Checkpoint>, st: State, b: World, pasts: Pasts)
    requires Inv(c, a, pasts) && StepTo(c, a, Start(cps, st), b)
    ensures Inv(c, b, pasts.(mem := InitialPast(cps), memDelivered := {}))
  {
    StartKeeps(c, a.mem.saved.bootstrap, cps, st, a.t);
  }

  lemma StepInv(c: Setup, a: World, e: Event, b: World, pasts: Pasts) returns (after: Pasts)
    requires Inv(c, a, pasts) && StepTo(c, a, e, b)
    ensures Inv(c, b, after)
  {
    after := pasts;
    match e {
      case Collect(r) =>
      case Start(cps, st) =>
        StartInv(c, a, cps, st, b, pasts);
        after := pasts.(mem := InitialPast(cps), memDelivered := {});
      case Deliver(r) =>
        after := DeliverInv(c, a, r, b, pasts);
      case Close =>
        after := CloseInv(c, a, b, pasts);
      case Drain(p) =>
        DrainInv(c, a, p, b, pasts);
        after := Pasts(pasts.mem, pasts.memDelivered, pasts.mem, pasts.memDelivered);
      case Save =>
        after := Pasts(pasts.mem, pasts.memDelivered, pasts.mem, pasts.memDelivered);
      case Dispatch =>
        DispatchInv(c, a, b, pasts);
      case Finalize(header) =>
        FinalizeInv(c, a, header, b, pasts);
      case Crash =>
        after := Pasts(pasts.disk, pasts.diskDelivered, pasts.disk, pasts.diskDelivered);
      case Idle =>
    }
  }

  // ---- over every run ----

  ghost predicate SolverRun(c: Setup, worlds: seq<World>, events: seq<Event>) {
    && |worlds| == |events| + 1 && Init(worlds[0]) && ValidConfig(c.cfg) && Ticking(c.clock)
    && forall i: nat :: i < |events| ==> StepAt(c, worlds, events, i)
  }

  ghost predicate StepAt(c: Setup, worlds: seq<World>, events: seq<Event>, i: nat)
    requires i < |events| && |worlds| == |events| + 1
  {
    StepTo(c, worlds[i], events[i], worlds[i + 1])
  }

  lemma InitInv(c: Setup, w: World) returns (pasts: Pasts)
    requires Init(w) && ValidConfig(c.cfg) && Ticking(c.clock)
    ensures Inv(c, w, pasts)
  {
    var none := InitialPast([]);
    pasts := Pasts(none, {}, none, {});
  }

  /** The pasts that explain a world. */
  ghost function Explanations(c: Setup, w: World): iset<Pasts> {
    iset pasts | Inv(c, w, pasts)
  }

  lemma FirstExplained(c: Setup, worlds: seq<World>, events: seq<Event>) returns (pasts: Pasts)
    requires SolverRun(c, worlds, events)
    ensures pasts in Explanations(c, worlds[0])
  {
    pasts := InitInv(c, worlds[0]);
  }

  lemma NextExplained(c: Setup, worlds: seq<World>, events: seq<Event>, i: nat, before: Pasts) returns (pasts: Pasts)
    requires SolverRun(c, worlds, events) && i < |events| && before in Explanations(c, worlds[i])
    ensures pasts in Explanations(c, worlds[i + 1])
  {
    assert StepAt(c, worlds, events, i);
    var a, e, b := worlds[i], events[i], worlds[i + 1];
    pasts := StepInv(c, a, e, b, before);
  }

  lemma {:induction false} RunExplained(c: Setup, worlds: seq<World>, events: seq<Event>, n: nat) returns (pasts: Pasts)
    requires SolverRun(c, worlds, events) && n < |worlds|
    ensures pasts in Explanations(c, worlds[n])
  {
    if n == 0 {
      pasts := FirstExplained(c, worlds, events);
    } else {
      var before := RunExplained(c, worlds, events, n - 1);
      pasts := NextExplained(c, worlds, events, n - 1, before);
    }
  }

  lemma RunInv(c: Setup, worlds: seq<World>, events: seq<Event>, n: nat) returns (pasts: Pasts)
    requires SolverRun(c, worlds, events) && n < |worlds|
    ensures Inv(c, worlds[n], pasts)
  {
    pasts := RunExplained(c, worlds, events, n);
  }

  /** Some snapshot has a manager once a batch is built: the persisted one. */
  lemma BuiltAtDisk(c: Setup, w: World, pasts: Pasts, i: nat)
    requires Inv(c, w, pasts) && i < |w.built|
    ensures w.disk.saved.manager.Some?
    ensures ManagerOk(c, w.disk.saved.manager.value, w.built, w.t, pasts.disk, pasts.diskDelivered)
  {
  }

  /** The batches of a run form one chain by hash and window number, from window 1 on. */
  lemma OneChain(c: Setup, worlds: seq<World>, events: seq<Event>, n: nat, i: nat)
    requires SolverRun(c, worlds, events) && n < |worlds|
    requires i < |worlds[n].built|
    ensures var header := worlds[n].built[i].header;
      header.windowId == i + 1 && header.previousBatchId == PreviousId(worlds[n].built, i) && HeaderDerived(c.h, header)
  {
    var w := worlds[n];
    var pasts := RunInv(c, worlds, events, n);
    BuiltAtDisk(c, w, pasts, i);
    ChainAt(c, w.disk.saved.manager.value, w.built, w.t, pasts.disk, pasts.diskDelivered, i);
  }

  /** Every dispatched proposal is the batch of its window in that chain. */
  lemma DispatchedInChain(c: Setup, worlds: seq<World>, events: seq<Event>, n: nat, k: nat)
    requires SolverRun(c, worlds, events) && n < |worlds|
    requires k < |worlds[n].log|
    ensures var p := worlds[n].log[k];
      1 <= p.header.windowId <= |worlds[n].built| && p == worlds[n].built[p.header.windowId - 1]
  {
    var w := worlds[n];
    var pasts := RunInv(c, worlds, events, n);
    assert w.log[k] in w.built;
    var i :| 0 <= i < |w.built| && w.built[i] == w.log[k];
    OneChain(c, worlds, events, n, i);
  }

  /** No window number is ever dispatched with two contents, however often the node crashed in between. */
  lemma OneContentPerWindow(c: Setup, worlds: seq<World>, events: seq<Event>, n: nat, k: nat, l: nat)
    requires SolverRun(c, worlds, events) && n < |worlds|
    requires k < |worlds[n].log| && l < |worlds[n].log|
    requires worlds[n].log[k].header.windowId == worlds[n].log[l].header.windowId
    ensures worlds[n].log[k] == worlds[n].log[l]
  {
    DispatchedInChain(c, worlds, events, n, k);
    DispatchedInChain(c, worlds, events, n, l);
  }

  lemma ChainDisjoint(
    c: Setup, st: State, built: seq<Proposal>, t: nat, past: Past, delivered: set<Receipt>, i: nat, j: nat,
    id: Hash)
    requires ManagerOk(c, st, built, t, past, delivered) && i < j < |built| && Consumes(built[i], id)
    ensures !Consumes(built[j], id)
  {
    if Consumes(built[j], id) {
      var p := ConsumedIntent(c.h, past, c.mode, built, i, id);
      var q := ConsumedIntent(c.h, past, c.mode, built, j, id);
      WindowsDisjoint(c.h, c.cfg, st, past, i, j, p, q);
    }
  }

  /** No intent is in two dispatched batches. */
  lemma NoIntentInTwoBatches(c: Setup, worlds: seq<World>, events: seq<Event>, n: nat, k: nat, l: nat, id: Hash)
    requires SolverRun(c, worlds, events) && n < |worlds|
    requires k < |worlds[n].log| && l < |worlds[n].log| && Consumes(worlds[n].log[k], id)
    requires Consumes(worlds[n].log[l], id)
    ensures worlds[n].log[k] == worlds[n].log[l]
  {
    var w := worlds[n];
    DispatchedInChain(c, worlds, events, n, k);
    DispatchedInChain(c, worlds, events, n, l);
    var i, j := w.log[k].header.windowId - 1, w.log[l].header.windowId - 1;
    var pasts := RunInv(c, worlds, events, n);
    BuiltAtDisk(c, w, pasts, i);
    var st := w.disk.saved.manager.value;
    if i < j {
      ChainDisjoint(c, st, w.built, w.t, pasts.disk, pasts.diskDelivered, i, j, id);
    } else if j < i {
      ChainDisjoint(c, st, w.built, w.t, pasts.disk, pasts.diskDelivered, j, i, id);
    }
  }

  /** Every pending identifier, in memory or persisted, has its proposal in the store, so dispatch always finds it. */
  lemma PendingIsStored(c: Setup, worlds: seq<World>, events: seq<Event>, n: nat, id: Hash)
    requires SolverRun(c, worlds, events) && n < |worlds|
    requires id in worlds[n].mem.saved.pending || id in worlds[n].disk.saved.pending
    ensures id in worlds[n].disk.proposals && worlds[n].disk.proposals[id].header.batchId == id
    ensures worlds[n].disk.proposals[id] in worlds[n].built
  {
    var w := worlds[n];
    var pasts := RunInv(c, worlds, events, n);
    var s := if id in w.mem.saved.pending then w.mem.saved else w.disk.saved;
    var k :| 0 <= k < |s.pending| && s.pending[k] == id;
    var i := |w.built| - |s.pending| + k;
    assert IdsOf(w.built)[i] == id && w.built[i] in w.built;
    assert Stores(w.disk.proposals[id], w.built, id);
  }

  /** Whatever was persisted is accepted by Restore: a crash never leaves the node unable to start. */
  lemma RestoreSucceeds(c: Setup, worlds: seq<World>, events: seq<Event>, n: nat)
    requires SolverRun(c, worlds, events) && n < |worlds|
    requires worlds[n].disk.saved.manager.Some?
    ensures ValidState(c.h, c.cfg, worlds[n].disk.saved.manager.value)
  {
    var pasts := RunInv(c, worlds, events, n);
    RepresentedIsValid(c.h, c.cfg, worlds[n].disk.saved.manager.value, pasts.disk);
  }

  /** Each dispatched batch whose window is unexpired is accepted by a Beacon that has committed the batches before it. */
  lemma DispatchedAccepted(
    c: Setup, worlds: seq<World>, events: seq<Event>, n: nat, k: nat, tip: Option<MatchRootBlock>, consumed: set<Hash>)
    requires SolverRun(c, worlds, events) && n < |worlds|
    requires k < |worlds[n].log| && 1 <= worlds[n].log[k].header.windowId <= |worlds[n].built|
    requires BeaconAfter(worlds[n].built, worlds[n].log[k].header.windowId - 1, tip, consumed)
    requires BatchInTime(worlds[n].log[k])
    ensures Accepts(c.h, tip, consumed, worlds[n].log[k])
  {
    var w := worlds[n];
    DispatchedInChain(c, worlds, events, n, k);
    var i := w.log[k].header.windowId - 1;
    var pasts := RunInv(c, worlds, events, n);
    BuiltAtDisk(c, w, pasts, i);
    BatchAccepted(c, w.disk.saved.manager.value, w.built, w.t, pasts.disk, pasts.diskDelivered, i, tip, consumed);
  }

  lemma BatchAccepted(
    c: Setup, st: State, built: seq<Proposal>, t: nat, past: Past, delivered: set<Receipt>, i: nat, tip: Option<MatchRootBlock>, consumed: set<Hash>)
    requires ManagerOk(c, st, built, t, past, delivered) && i < |built| && BeaconAfter(built, i, tip, consumed)
    requires BatchInTime(built[i])
    ensures Accepts(c.h, tip, consumed, built[i])
  {
    ChainAt(c, st, built, t, past, delivered, i);
    BatchUnexpired(c, st, built, t, past, delivered, i);
    SolverBatchAccepted(c.h, c.cfg, st, past, c.mode, built, i, tip, consumed);
  }

  /** No intent of the batch is expired at the highest epoch of its receipts. */
  ghost predicate BatchInTime(p: Proposal) {
    forall r :: r in p.sidecar.intentResults ==> r.intent.expiryEpoch > AcceptanceEpoch(p.sidecar.finalizedBlocks)
  }

  lemma BatchUnexpired(c: Setup, st: State, built: seq<Proposal>, t: nat, past: Past, delivered: set<Receipt>, i: nat)
    requires ManagerOk(c, st, built, t, past, delivered) && i < |built|
    requires BatchInTime(built[i])
    ensures Unexpired(past.history[i])
  {
    assert BuiltAt(c.h, past, c.mode, built, i);
    var w := FrozenOf(past.history[i]);
    P.BuiltDerived(c.h, w, PreviousId(built, i), c.mode);
    P.ResultsAbout(c.h, w, c.mode);
    forall p | p in past.history[i].intents ensures p.expiryEpoch > AcceptanceEpoch(past.history[i].receipts) {
      var rs := B.ResultsFor(c.h, w, c.mode);
      var k :| 0 <= k < |rs| && rs[k].intent == p;
      assert rs[k] in built[i].sidecar.intentResults;
    }
  }
}
