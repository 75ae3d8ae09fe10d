/**
 * The Solver node (pkg/netting/solver/node.go) as it runs: every handler is a run of the machine's steps, whether it
 * succeeds or stops at an error, so what holds of every run holds of the node.
 */
module SolverNode {
  import opened Base
  import opened ByteStrings
  import opened Model
  import opened Sorting
  import opened Windows
  import opened WindowSeal
  import opened WindowStates
  import opened WindowRun
  import opened WindowOrder
  import opened WindowManager
  import opened Packages
  import opened PackageBuilding
  import opened SolverToBeacon
  import opened Solver
  import opened SolverProofs
  import B = Builder

  // ---- recording steps ----

  /** Where a step may lead. */
  ghost function Nexts(c: Setup, a: World, e: Event): iset<World> {
    iset b | StepTo(c, a, e, b)
  }

  lemma StepIn(c: Setup, a: World, e: Event, b: World)
    requires StepTo(c, a, e, b)
    ensures b in Nexts(c, a, e)
  {
  }

  lemma RunSnoc(c: Setup, worlds: seq<World>, events: seq<Event>, e: Event, w: World)
    requires SolverRun(c, worlds, events) && w in Nexts(c, worlds[|worlds| - 1], e)
    ensures SolverRun(c, worlds + [w], events + [e])
  {
    var ws, es := worlds + [w], events + [e];
    forall i: nat | i < |es| ensures StepAt(c, ws, es, i) {
      if i < |events| {
        assert StepAt(c, worlds, events, i);
      }
    }
  }

  // ---- bootstrap ----

  /** Receipts collected before the manager exists: of known shards, at representable heights. */
  ghost predicate Gathered(c: Setup, b: Bootstrap) {
    forall s :: s in b ==> 0 <= s < c.cfg.shardCount && b[s] != [] && HeightsFit(b[s])
  }

  ghost predicate HeightsFit(rs: seq<Receipt>) {
    forall i :: 0 <= i < |rs| ==> rs[i].height < TWO_64 - 1
  }

  function Shards(n: nat): set<int> {
    if n == 0 then {} else Shards(n - 1) + {n - 1}
  }

  lemma {:induction false} ShardsSize(n: nat)
    ensures |Shards(n)| == n && forall s :: s in Shards(n) <==> 0 <= s < n
  {
    if n > 0 {
      ShardsSize(n - 1);
    }
  }

  /** A full bootstrap holds receipts of every shard. */
  lemma AllGathered(c: Setup, b: Bootstrap, s: Int64)
    requires Gathered(c, b) && |b| == c.cfg.shardCount && 0 <= s < c.cfg.shardCount
    ensures s in b
  {
    var keys: set<int>, all := b.Keys, Shards(c.cfg.shardCount);
    ShardsSize(c.cfg.shardCount);
    assert keys <= all;
    SameSizeSubset(keys, all);
    assert s in all;
  }

  /** The receipt sort.Slice puts first. */
  method Lowest(rs: seq<Receipt>) returns (i: nat)
    requires rs != []
    ensures i < |rs| && LowestAt(rs, i)
  {
    i := 0;
    for k := 1 to |rs|
      invariant i < k <= |rs| && forall j :: 0 <= j < k ==> rs[i].height <= rs[j].height
    {
      if rs[k].height < rs[i].height {
        i := k;
      }
    }
  }

  /** Bootstrap receipts are delivered by height, then by shard. */
  function DeliveryRank(n: nat): Receipt -> int {
    (r: Receipt) => r.height * n + r.shardId
  }

  lemma StartsFrom(c: Setup, b: Bootstrap, checkpoints: map<int, Checkpoint>)
    requires c.cfg.shardCount >= 0 && forall s :: s in checkpoints <==> 0 <= s < c.cfg.shardCount
    requires forall s: Int64 :: 0 <= s < c.cfg.shardCount ==> s in b && FirstOf(b[s], checkpoints[s])
    ensures Starts(c, b, Listed(c.cfg.shardCount, checkpoints))
  {
  }

  // ---- the steps, one lemma each ----

  /** The manager of a snapshot is one a node runs. */
  ghost predicate Live(c: Setup, st: State) {
    HasShards(c.cfg, st) && OnlyShards(c.cfg, st) && c.cfg.shardCount >= 0
  }

  lemma BetweenLive(c: Setup, st: State, past: Past, t: nat, delivered: set<Receipt>)
    requires past in PastsOf(c.h, c.cfg, c.clock, delivered, st, t)
    ensures Live(c, st)
  {
  }

  lemma DeliverStep(c: Setup, a: World, r: Receipt, next: State, t: nat)
    requires a.mem.saved.manager.Some? && Live(c, a.mem.saved.manager.value) && r.height < TWO_64 - 1
    requires var step := Receive(c.h, c.cfg, a.mem.saved.manager.value, r, c.clock, a.t); step.st == next && step.t == t
    ensures WithManager(a, next, t) in Nexts(c, a, Deliver(r))
  {
  }

  lemma CloseStep(c: Setup, a: World, next: State, t: nat)
    requires a.mem.saved.manager.Some? && Live(c, a.mem.saved.manager.value)
    requires var step := TryClose(c.cfg, a.mem.saved.manager.value, c.clock, a.t); step.st == next && step.t == t
    ensures WithManager(a, next, t) in Nexts(c, a, Event.Close)
  {
  }

  lemma StartStep(c: Setup, a: World, cps: seq<Checkpoint>, st: State)
    requires a.mem.saved.manager.None? && Starts(c, a.mem.saved.bootstrap, cps) && InitialState(c.cfg, cps, st)
    ensures a.(mem := a.mem.(saved := a.mem.saved.(manager := Some(st), bootstrap := map[]))) in Nexts(c, a, Start(cps, st))
  {
  }

  function AfterDrainStep(a: World, p: Proposal): World
    requires a.mem.saved.manager.Some? && a.mem.saved.manager.value.frozen != []
  {
    var s := AfterDrain(a.mem.saved, p);
    a.(mem := a.mem.(saved := s), disk := Disk(s, a.disk.proposals[p.header.batchId := p]), built := a.built + [p])
  }

  lemma DrainStep(c: Setup, a: World, p: Proposal)
    requires var m := a.mem.saved.manager;
      && m.Some? && m.value.frozen != [] && Fits(m.value.frozen[0])
      && p in BatchesFrom(c.h, m.value.frozen[0], a.mem.saved.chainTip, c.mode)
    ensures AfterDrainStep(a, p) in Nexts(c, a, Drain(p))
  {
    DrainSteps(c, a, p);
    StepIn(c, a, Drain(p), AfterDrainStep(a, p));
  }

  lemma DrainSteps(c: Setup, a: World, p: Proposal)
    requires var m := a.mem.saved.manager;
      && m.Some? && m.value.frozen != [] && Fits(m.value.frozen[0])
      && p in BatchesFrom(c.h, m.value.frozen[0], a.mem.saved.chainTip, c.mode)
    ensures StepTo(c, a, Drain(p), AfterDrainStep(a, p))
  {
  }

  /** What the persisted snapshot is worth: its manager is accepted by Restore and true to a past. */
  lemma Restorable(c: Setup, worlds: seq<World>, events: seq<Event>) returns (past: Past, delivered: set<Receipt>)
    requires SolverRun(c, worlds, events) && worlds[|worlds| - 1].disk.saved.manager.Some?
    ensures var w := worlds[|worlds| - 1];
      && past in PastsOf(c.h, c.cfg, c.clock, delivered, w.disk.saved.manager.value, w.t)
      && ValidConfig(c.cfg) && ValidState(c.h, c.cfg, w.disk.saved.manager.value)
  {
    var pasts := RunInv(c, worlds, events, |worlds| - 1);
    RestoreSucceeds(c, worlds, events, |worlds| - 1);
    past, delivered := pasts.disk, pasts.diskDelivered;
  }

  class Process {
    const c: Setup
    const clock: Clock
    var manager: Manager?
    var bootstrap: Bootstrap
    var chainTip: Hash
    var pending: seq<Hash>
    var dispatched: set<Hash>
    var disk: Disk
    ghost var built: seq<Proposal>
    ghost var log: seq<Proposal>
    ghost var worlds: seq<World>
    ghost var events: seq<Event>

    /** What snapshot returns. */
    ghost function Saved(): Snapshot
      reads this, manager
    {
      Snapshot(if manager == null then None else Some(manager.View()), bootstrap, chainTip, pending)
    }

    ghost function Now(): World
      reads this, manager, clock
    {
      World(Node(Saved(), dispatched), disk, built, log, clock.t)
    }

    /** The manager belongs to this node and is true to its own past. */
    ghost predicate Owns(m: Manager)
      reads m, clock
    {
      m.h == c.h && m.cfg == c.cfg && m.clock == clock && c.clock == clock.at && m.past in PastsOf(c.h, c.cfg, c.clock, m.delivered, m.View(), clock.t)
    }

    /** The node's history is a run of the machine, and the node is where that run has come to. */
    ghost predicate Valid()
      reads this, manager, clock
    {
      && c.clock == clock.at && (manager != null ==> Owns(manager)) && Recorded() && worlds[|worlds| - 1] == Now()
      && Gathered(c, bootstrap) && Gathered(c, disk.saved.bootstrap)
    }

    ghost predicate Recorded()
      reads this
    {
      SolverRun(c, worlds, events)
    }

    /** One more step of the history. */
    ghost method Record(e: Event)
      requires Recorded() && Now() in Nexts(c, worlds[|worlds| - 1], e)
      modifies this`worlds, this`events
      ensures Recorded() && worlds == old(worlds) + [Now()] && events == old(events) + [e]
    {
      RunSnoc(c, worlds, events, e, Now());
      worlds, events := worlds + [Now()], events + [e];
    }

    /** A node whose store is empty. */
    constructor (c: Setup, clock: Clock)
      requires ValidConfig(c.cfg) && Ticking(c.clock) && c.clock == clock.at
      ensures Valid() && this.c == c && this.clock == clock && manager == null && Init(Now())
    {
      this.c, this.clock, manager := c, clock, null;
      bootstrap, chainTip, pending, dispatched := map[], 0, [], {};
      disk := Disk(Snapshot(None, map[], 0, []), map[]);
      built, log := [], [];
      new;
      worlds, events := [Now()], [];
    }

    method TakeSnapshot() returns (s: Snapshot)
      ensures s == Saved()
    {
      if manager == null {
        s := Snapshot(None, bootstrap, chainTip, pending);
      } else {
        var st := manager.Snapshot();
        s := Snapshot(Some(st), bootstrap, chainTip, pending);
      }
    }

    /** SaveState. */
    method Save()
      requires Valid()
      modifies this`disk, this`worlds, this`events
      ensures Valid() && disk == Disk(Saved(), old(disk).proposals) && Follows(old(worlds), old(events))
    {
      var s := TakeSnapshot();
      disk := disk.(saved := s);
      Record(Event.Save);
    }

    /** The history was only added to. */
    ghost predicate Follows(ws: seq<World>, es: seq<Event>)
      reads this
    {
      ws <= worlds && es <= events
    }

    /** A receipt for the manager. */
    method Add(r: Receipt) returns (err: Option<Error>)
      requires Valid() && manager != null && r.height < TWO_64 - 1
      modifies this`worlds, this`events, manager, clock
      ensures Valid() && manager == old(manager) && Follows(old(worlds), old(events))
    {
      ghost var a := Now();
      BetweenLive(c, manager.View(), manager.past, clock.t, manager.delivered);
      var window;
      window, err := manager.AddReceipt(r);
      DeliverStep(c, a, r, manager.View(), clock.t);
      assert Now() == WithManager(a, manager.View(), clock.t);
      Record(Deliver(r));
    }

    // ---- HandleReceipt ----

    method Collect(r: Receipt)
      requires Valid() && manager == null && 0 <= r.shardId < c.cfg.shardCount && r.height < TWO_64 - 1
      modifies this`bootstrap, this`worlds, this`events
      ensures Valid() && bootstrap == Collected(old(bootstrap), r) && Follows(old(worlds), old(events))
    {
      bootstrap := bootstrap[r.shardId := (if r.shardId in bootstrap then bootstrap[r.shardId] else []) + [r]];
      Record(Event.Collect(r));
    }

    /** The first half of initializeManager: a checkpoint below the first receipt of every shard. */
    method Checkpoints() returns (ok: bool, checkpoints: map<int, Checkpoint>, all: seq<Receipt>)
      requires Gathered(c, bootstrap) && |bootstrap| == c.cfg.shardCount
      ensures ok ==> (forall s :: s in checkpoints <==> 0 <= s < c.cfg.shardCount) && HeightsFit(all)
      ensures ok ==> forall s: Int64 :: 0 <= s < c.cfg.shardCount ==> s in bootstrap && FirstOf(bootstrap[s], checkpoints[s])
    {
      checkpoints, all := map[], [];
      for s := 0 to c.cfg.shardCount
        invariant (forall u :: u in checkpoints <==> 0 <= u < s) && HeightsFit(all)
        invariant forall u: Int64 :: 0 <= u < s ==> u in bootstrap && FirstOf(bootstrap[u], checkpoints[u])
      {
        AllGathered(c, bootstrap, s);
        var receipts := bootstrap[s];
        var i := Lowest(receipts);
        if receipts[i].height == 0 {
          return false, checkpoints, all;
        }
        checkpoints := checkpoints[s := Checkpoint(receipts[i].height - 1, receipts[i].parentHash)];
        all := all + receipts;
      }
      ok := true;
    }

    /** The manager above the checkpoints. */
    method MakeManager(checkpoints: map<int, Checkpoint>) returns (r: Result<Manager>)
      requires c.clock == clock.at && ValidConfig(c.cfg) && Ticking(c.clock)
      requires forall s :: s in checkpoints <==> 0 <= s < c.cfg.shardCount
      requires forall s: Int64 :: 0 <= s < c.cfg.shardCount ==> s in bootstrap && FirstOf(bootstrap[s], checkpoints[s])
      ensures r.Ok? ==> fresh(r.value) && Owns(r.value) && Starts(c, bootstrap, Listed(c.cfg.shardCount, checkpoints))
      ensures r.Ok? ==> InitialState(c.cfg, Listed(c.cfg.shardCount, checkpoints), r.value.View())
    {
      StartsFrom(c, bootstrap, checkpoints);
      r := New(c.h, c.cfg, clock, checkpoints);
    }

    method InitializeManager() returns (err: Option<Error>)
      requires Valid() && manager == null && |bootstrap| == c.cfg.shardCount
      modifies this`manager, this`bootstrap, this`worlds, this`events, clock
      ensures Valid() && Follows(old(worlds), old(events)) && (manager != null ==> fresh(manager))
    {
      var ok, checkpoints, all := Checkpoints();
      if !ok {
        return Some(InvalidReceipt);
      }
      err := StartManager(checkpoints);
      if err.Some? {
        return;
      }
      all := SortReceipts(all);
      err := AddAll(all);
    }

    method StartManager(checkpoints: map<int, Checkpoint>) returns (err: Option<Error>)
      requires Valid() && manager == null && forall s :: s in checkpoints <==> 0 <= s < c.cfg.shardCount
      requires forall s: Int64 :: 0 <= s < c.cfg.shardCount ==> s in bootstrap && FirstOf(bootstrap[s], checkpoints[s])
      modifies this`manager, this`bootstrap, this`worlds, this`events
      ensures Valid() && Follows(old(worlds), old(events)) && (manager != null ==> fresh(manager)) && (err.None? ==> manager != null)
    {
      var made := MakeManager(checkpoints);
      if made.Err? {
        return Some(made.error);
      }
      Begin(made.value, checkpoints);
      err := None;
    }

    method SortReceipts(all: seq<Receipt>) returns (sorted: seq<Receipt>)
      requires HeightsFit(all) && c.cfg.shardCount >= 0
      ensures HeightsFit(sorted) && multiset(sorted) == multiset(all)
    {
      sorted := SortBy(all, DeliveryRank(c.cfg.shardCount));
      SortByProperties(all, DeliveryRank(c.cfg.shardCount));
      SameElements(sorted, all);
      forall i | 0 <= i < |sorted| ensures sorted[i].height < TWO_64 - 1 {
        assert sorted[i] in all;
      }
    }

    /** The new manager takes the place of the collected receipts. */
    method Begin(m: Manager, ghost checkpoints: map<int, Checkpoint>)
      requires Valid() && manager == null && Owns(m) && (forall s :: 0 <= s < c.cfg.shardCount ==> s in checkpoints)
      requires c.cfg.shardCount >= 0
      requires Starts(c, bootstrap, Listed(c.cfg.shardCount, checkpoints))
      requires InitialState(c.cfg, Listed(c.cfg.shardCount, checkpoints), m.View())
      modifies this`manager, this`bootstrap, this`worlds, this`events
      ensures Valid() && manager == m && Follows(old(worlds), old(events))
    {
      StartStep(c, Now(), Listed(c.cfg.shardCount, checkpoints), m.View());
      manager, bootstrap := m, map[];
      Record(Start(Listed(c.cfg.shardCount, checkpoints), m.View()));
    }

    method AddAll(all: seq<Receipt>) returns (err: Option<Error>)
      requires Valid() && manager != null && HeightsFit(all)
      modifies this`worlds, this`events, manager, clock
      ensures Valid() && manager == old(manager) && Follows(old(worlds), old(events))
    {
      for i := 0 to |all|
        invariant Valid() && manager == old(manager) && Follows(old(worlds), old(events))
      {
        var failed := Add(all[i]);
        if failed.Some? {
          return failed;
        }
      }
      err := None;
    }

    /** A receipt of a shard leader; whatever the outcome, the node has taken steps of the machine. */
    method HandleReceipt(nodeId: int, r: Receipt) returns (err: Option<Error>)
      requires Valid() && r.height < TWO_64 - 1
      modifies this, manager, clock
      ensures Valid() && Follows(old(worlds), old(events))
      ensures nodeId != 0 ==> err == Some(InvalidReceiptNode) && worlds == old(worlds)
      ensures nodeId == 0 && !(0 <= r.shardId < c.cfg.shardCount) ==> err == Some(InvalidReceiptShard) && worlds == old(worlds)
      ensures err.None? ==> disk.saved == Saved()
    {
      if nodeId != 0 {
        return Some(InvalidReceiptNode);
      }
      if r.shardId < 0 || r.shardId >= c.cfg.shardCount {
        return Some(InvalidReceiptShard);
      }
      if manager == null {
        err := Gather(r);
      } else {
        err := Add(r);
      }
      if err.Some? {
        return;
      }
      err := DrainFrozen();
      if err.Some? {
        return;
      }
      Save();
    }

    method Gather(r: Receipt) returns (err: Option<Error>)
      requires Valid() && manager == null && 0 <= r.shardId < c.cfg.shardCount && r.height < TWO_64 - 1
      modifies this`manager, this`bootstrap, this`worlds, this`events, clock
      ensures Valid() && Follows(old(worlds), old(events)) && (manager != null ==> fresh(manager))
    {
      Collect(r);
      err := None;
      if |bootstrap| == c.cfg.shardCount {
        err := InitializeManager();
      }
    }

    // ---- drainFrozen ----

    /** The oldest frozen window becomes a batch, which is stored with the state that has handed the window out. */
    method Drain(window: FrozenWindow, p: Proposal)
      requires Valid() && manager != null && manager.frozen != [] && window == manager.frozen[0] && Fits(window)
      requires p in BatchesFrom(c.h, window, chainTip, c.mode)
      modifies this`chainTip, this`pending, this`disk, this`built, this`worlds, this`events, manager`frozen
      ensures Valid() && manager == old(manager) && manager.frozen == old(manager.frozen)[1..] && Follows(old(worlds), old(events))
    {
      DrainNow(window, p);
      Record(Event.Drain(p));
    }

    method DrainNow(window: FrozenWindow, p: Proposal)
      requires manager != null && Owns(manager) && manager.frozen != [] && window == manager.frozen[0] && Fits(window)
      requires p in BatchesFrom(c.h, window, chainTip, c.mode)
      modifies this`chainTip, this`pending, this`disk, this`built, manager`frozen
      ensures Owns(manager) && manager.frozen == old(manager.frozen)[1..] && disk.saved.bootstrap == bootstrap
      ensures Now() in Nexts(c, old(Now()), Event.Drain(p))
    {
      DrainStep(c, Now(), p);
      AcknowledgeAndPut(window, p);
    }

    method AcknowledgeAndPut(window: FrozenWindow, p: Proposal)
      requires manager != null && Owns(manager) && manager.frozen != [] && window == manager.frozen[0]
      modifies this`chainTip, this`pending, this`disk, this`built, manager`frozen
      ensures Owns(manager) && manager.frozen == old(manager.frozen)[1..] && disk.saved.bootstrap == bootstrap
      ensures Now() == AfterDrainStep(old(Now()), p)
    {
      ghost var left := manager.View().(frozen := manager.frozen[1..]);
      var failed := Acknowledge(window.windowId);
      Put(p, left);
    }

    /** PutProposalAndState, after the chain tip and the queue of pending batches are set. */
    method Put(p: Proposal, ghost left: State)
      requires manager != null && manager.View() == left
      modifies this`chainTip, this`pending, this`disk, this`built
      ensures chainTip == p.header.batchId && pending == old(pending) + [p.header.batchId] && built == old(built) + [p]
      ensures Saved() == Snapshot(Some(left), bootstrap, p.header.batchId, old(pending) + [p.header.batchId])
      ensures disk == Disk(Saved(), old(disk).proposals[p.header.batchId := p])
    {
      chainTip := p.header.batchId;
      pending := pending + [p.header.batchId];
      var s := TakeSnapshot();
      disk := Disk(s, disk.proposals[p.header.batchId := p]);
      built := built + [p];
    }

    method Acknowledge(windowId: nat) returns (failed: Option<Error>)
      requires manager != null && Owns(manager) && manager.frozen != [] && manager.frozen[0].windowId == windowId
      modifies manager`frozen
      ensures failed == None && Owns(manager) && manager.View() == old(manager.View()).(frozen := old(manager.frozen)[1..])
    {
      failed := manager.AcknowledgeFrozen(windowId);
    }

    /** drainFrozen: windows are built in the order they were sealed, until one does not build or none is left. */
    method DrainFrozen() returns (err: Option<Error>)
      requires Valid()
      modifies this`chainTip, this`pending, this`disk, this`built, this`worlds, this`events, manager
      ensures Valid() && manager == old(manager) && Follows(old(worlds), old(events))
      ensures err.None? && manager != null ==> manager.frozen == []
    {
      if manager == null {
        return None;
      }
      while true
        invariant Valid() && manager == old(manager) && manager != null && Follows(old(worlds), old(events))
        decreases |manager.frozen|
      {
        var window := manager.PeekFrozen();
        if window.None? {
          return None;
        }
        if !Fits(window.value) {
          return Some(InvalidState);
        }
        var p := BuildWindow(window.value);
        if p.Err? {
          return Some(p.error);
        }
        Drain(window.value, p.value);
      }
    }

    method BuildWindow(window: FrozenWindow) returns (p: Result<Proposal>)
      requires Fits(window)
      ensures p.Ok? ==> p.value in BatchesFrom(c.h, window, chainTip, c.mode)
    {
      p := B.BuildBatch(c.h, FrozenOf(window), chainTip, c.mode);
    }

    // ---- dispatchPending, HandleFinalized, ticks ----

    method GetProposal(id: Hash) returns (r: Result<Proposal>)
      ensures r == if id in disk.proposals then Ok(disk.proposals[id]) else Err(ProposalNotFound)
    {
      r := if id in disk.proposals then Ok(disk.proposals[id]) else Err(ProposalNotFound);
    }

    /** The oldest unfinalized batch is sent to the Beacon once per life of the process; its proposal is always found. */
    method DispatchPending() returns (err: Option<Error>, sent: Option<Proposal>)
      requires Valid()
      modifies this`dispatched, this`log, this`worlds, this`events
      ensures Valid() && err == None && Follows(old(worlds), old(events))
      ensures sent.Some? <==> pending != [] && pending[0] !in old(dispatched)
      ensures sent.Some? ==> sent.value.header.batchId == pending[0] && log == old(log) + [sent.value]
    {
      err, sent := None, None;
      if |pending| == 0 || pending[0] in dispatched {
        return;
      }
      PendingIsStored(c, worlds, events, |worlds| - 1, pending[0]);
      var p := GetProposal(pending[0]);
      if p.Err? {
        return Some(ProposalNotFound), None;
      }
      dispatched := dispatched + {pending[0]};
      log := log + [p.value];
      sent := Some(p.value);
      Record(Event.Dispatch);
    }

    /** The settlement packages of the finalized batch are sent, and the batch is no longer pending. */
    method HandleFinalized(nodeId: int, header: Header) returns (err: Option<Error>, sent: seq<Package>)
      requires Valid()
      modifies this`pending, this`dispatched, this`disk, this`worlds, this`events
      ensures Valid() && Follows(old(worlds), old(events))
      ensures err.None? ==> old(pending) != [] && old(pending)[0] == header.batchId && pending == old(pending)[1..] && disk.saved == Saved()
      ensures err.Some? ==> pending == old(pending) && dispatched == old(dispatched) && disk == old(disk)
    {
      sent := [];
      if nodeId != 0 {
        return Some(NotFromBeacon), sent;
      }
      if |pending| == 0 || pending[0] != header.batchId {
        return Some(UnexpectedBatch), sent;
      }
      var p := GetProposal(header.batchId);
      if p.Err? {
        return Some(ProposalNotFound), sent;
      }
      if p.value.header.batchId != header.batchId || p.value.header.matchRoot != header.matchRoot {
        return Some(HeaderMismatch), sent;
      }
      if |p.value.sidecar.shardSettlements| >= TWO_32 {
        return Some(InvalidSettlement), sent;
      }
      var packs, ids := BuildSettlementPackages(c.h, p.value);
      if packs.Err? {
        return Some(packs.error), sent;
      }
      sent := packs.value;
      Finalize(header);
      Save();
      err := None;
    }

    method Finalize(header: Header)
      requires Valid() && pending != [] && pending[0] == header.batchId && header.batchId in disk.proposals
      requires disk.proposals[header.batchId].header.matchRoot == header.matchRoot
      modifies this`pending, this`dispatched, this`worlds, this`events
      ensures Valid() && pending == old(pending)[1..] && Follows(old(worlds), old(events))
    {
      pending, dispatched := pending[1..], dispatched - {header.batchId};
      Record(Event.Finalize(header));
    }

    /** The part of Step after the messages. */
    method Tick() returns (err: Option<Error>, sent: Option<Proposal>)
      requires Valid()
      modifies this`chainTip, this`pending, this`disk, this`built, this`dispatched, this`log, this`worlds, this`events, manager, clock
      ensures Valid() && manager == old(manager) && Follows(old(worlds), old(events))
    {
      sent := None;
      if manager != null {
        CloseWindow();
        err := DrainFrozen();
        if err.Some? {
          return;
        }
      }
      err, sent := DispatchPending();
    }

    method CloseWindow()
      requires Valid() && manager != null
      modifies this`worlds, this`events, manager, clock
      ensures Valid() && manager == old(manager) && Follows(old(worlds), old(events))
    {
      ghost var a := Now();
      BetweenLive(c, manager.View(), manager.past, clock.t, manager.delivered);
      var window := manager.Close();
      CloseStep(c, a, manager.View(), clock.t);
      assert Now() == WithManager(a, manager.View(), clock.t);
      Record(Event.Close);
    }

    // ---- restart ----

    /** The manager of the store, which Restore always accepts. */
    method RestoreManager(st: State) returns (r: Result<Manager>)
      requires Recorded() && c.clock == clock.at && worlds[|worlds| - 1].disk.saved.manager == Some(st)
      requires worlds[|worlds| - 1].t == clock.t
      ensures r.Ok? && fresh(r.value) && Owns(r.value) && r.value.View() == st
    {
      ghost var past, delivered := Restorable(c, worlds, events);
      r := Restore(c.h, c.cfg, clock, st, past, delivered);
    }

    /** The process dies and starts again from its store: restore always succeeds, and the node goes on with its run. */
    method Restart() returns (err: Option<Error>)
      requires Valid()
      modifies this`manager, this`bootstrap, this`chainTip, this`pending, this`dispatched, this`worlds, this`events
      ensures err == None && Valid() && Saved() == disk.saved && dispatched == {} && disk == old(disk) && Follows(old(worlds), old(events))
    {
      var m: Manager? := null;
      if disk.saved.manager.Some? {
        var restored := RestoreManager(disk.saved.manager.value);
        if restored.Err? {
          return Some(InvalidState);
        }
        m := restored.value;
      }
      Reload(m);
      err := None;
    }

    method Reload(m: Manager?)
      requires Valid() && (m != null ==> Owns(m)) && disk.saved.manager == (if m == null then None else Some(m.View()))
      modifies this`manager, this`bootstrap, this`chainTip, this`pending, this`dispatched, this`worlds, this`events
      ensures Valid() && manager == m && Saved() == disk.saved && dispatched == {} && Follows(old(worlds), old(events))
    {
      var s := disk.saved;
      manager, bootstrap, chainTip, pending, dispatched := m, s.bootstrap, s.chainTip, s.pending, {};
      Record(Event.Crash);
    }
  }

  /**
   * After any handlers, ticks and restarts: every proposal the node has sent is the batch of its window in one chain by
   * hash and window number, and no window number was sent with two contents.
   */
  lemma SentInOneChain(n: Process, k: nat, l: nat)
    requires n.Valid() && k < |n.log| && l < |n.log|
    ensures var p := n.log[k]; 1 <= p.header.windowId <= |n.built| && p == n.built[p.header.windowId - 1]
    ensures n.log[k].header.previousBatchId == PreviousId(n.built, n.log[k].header.windowId - 1)
    ensures n.log[k].header.windowId == n.log[l].header.windowId ==> n.log[k] == n.log[l]
  {
    var last := |n.worlds| - 1;
    DispatchedInChain(n.c, n.worlds, n.events, last, k);
    OneChain(n.c, n.worlds, n.events, last, n.log[k].header.windowId - 1);
    if n.log[k].header.windowId == n.log[l].header.windowId {
      OneContentPerWindow(n.c, n.worlds, n.events, last, k, l);
    }
  }
}
