/**
 * The Solver node (pkg/netting/solver/node.go) as a machine of steps over its memory and its store, with crashes that
 * restore the last persisted state: the batches it dispatches form one chain, whatever happens in between.
 */
module Solver {
  import opened Base
  import opened ByteStrings
  import opened Model
  import opened Windows
  import WindowSteps
  import opened WindowSeal
  import opened WindowStates
  import opened WindowRun
  import opened WindowOrder
  import opened WindowManager
  import opened Packages
  import opened Beacon
  import opened BeaconStore
  import opened SolverToBeacon
  import B = Builder
  import P = BuilderProofs

  datatype Setup = Setup(h: Hasher, cfg: Config, mode: string, clock: Readings)

  type Bootstrap = map<Int64, seq<Receipt>>

  /** What SaveState persists. */
  datatype Snapshot = Snapshot(manager: Option<State>, bootstrap: Bootstrap, chainTip: Hash, pending: seq<Hash>)

  /** What a node holds in memory: the snapshot's fields, and which batches it has sent since it started. */
  datatype Node = Node(saved: Snapshot, dispatched: set<Hash>)

  /** The store: the last persisted snapshot, and every proposal by its identifier. */
  datatype Disk = Disk(saved: Snapshot, proposals: map<Hash, Proposal>)

  /**
   * Memory, store and clock readings taken so far. `built` lists every proposal in the order it was stored and `log`
   * every proposal sent to the Beacon: both only observe.
   */
  datatype World = World(mem: Node, disk: Disk, built: seq<Proposal>, log: seq<Proposal>, t: nat)

  datatype Event =
    | Collect(receipt: Receipt) | Start(checkpoints: seq<Checkpoint>, st: State)
    | Deliver(receipt: Receipt) | Close | Drain(proposal: Proposal) | Save
    | Dispatch | Finalize(header: Header) | Crash | Idle

  // ---- bootstrap ----

  function Collected(b: Bootstrap, r: Receipt): Bootstrap {
    b[r.shardId := (if r.shardId in b then b[r.shardId] else []) + [r]]
  }

  /** The lowest receipt of a shard gives its checkpoint: the block below it. */
  ghost predicate FirstOf(rs: seq<Receipt>, cp: Checkpoint) {
    exists i :: 0 <= i < |rs| && rs[i].height > 0 && cp == Checkpoint(rs[i].height - 1, rs[i].parentHash) && LowestAt(rs, i)
  }

  ghost predicate LowestAt(rs: seq<Receipt>, i: nat)
    requires i < |rs|
  {
    forall j :: 0 <= j < |rs| ==> rs[i].height <= rs[j].height
  }

  /** Every shard has been heard of, and the checkpoints are those of the first receipts. */
  ghost predicate Starts(c: Setup, b: Bootstrap, cps: seq<Checkpoint>) {
    && |cps| == c.cfg.shardCount
    && forall s: Int64 :: 0 <= s < c.cfg.shardCount ==> s in b && FirstOf(b[s], cps[s])
  }

  // ---- steps ----

  ghost predicate Running(c: Setup, m: Option<State>) {
    m.Some? && HasShards(c.cfg, m.value) && OnlyShards(c.cfg, m.value) && c.cfg.shardCount >= 0
  }

  function WithManager(w: World, st: State, t: nat): World {
    w.(mem := w.mem.(saved := w.mem.saved.(manager := Some(st))), t := t)
  }

  /** The proposal of the oldest frozen window on top of the chain. */
  ghost predicate Drains(c: Setup, s: Snapshot, p: Proposal) {
    && s.manager.Some? && s.manager.value.frozen != [] && Fits(s.manager.value.frozen[0])
    && p in BatchesFrom(c.h, s.manager.value.frozen[0], s.chainTip, c.mode)
  }

  /** The snapshot once that window is acknowledged and its batch awaits dispatch. */
  function AfterDrain(s: Snapshot, p: Proposal): Snapshot
    requires s.manager.Some? && s.manager.value.frozen != []
  {
    var st := s.manager.value;
    s.(manager := Some(st.(frozen := st.frozen[1..])), chainTip := p.header.batchId, pending := s.pending + [p.header.batchId])
  }

  /**
   * One step. Handlers are made of these: HandleReceipt is Collect (then Start) or Deliver, Drain until no window is
   * frozen, Save; a tick is Close, Drain until none is frozen, Dispatch; HandleFinalized is Finalize, Save. A crash may
   * come between any two of them, since only Drain and Save write the store, each in one transaction. A failed
   * operation is Idle.
   */
  ghost predicate StepTo(c: Setup, a: World, e: Event, b: World) {
    var s := a.mem.saved;
    match e
    case Collect(r) =>
      && s.manager.None? && 0 <= r.shardId < c.cfg.shardCount
      && b == a.(mem := a.mem.(saved := s.(bootstrap := Collected(s.bootstrap, r))))
    case Start(cps, st) =>
      && s.manager.None? && Starts(c, s.bootstrap, cps) && InitialState(c.cfg, cps, st)
      && b == a.(mem := a.mem.(saved := s.(manager := Some(st), bootstrap := map[])))
    case Deliver(r) =>
      && Running(c, s.manager) && r.height < TWO_64 - 1
      && var step := Receive(c.h, c.cfg, s.manager.value, r, c.clock, a.t);
      b == WithManager(a, step.st, step.t)
    case Close =>
      && Running(c, s.manager)
      && var step := TryClose(c.cfg, s.manager.value, c.clock, a.t);
      b == WithManager(a, step.st, step.t)
    case Drain(p) =>
      && Drains(c, s, p)
      && var disk := Disk(AfterDrain(s, p), a.disk.proposals[p.header.batchId := p]);
      b == a.(mem := a.mem.(saved := AfterDrain(s, p)), disk := disk, built := a.built + [p])
    case Save => b == a.(disk := a.disk.(saved := s))
    case Dispatch =>
      && s.pending != [] && s.pending[0] !in a.mem.dispatched && s.pending[0] in a.disk.proposals
      && b == a.(mem := a.mem.(dispatched := a.mem.dispatched + {s.pending[0]}), log := a.log + [a.disk.proposals[s.pending[0]]])
    case Finalize(header) =>
      && s.pending != [] && s.pending[0] == header.batchId && header.batchId in a.disk.proposals
      && a.disk.proposals[header.batchId].header.matchRoot == header.matchRoot
      && b == a.(mem := Node(s.(pending := s.pending[1..]), a.mem.dispatched - {header.batchId}))
    case Crash => b == a.(mem := Node(a.disk.saved, {}))
    case Idle => b == a
  }

  ghost predicate Init(w: World) {
    && w.mem == Node(Snapshot(None, map[], 0, []), {}) && w.disk == Disk(w.mem.saved, map[])
    && w.built == [] && w.log == []
  }

  // ---- what a snapshot is worth ----

  ghost function IdsOf(batches: seq<Proposal>): (ids: seq<Hash>)
    ensures |ids| == |batches|
  {
    seq(|batches|, i requires 0 <= i < |batches| => batches[i].header.batchId)
  }

  /** The pending identifiers are those of the latest batches. */
  ghost predicate PendingOk(s: Snapshot, built: seq<Proposal>) {
    |s.pending| <= |built| && s.pending == IdsOf(built)[|built| - |s.pending|..]
  }

  ghost predicate ManagerOk(c: Setup, st: State, built: seq<Proposal>, t: nat, past: Past, delivered: set<Receipt>) {
    && Between(c.h, c.cfg, st, past, c.clock, t, delivered) && |past.history| - |st.frozen| == |built|
    && SolverChain(c.h, past, c.mode, built)
  }

  /** The snapshot follows the batches built so far: its manager has handed out exactly their windows. */
  ghost predicate SnapshotOk(c: Setup, s: Snapshot, built: seq<Proposal>, t: nat, past: Past, delivered: set<Receipt>) {
    && s.chainTip == PreviousId(built, |built|) && PendingOk(s, built)
    && (s.manager.None? ==> built == []) && (s.manager.Some? ==> ManagerOk(c, s.manager.value, built, t, past, delivered))
  }

  /** The pasts of the manager in memory and of the persisted one. */
  datatype Pasts = Pasts(mem: Past, memDelivered: set<Receipt>, disk: Past, diskDelivered: set<Receipt>)

  /** Every batch's identifier is stored, with a batch of that identifier; only batches are dispatched. */
  ghost predicate StoredOk(w: World) {
    && (forall p :: p in w.built ==> p.header.batchId in w.disk.proposals)
    && (forall id :: id in w.disk.proposals ==> Stores(w.disk.proposals[id], w.built, id))
    && (forall p :: p in w.log ==> p in w.built)
  }

  ghost predicate Stores(p: Proposal, built: seq<Proposal>, id: Hash) {
    p in built && p.header.batchId == id
  }

  ghost predicate Inv(c: Setup, w: World, pasts: Pasts) {
    && ValidConfig(c.cfg) && Ticking(c.clock) && SnapshotOk(c, w.mem.saved, w.built, w.t, pasts.mem, pasts.memDelivered)
    && SnapshotOk(c, w.disk.saved, w.built, w.t, pasts.disk, pasts.diskDelivered) && StoredOk(w)
  }

  // ---- time passes ----

  lemma LaterBetween(c: Setup, st: State, past: Past, delivered: set<Receipt>, t: nat, u: nat)
    requires Between(c.h, c.cfg, st, past, c.clock, t, delivered) && t <= u
    ensures Between(c.h, c.cfg, st, past, c.clock, u, delivered)
  {
    assert c.clock(t) <= c.clock(u);
  }

  lemma LaterSnapshot(c: Setup, s: Snapshot, built: seq<Proposal>, t: nat, u: nat, past: Past, delivered: set<Receipt>)
    requires SnapshotOk(c, s, built, t, past, delivered) && t <= u
    ensures SnapshotOk(c, s, built, u, past, delivered)
  {
    if s.manager.Some? {
      LaterBetween(c, s.manager.value, past, delivered, t, u);
    }
  }

  /** Windows numbered so far less windows in the queue: how many have been handed out. */
  ghost function Out(st: State): int {
    st.nextWindowId - |st.frozen|
  }

  lemma CloseOut(c: Setup, st: State, t: nat)
    requires HasShards(c.cfg, st) && c.cfg.shardCount >= 0
    ensures var step := TryClose(c.cfg, st, c.clock, t); Out(step.st) == Out(st) && step.t >= t
  {
  }

  lemma {:induction false} AdvanceOut(c: Setup, st: State, s: int, t: nat, first: Option<FrozenWindow>)
    requires HasShards(c.cfg, st) && 0 <= s < c.cfg.shardCount
    ensures var step := Advance(c.h, c.cfg, st, s, c.clock, t, first); Out(step.st) == Out(st) && step.t >= t
    decreases |st.streams[s].buffered|
  {
    if st.streams[s].nextExpectedHeight in st.streams[s].buffered {
      AdvanceTurns(c.h, c.cfg, st, s, c.clock, t, first);
      if WindowSteps.Acceptable(c.h, st, s) {
        var turn := AcceptAndClose(c.h, c.cfg, st, s, c.clock, t);
        TurnOut(c, st, s, t);
        AdvanceOut(c, turn.st, s, turn.t, if first.None? then turn.window else first);
      }
    }
  }

  lemma TurnOut(c: Setup, st: State, s: int, t: nat)
    requires HasShards(c.cfg, st) && 0 <= s < c.cfg.shardCount
    requires st.streams[s].nextExpectedHeight in st.streams[s].buffered
    ensures var turn := AcceptAndClose(c.h, c.cfg, st, s, c.clock, t); Out(turn.st) == Out(st) && turn.t >= t
  {
    var next := WindowSteps.Accept(c.h, st, s, c.clock(t));
    var t1 := if next.openedAt != st.openedAt then t + 1 else t;
    AcceptThenClose(c.h, c.cfg, st, s, c.clock, t, next, t1);
    CloseOut(c, next, t1);
  }

  /** A receipt hands out no window, and takes no reading back. */
  lemma ReceiveOut(c: Setup, st: State, r: Receipt, t: nat)
    requires HasShards(c.cfg, st) && OnlyShards(c.cfg, st) && c.cfg.shardCount >= 0
    ensures var step := Receive(c.h, c.cfg, st, r, c.clock, t); Out(step.st) == Out(st) && step.t >= t
  {
    if NewHeight(st, r) {
      var next := WindowSteps.Buffer(st, r);
      ReceiveIs(c.h, c.cfg, st, r, c.clock, t);
      AdvanceOut(c, next, r.shardId, t, None);
      var a := Advance(c.h, c.cfg, next, r.shardId, c.clock, t, None);
      CloseOut(c, a.st, a.t);
    } else {
      CloseOut(c, st, t);
    }
  }
}
