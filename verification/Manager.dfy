/** The window manager object (pkg/netting/window/manager.go) and its snapshots (state.go). */
module WindowManager {
  import opened Base
  import opened ByteStrings
  import opened Model
  import opened Sorting
  import opened Windows
  import opened WindowSteps
  import opened WindowSeal
  import opened WindowRun
  import opened WindowOrder
  import opened WindowStates

  // ---- the loops of seal that only read ----

  /** Takes the blocks at heights above a and up to b out of a map, in whatever order the map yields them. */
  method TakeBlocks(
    blocks: map<nat, Receipt>, ghost s: int, a: nat, b: nat) returns (taken: seq<Receipt>, rest: map<nat, Receipt>)
    requires KeyedBy(blocks, s)
    ensures multiset(taken) == multiset(RunOf(blocks, a, b))
    ensures rest == map k | k in blocks && !(a < k <= b) :: blocks[k]
  {
    var heights := Listing(blocks.Keys);
    taken, rest := [], blocks;
    for i := 0 to |heights|
      invariant NoDuplicates(taken)
      invariant forall r :: r in taken <==> TakenBy(blocks, heights[..i], a, b, r)
      invariant rest == map k | k in blocks && (k in heights[..i] ==> !(a < k <= b)) :: blocks[k]
    {
      var height := heights[i];
      assert height in blocks.Keys;
      assert heights[..i + 1] == heights[..i] + [height];
      TakenSnoc(blocks, s, heights[..i], height, a, b, taken);
      if a < height <= b {
        NoDuplicatesSnoc(taken, blocks[height]);
        taken := taken + [blocks[height]];
        rest := rest - {height};
      }
    }
    assert heights[..|heights|] == heights;
    TakenIsRun(blocks, s, heights, a, b, taken);
  }

  ghost predicate TakenBy(blocks: map<nat, Receipt>, heights: seq<nat>, a: nat, b: nat, r: Receipt) {
    r.height in heights && InRun(blocks, a, b, r.height) && blocks[r.height] == r
  }

  lemma TakenSnoc(
    blocks: map<nat, Receipt>, s: int, heights: seq<nat>, height: nat, a: nat, b: nat, taken: seq<Receipt>)
    requires KeyedBy(blocks, s) && height in blocks && height !in heights
    requires forall r :: r in taken <==> TakenBy(blocks, heights, a, b, r)
    ensures blocks[height] !in taken
    ensures forall r :: TakenBy(blocks, heights + [height], a, b, r) <==> r in taken || (a < height <= b && r == blocks[height])
  {
  }

  lemma TakenIsRun(blocks: map<nat, Receipt>, s: int, heights: seq<nat>, a: nat, b: nat, taken: seq<Receipt>)
    requires KeyedBy(blocks, s) && NoDuplicates(taken) && forall k :: k in heights <==> k in blocks
    requires forall r :: r in taken <==> TakenBy(blocks, heights, a, b, r)
    ensures multiset(taken) == multiset(RunOf(blocks, a, b))
  {
    RunIncreasing(blocks, s, a, b);
    var run := RunOf(blocks, a, b);
    forall i, j | 0 <= i < j < |run| ensures run[i] != run[j] {
      assert BlockRank()(run[i]) < BlockRank()(run[j]);
    }
    forall r ensures r in taken <==> r in run {
      RunMembers(blocks, a, b, r);
    }
    SameSetPermutes(taken, run);
  }

  method SortPending(pending: map<Hash, PaymentIntent>) returns (payments: seq<PaymentIntent>)
    ensures payments == SortedPending(pending)
  {
    var listed := Listing(pending.Keys);
    SortsToOrdered(listed, pending.Keys, Self());
    var ids := SortBy(listed, Self());
    OrderedKeys(pending, ids);
    payments := LookUp(pending, ids);
    IsSortedPending(pending, ids, payments);
  }

  method LookUp(pending: map<Hash, PaymentIntent>, ids: seq<Hash>) returns (payments: seq<PaymentIntent>)
    requires forall j :: 0 <= j < |ids| ==> ids[j] in pending
    ensures |payments| == |ids| && forall j :: 0 <= j < |ids| ==> payments[j] == pending[ids[j]]
  {
    payments := [];
    for i := 0 to |ids|
      invariant |payments| == i && forall j :: 0 <= j < i ==> payments[j] == pending[ids[j]]
    {
      payments := payments + [pending[ids[i]]];
    }
  }

  lemma OrderedKeys(pending: map<Hash, PaymentIntent>, ids: seq<Hash>)
    requires ids == Ordered(pending.Keys, Self())
    ensures forall j :: 0 <= j < |ids| ==> ids[j] in pending
  {
    forall j | 0 <= j < |ids| ensures ids[j] in pending {
      assert ids[j] in ids;
    }
  }

  lemma IsSortedPending(pending: map<Hash, PaymentIntent>, ids: seq<Hash>, payments: seq<PaymentIntent>)
    requires ids == Ordered(pending.Keys, Self()) && |payments| == |ids|
    requires forall j :: 0 <= j < |ids| ==> ids[j] in pending && payments[j] == pending[ids[j]]
    ensures payments == SortedPending(pending)
  {
  }

  method AssignAll(assignedTo: map<Hash, nat>, pending: map<Hash, PaymentIntent>, w: nat) returns (r: map<Hash, nat>)
    ensures r == Assigning(assignedTo, pending, w)
  {
    var ids := Listing(pending.Keys);
    r := assignedTo;
    for i := 0 to |ids|
      invariant r.Keys == assignedTo.Keys + (set k | k in ids[..i])
      invariant forall id :: id in r ==> r[id] == if id in ids[..i] then w else assignedTo[id]
    {
      assert ids[..i + 1] == ids[..i] + [ids[i]];
      r := r[ids[i] := w];
    }
    assert ids[..|ids|] == ids;
    assert r.Keys == Assigning(assignedTo, pending, w).Keys;
  }

  /** Sorting the collected blocks by shard and height. */
  lemma SortedBlocks(cfg: Config, st: State, collected: seq<Receipt>)
    requires HasShards(cfg, st) && AllKeyed(cfg, st) && cfg.shardCount >= 0
    requires multiset(collected) == multiset(OpenBlocks(st, cfg.shardCount))
    ensures SortBy(collected, BlockRank()) == OpenBlocks(st, cfg.shardCount)
  {
    var open := OpenBlocks(st, cfg.shardCount);
    OpenIncreasing(cfg, st, cfg.shardCount);
    assert Distinct(open, BlockRank()) && Sorted(open, BlockRank());
    SortByProperties(collected, BlockRank());
    SortedUnique(open, SortBy(collected, BlockRank()), BlockRank());
  }

  class Clock {
    const at: Readings
    var t: nat

    constructor (at: Readings)
      ensures this.at == at && t == 0
    {
      this.at := at;
      t := 0;
    }

    method Now() returns (now: int)
      modifies this`t
      ensures now == at(old(t)) && t == old(t) + 1
    {
      now := at(t);
      t := t + 1;
    }
  }

  /** One turn of the loop of seal. */
  lemma CutNext(cfg: Config, st: State, s: nat, taken: seq<Receipt>, rest: map<nat, Receipt>)
    requires HasShards(cfg, st) && s < cfg.shardCount
    requires multiset(taken) == multiset(RunOf(st.streams[s].unassigned, st.lastAssigned[s], st.streams[s].continuousHeight))
    requires rest == Emptied(st.streams[s], st.lastAssigned[s]).unassigned
    ensures CutsOf(cfg, st, s + 1) == CutsOf(cfg, st, s) + [CutOf(st, s)]
    ensures multiset(OpenBlocks(st, s + 1)) == multiset(OpenBlocks(st, s)) + multiset(taken)
    ensures HeightsTo(cfg, st, s + 1) == HeightsTo(cfg, st, s)[s := st.streams[s].continuousHeight]
    ensures StreamsTo(cfg, st, s + 1) == StreamsTo(cfg, st, s)[s := st.streams[s].(unassigned := rest)]
  {
  }

  lemma SealedIs(
    cfg: Config, st: State, reason: string, now: int, cuts: seq<Cut>, receipts: seq<Receipt>,
    lastAssigned: map<int, nat>, streams: map<int, Stream>)
    requires HasShards(cfg, st) && AllKeyed(cfg, st) && cfg.shardCount >= 0 && st.openedAt.Some?
    requires cuts == CutsOf(cfg, st, cfg.shardCount) && multiset(receipts) == multiset(OpenBlocks(st, cfg.shardCount))
    requires lastAssigned == HeightsTo(cfg, st, cfg.shardCount) && streams == StreamsTo(cfg, st, cfg.shardCount)
    ensures var window := FrozenWindow(st.nextWindowId, st.openedAt.value, now, reason, cuts, SortBy(receipts, BlockRank()), SortedPending(st.pending));
      && window == SealedWindow(cfg, st, reason, now)
      && Seal(cfg, st, reason, now) ==
         State(st.nextWindowId + 1, None, map[], Assigning(st.assignedTo, st.pending, st.nextWindowId), lastAssigned, streams, st.frozen + [window])
  {
    SortedBlocks(cfg, st, receipts);
    var window := FrozenWindow(st.nextWindowId, st.openedAt.value, now, reason, cuts, SortBy(receipts, BlockRank()), SortedPending(st.pending));
    assert window == SealedWindow(cfg, st, reason, now);
  }

  lemma SnocIds(h: Hasher, intents: seq<PaymentIntent>, i: nat)
    requires i < |intents|
    ensures forall id :: SomeId(h, intents[..i + 1], id) <==> SomeId(h, intents[..i], id) || IdOf(h, intents[i]) == id
  {
    assert intents[..i + 1] == intents[..i] + [intents[i]];
    forall id ensures SomeId(h, intents[..i + 1], id) <==> SomeId(h, intents[..i], id) || IdOf(h, intents[i]) == id {
      SomeIdSnoc(h, intents[..i], intents[i], id);
    }
  }

  // ---- blocks are filed under their own shard and height ----

  ghost predicate Keyed(cfg: Config, st: State) {
    HasShards(cfg, st) && AllKeyed(cfg, st) && cfg.shardCount >= 0 && forall s :: 0 <= s < cfg.shardCount ==> KeyedBy(st.streams[s].buffered, s)
  }

  lemma AcceptKeyed(h: Hasher, cfg: Config, st: State, s: int, now: int)
    requires Keyed(cfg, st) && 0 <= s < cfg.shardCount && st.streams[s].nextExpectedHeight in st.streams[s].buffered
    ensures Keyed(cfg, Accept(h, st, s, now))
  {
    var next := Accept(h, st, s, now);
    assert KeyedBy(st.streams[s].buffered, s) && KeyedBy(st.streams[s].unassigned, s);
    forall u | 0 <= u < cfg.shardCount ensures KeyedBy(next.streams[u].buffered, u) && KeyedBy(next.streams[u].unassigned, u) {
      assert KeyedBy(st.streams[u].buffered, u) && KeyedBy(st.streams[u].unassigned, u);
    }
  }

  lemma SealKeyed(cfg: Config, st: State, reason: string, now: int)
    requires Keyed(cfg, st) && st.openedAt.Some?
    ensures Keyed(cfg, Seal(cfg, st, reason, now))
  {
    var next := Seal(cfg, st, reason, now);
    SealShards(cfg, st, reason, now);
    forall u | 0 <= u < cfg.shardCount ensures KeyedBy(next.streams[u].buffered, u) && KeyedBy(next.streams[u].unassigned, u) {
      assert next.streams[u] == Emptied(st.streams[u], st.lastAssigned[u]);
      EmptiedKeyed(st.streams[u], st.lastAssigned[u], u);
    }
  }

  lemma EmptiedKeyed(x: Stream, last: nat, s: int)
    requires KeyedBy(x.buffered, s) && KeyedBy(x.unassigned, s)
    ensures KeyedBy(Emptied(x, last).buffered, s) && KeyedBy(Emptied(x, last).unassigned, s)
  {
  }

  lemma CloseKeyed(cfg: Config, st: State, clock: Readings, t: nat)
    requires Keyed(cfg, st)
    ensures Keyed(cfg, TryClose(cfg, st, clock, t).st)
  {
    if st.pending != map[] && st.openedAt.Some? && Due(cfg, st, clock(t)) {
      SealKeyed(cfg, st, Reason(cfg, st), clock(t + 1));
      CloseSeals(cfg, st, clock, t);
    } else if st.pending != map[] && st.openedAt.Some? {
      CloseWaits(cfg, st, clock, t);
    }
  }

  /** One turn keeps the filing. */
  lemma TurnKeyed(h: Hasher, cfg: Config, st: State, s: int, clock: Readings, t: nat)
    requires Keyed(cfg, st) && 0 <= s < cfg.shardCount && st.streams[s].nextExpectedHeight in st.streams[s].buffered
    ensures Keyed(cfg, AcceptAndClose(h, cfg, st, s, clock, t).st)
  {
    var next := Accept(h, st, s, clock(t));
    AcceptKeyed(h, cfg, st, s, clock(t));
    CloseKeyed(cfg, next, clock, if next.openedAt != st.openedAt then t + 1 else t);
  }

  lemma BufferKeyed(cfg: Config, st: State, r: Receipt)
    requires Keyed(cfg, st) && r.shardId in st.streams
    ensures Keyed(cfg, Buffer(st, r))
  {
    forall u | 0 <= u < cfg.shardCount ensures KeyedBy(Buffer(st, r).streams[u].buffered, u) && KeyedBy(Buffer(st, r).streams[u].unassigned, u) {
      assert KeyedBy(st.streams[u].buffered, u) && KeyedBy(st.streams[u].unassigned, u);
    }
  }

  lemma AcceptThenClose(h: Hasher, cfg: Config, st: State, s: int, clock: Readings, t: nat, next: State, t1: nat)
    requires HasShards(cfg, st) && 0 <= s < cfg.shardCount && st.streams[s].nextExpectedHeight in st.streams[s].buffered
    requires next == Accept(h, st, s, clock(t)) && t1 == if next.openedAt != st.openedAt then t + 1 else t
    ensures HasShards(cfg, next) && AcceptAndClose(h, cfg, st, s, clock, t) == TryClose(cfg, next, clock, t1)
  {
  }

  lemma FollowsKeyed(h: Hasher, cfg: Config, st: State, past: Past)
    requires Represents(h, cfg, st, past) && cfg.shardCount >= 0
    ensures Keyed(cfg, st)
  {
    RepresentedKeyed(h, cfg, st, past);
    forall s | 0 <= s < cfg.shardCount ensures KeyedBy(st.streams[s].buffered, s) {
      assert StreamOf(s, st.streams[s], past.checkpoints[s], past.chains[s], st.lastAssigned[s]);
    }
  }

  // ---- the initial state ----

  function FreshStream(cp: Checkpoint): Stream {
    Stream(cp.height + 1, cp.height, cp.blockHash, map[], map[], map[cp.height := cp.blockHash])
  }

  ghost predicate InitialState(cfg: Config, cps: seq<Checkpoint>, st: State) {
    && st.nextWindowId == 1 && st.openedAt == None && st.pending == map[] && st.assignedTo == map[] && st.frozen == []
    && (forall s :: s in st.streams <==> 0 <= s < cfg.shardCount) && st.lastAssigned.Keys == st.streams.Keys && |cps| == cfg.shardCount
    && (forall s :: 0 <= s < cfg.shardCount ==> st.lastAssigned[s] == cps[s].height && st.streams[s] == FreshStream(cps[s]))
  }

  ghost function InitialPast(cps: seq<Checkpoint>): Past {
    Past(cps, seq(|cps|, _ => []), [])
  }

  /** New leaves a manager true to an empty past. */
  lemma InitialRepresents(h: Hasher, cfg: Config, cps: seq<Checkpoint>, st: State)
    requires InitialState(cfg, cps, st)
    ensures Represents(h, cfg, st, InitialPast(cps))
  {
    var past := InitialPast(cps);
    InitialStreams(h, cfg, cps, st);
    InitialPlaced(h, cfg, cps, st);
    InitialHistory(h, cfg, cps, st);
    forall s | 0 <= s < cfg.shardCount ensures Linked(h, s, past.checkpoints[s], past.chains[s]) {
      assert past.chains[s] == [];
    }
  }

  lemma InitialStreams(h: Hasher, cfg: Config, cps: seq<Checkpoint>, st: State)
    requires InitialState(cfg, cps, st)
    ensures StreamsOf(cfg, st, InitialPast(cps)) && forall s, k: nat :: !Accepted(InitialPast(cps), s, k)
  {
    var past := InitialPast(cps);
    forall s, k: nat ensures !Accepted(past, s, k) {
      assert 0 <= s < |cps| ==> past.chains[s] == [];
    }
    forall s | 0 <= s < cfg.shardCount ensures StreamOf(s, st.streams[s], past.checkpoints[s], past.chains[s], st.lastAssigned[s]) {
      FreshStreamOf(s, cps[s]);
      assert past.chains[s] == [];
    }
  }

  lemma FreshStreamOf(s: int, cp: Checkpoint)
    ensures StreamOf(s, FreshStream(cp), cp, [], cp.height)
  {
  }

  lemma InitialPlaced(h: Hasher, cfg: Config, cps: seq<Checkpoint>, st: State)
    requires InitialState(cfg, cps, st) && forall s, k: nat :: !Accepted(InitialPast(cps), s, k)
    ensures Disjoint(h, InitialPast(cps)) && Placed(h, st, InitialPast(cps)) && AssignedWindows(h, cfg, st, InitialPast(cps))
  {
  }

  lemma InitialHistory(h: Hasher, cfg: Config, cps: seq<Checkpoint>, st: State)
    requires InitialState(cfg, cps, st)
    ensures QueueOk(cfg, st, InitialPast(cps)) && HistoryOk(h, cfg, st, InitialPast(cps))
  {
  }

  lemma InitialBetween(h: Hasher, cfg: Config, cps: seq<Checkpoint>, st: State, clock: Readings, t: nat)
    requires InitialState(cfg, cps, st) && ValidConfig(cfg) && Ticking(clock)
    requires forall s :: 0 <= s < |cps| ==> cps[s].height < TWO_64 - 1
    ensures Between(h, cfg, st, InitialPast(cps), clock, t, {})
  {
    InitialRepresents(h, cfg, cps, st);
    InitialStreams(h, cfg, cps, st);
    InitialTimely(h, cfg, cps, st, clock, t);
  }

  lemma InitialTimely(h: Hasher, cfg: Config, cps: seq<Checkpoint>, st: State, clock: Readings, t: nat)
    requires InitialState(cfg, cps, st) && Ticking(clock) && forall s :: 0 <= s < |cps| ==> cps[s].height < TWO_64 - 1
    requires StreamsOf(cfg, st, InitialPast(cps)) && forall s, k: nat :: !Accepted(InitialPast(cps), s, k)
    ensures Timely(st, clock, t) && HeightsBelow(st) && Quiet(st) && OnlyShards(cfg, st) && Tracked(h, cfg, st, InitialPast(cps), {})
  {
    forall s | s in st.streams ensures st.streams[s] == FreshStream(cps[s]) {
    }
  }

  /** The checkpoints of the first n shards, in order. */
  ghost function Listed(n: nat, checkpoints: map<int, Checkpoint>): (cps: seq<Checkpoint>)
    requires forall s :: 0 <= s < n ==> s in checkpoints
    ensures |cps| == n && forall s :: 0 <= s < n ==> cps[s] == checkpoints[s]
  {
    seq(n, s requires 0 <= s < n => checkpoints[s])
  }

  method New(h: Hasher, cfg: Config, clock: Clock, checkpoints: map<int, Checkpoint>) returns (r: Result<Manager>)
    requires Ticking(clock.at)
    ensures !ValidConfig(cfg) ==> r == Err(InvalidConfig)
    ensures ValidConfig(cfg) ==> (r.Ok? <==> Covering(cfg, checkpoints)) && (r.Err? ==> r.error == MissingCheckpoint)
    ensures r.Ok? ==> fresh(r.value) && r.value.Valid() && r.value.h == h && r.value.cfg == cfg && r.value.clock == clock
    ensures r.Ok? ==> r.value.past == InitialPast(Listed(cfg.shardCount, checkpoints)) && r.value.delivered == {}
    ensures r.Ok? ==> InitialState(cfg, Listed(cfg.shardCount, checkpoints), r.value.View())
  {
    if cfg.shardCount <= 0 || cfg.batchSize <= 0 || cfg.maxWindowDuration <= 0 {
      return Err(InvalidConfig);
    }
    if |checkpoints| != cfg.shardCount {
      return Err(MissingCheckpoint);
    }
    var ok, heights, streams := FreshStreams(cfg.shardCount, checkpoints);
    if !ok {
      return Err(MissingCheckpoint);
    }
    ghost var cps := Listed(cfg.shardCount, checkpoints);
    var st := State(1, None, map[], map[], heights, streams, []);
    InitialBetween(h, cfg, cps, st, clock.at, clock.t);
    var m := new Manager(h, cfg, clock, st, InitialPast(cps), {});
    r := Ok(m);
  }

  /** The loop of New over the shards. */
  method FreshStreams(
    n: nat, checkpoints: map<int, Checkpoint>) returns (ok: bool, heights: map<int, nat>, streams: map<int, Stream>)
    ensures ok <==> forall s :: 0 <= s < n ==> s in checkpoints && checkpoints[s].height != TWO_64 - 1
    ensures ok ==> (forall s :: s in streams <==> 0 <= s < n) && heights.Keys == streams.Keys
    ensures ok ==> forall s :: 0 <= s < n ==> heights[s] == checkpoints[s].height && streams[s] == FreshStream(checkpoints[s])
  {
    heights, streams := map[], map[];
    for s := 0 to n
      invariant forall u :: 0 <= u < s ==> u in checkpoints && checkpoints[u].height != TWO_64 - 1
      invariant (forall u :: u in streams <==> 0 <= u < s) && heights.Keys == streams.Keys
      invariant forall u :: 0 <= u < s ==> heights[u] == checkpoints[u].height && streams[u] == FreshStream(checkpoints[u])
    {
      if s !in checkpoints || checkpoints[s].height == TWO_64 - 1 {
        return false, heights, streams;
      }
      heights := heights[s := checkpoints[s].height];
      streams := streams[s := FreshStream(checkpoints[s])];
    }
    ok := true;
  }

  ghost predicate Covering(cfg: Config, checkpoints: map<int, Checkpoint>) {
    |checkpoints| == cfg.shardCount && forall s :: 0 <= s < cfg.shardCount ==> s in checkpoints && checkpoints[s].height != TWO_64 - 1
  }

  /** Restore accepts exactly the states validateState accepts, and resumes from them. */
  method Restore(
    h: Hasher, cfg: Config, clock: Clock, st: State, ghost past: Past, ghost delivered: set<Receipt>)
    returns (r: Result<Manager>)
    ensures !ValidConfig(cfg) ==> r == Err(InvalidConfig)
    ensures ValidConfig(cfg) ==> if ValidState(h, cfg, st) then r.Ok? else r == Err(InvalidState)
    ensures r.Ok? ==> fresh(r.value) && r.value.View() == st && r.value.h == h && r.value.cfg == cfg && r.value.clock == clock
    ensures r.Ok? ==> r.value.past == past && r.value.delivered == delivered
  {
    if cfg.shardCount <= 0 || cfg.batchSize <= 0 || cfg.maxWindowDuration <= 0 {
      return Err(InvalidConfig);
    }
    var ok := CheckState(h, cfg, st);
    if !ok {
      return Err(InvalidState);
    }
    var m := new Manager(h, cfg, clock, st, past, delivered);
    r := Ok(m);
  }

  /** The snapshot of a manager between calls is accepted, and the restored manager is in the same state. */
  method SnapshotRoundTrip(m: Manager) returns (r: Result<Manager>)
    requires m.Valid()
    ensures r.Ok? && fresh(r.value) && r.value.Valid() && r.value.View() == m.View() && r.value.cfg == m.cfg && r.value.h == m.h
  {
    var st := m.Snapshot();
    RepresentedIsValid(m.h, m.cfg, st, m.past);
    r := Restore(m.h, m.cfg, m.clock, st, m.past, m.delivered);
  }

  class Manager {
    const cfg: Config
    const h: Hasher
    const clock: Clock
    var nextWindowId: nat
    var openedAt: Option<int>
    var pending: map<Hash, PaymentIntent>
    var assignedTo: map<Hash, nat>
    var lastAssigned: map<int, nat>
    var streams: map<int, Stream>
    var frozen: seq<FrozenWindow>
    ghost var past: Past
    ghost var delivered: set<Receipt>

    ghost function View(): State
      reads this
    {
      State(nextWindowId, openedAt, pending, assignedTo, lastAssigned, streams, frozen)
    }

    ghost predicate Valid()
      reads this, clock
    {
      past in PastsOf(h, cfg, clock.at, delivered, View(), clock.t)
    }

    constructor (h: Hasher, cfg: Config, clock: Clock, st: State, ghost past: Past, ghost delivered: set<Receipt>)
      ensures this.h == h && this.cfg == cfg && this.clock == clock && View() == st && this.past == past && this.delivered == delivered
    {
      this.h, this.cfg, this.clock, this.past, this.delivered := h, cfg, clock, past, delivered;
      nextWindowId, openedAt, pending, assignedTo := st.nextWindowId, st.openedAt, st.pending, st.assignedTo;
      lastAssigned, streams, frozen := st.lastAssigned, st.streams, st.frozen;
    }

    /** The loop of seal over the shards. */
    method CutShards() returns (cuts: seq<Cut>, receipts: seq<Receipt>)
      requires HasShards(cfg, View()) && AllKeyed(cfg, View()) && cfg.shardCount >= 0
      modifies this`lastAssigned, this`streams
      ensures cuts == CutsOf(cfg, old(View()), cfg.shardCount)
      ensures multiset(receipts) == multiset(OpenBlocks(old(View()), cfg.shardCount))
      ensures lastAssigned == HeightsTo(cfg, old(View()), cfg.shardCount) && streams == StreamsTo(cfg, old(View()), cfg.shardCount)
    {
      ghost var st := View();
      cuts, receipts := [], [];
      for s := 0 to cfg.shardCount
        invariant cuts == CutsOf(cfg, st, s) && multiset(receipts) == multiset(OpenBlocks(st, s))
        invariant lastAssigned == HeightsTo(cfg, st, s) && streams == StreamsTo(cfg, st, s)
      {
        assert streams[s] == st.streams[s] && lastAssigned[s] == st.lastAssigned[s] && KeyedBy(st.streams[s].unassigned, s);
        var taken, rest := TakeBlocks(streams[s].unassigned, s, lastAssigned[s], streams[s].continuousHeight);
        CutNext(cfg, st, s, taken, rest);
        cuts := cuts + [Cut(s, lastAssigned[s], streams[s].continuousHeight, streams[s].continuousHash)];
        receipts := receipts + taken;
        lastAssigned := lastAssigned[s := streams[s].continuousHeight];
        streams := streams[s := streams[s].(unassigned := rest)];
      }
    }

    method SealWindow(reason: string) returns (window: FrozenWindow)
      requires HasShards(cfg, View()) && AllKeyed(cfg, View()) && cfg.shardCount >= 0 && openedAt.Some?
      modifies this`nextWindowId, this`openedAt, this`pending, this`assignedTo, this`lastAssigned, this`streams, this`frozen, clock`t
      ensures clock.t == old(clock.t) + 1
      ensures window == SealedWindow(cfg, old(View()), reason, clock.at(old(clock.t)))
      ensures View() == Seal(cfg, old(View()), reason, clock.at(old(clock.t)))
    {
      ghost var st := View();
      var now := clock.Now();
      var intents := SortPending(pending);
      var cuts, receipts := CutShards();
      SealedIs(cfg, st, reason, now, cuts, receipts, lastAssigned, streams);
      window := FrozenWindow(nextWindowId, openedAt.value, now, reason, cuts, SortBy(receipts, BlockRank()), intents);
      assignedTo := AssignAll(assignedTo, pending, window.windowId);
      pending := map[];
      openedAt := None;
      nextWindowId := nextWindowId + 1;
      frozen := frozen + [window];
    }

    /** A window that is due is sealed for its size before its age. */
    method SealDue() returns (window: FrozenWindow)
      requires HasShards(cfg, View()) && AllKeyed(cfg, View()) && cfg.shardCount >= 0 && openedAt.Some?
      modifies this`nextWindowId, this`openedAt, this`pending, this`assignedTo, this`lastAssigned, this`streams, this`frozen, clock`t
      ensures Step(View(), clock.t, Some(window), None) == SealStep(cfg, old(View()), clock.at(old(clock.t)), old(clock.t) + 1)
    {
      var reason := "max_window_duration";
      if |pending| >= cfg.batchSize {
        reason := "batch_size";
      }
      window := SealWindow(reason);
    }

    /** The window with something pending: sealed if it is due at `now`, the latest reading. */
    method CloseOpen(now: int) returns (window: Option<FrozenWindow>)
      requires HasShards(cfg, View()) && AllKeyed(cfg, View()) && cfg.shardCount >= 0 && openedAt.Some?
      requires pending != map[]
      requires clock.t > 0 && now == clock.at(clock.t - 1)
      modifies this`nextWindowId, this`openedAt, this`pending, this`assignedTo, this`lastAssigned, this`streams, this`frozen, clock`t
      ensures Step(View(), clock.t, window, None) == TryClose(cfg, old(View()), clock.at, old(clock.t) - 1)
    {
      window := None;
      if |pending| < cfg.batchSize && now < openedAt.value + cfg.maxWindowDuration {
        CloseWaits(cfg, View(), clock.at, clock.t - 1);
      } else {
        window := SealNow();
      }
    }

    method SealNow() returns (window: Option<FrozenWindow>)
      requires HasShards(cfg, View()) && AllKeyed(cfg, View()) && cfg.shardCount >= 0 && openedAt.Some?
      requires pending != map[]
      requires clock.t > 0 && Due(cfg, View(), clock.at(clock.t - 1))
      modifies this`nextWindowId, this`openedAt, this`pending, this`assignedTo, this`lastAssigned, this`streams, this`frozen, clock`t
      ensures Step(View(), clock.t, window, None) == TryClose(cfg, old(View()), clock.at, old(clock.t) - 1)
    {
      CloseSeals(cfg, View(), clock.at, clock.t - 1);
      var sealed := SealDue();
      window := Some(sealed);
    }

    method TryCloseWindow() returns (window: Option<FrozenWindow>)
      requires HasShards(cfg, View()) && AllKeyed(cfg, View()) && cfg.shardCount >= 0
      modifies this`nextWindowId, this`openedAt, this`pending, this`assignedTo, this`lastAssigned, this`streams, this`frozen, clock`t
      ensures Step(View(), clock.t, window, None) == TryClose(cfg, old(View()), clock.at, old(clock.t))
    {
      if pending == map[] || openedAt.None? {
        return None;
      }
      ghost var before := View();
      var now := clock.Now();
      assert View() == before;
      window := CloseOpen(now);
    }

    /** validateReceiptIntents. */
    method ValidateReceiptIntents(r: Receipt) returns (ids: seq<Hash>, err: Option<Error>)
      ensures err == CheckIntents(h, View(), r, 0)
      ensures err.None? ==> |ids| == |r.intents| && forall i :: 0 <= i < |ids| ==> ids[i] == IdOf(h, r.intents[i])
    {
      ids := [];
      var local: set<Hash> := {};
      for i := 0 to |r.intents|
        invariant CheckIntents(h, View(), r, 0) == CheckIntents(h, View(), r, i)
        invariant |ids| == i && forall j :: 0 <= j < i ==> ids[j] == IdOf(h, r.intents[j])
        invariant forall id :: id in local <==> SomeId(h, r.intents[..i], id)
      {
        var payment := r.intents[i];
        if payment.sourceShard != r.shardId {
          return ids, Some(InvalidReceipt);
        }
        match IntentId(h, payment) {
          case Err(_) =>
            return ids, Some(InvalidReceipt);
          case Ok(id) =>
            if id in local || id in pending || id in assignedTo {
              return ids, Some(DuplicateIntent);
            }
            SnocIds(h, r.intents, i);
            local := local + {id};
            ids := ids + [id];
        }
      }
      err := None;
    }

    method DropBuffered(s: int, height: nat)
      requires s in streams && height == streams[s].nextExpectedHeight
      modifies this`streams
      ensures View() == Drop(old(View()), s)
    {
      var x := streams[s];
      streams := streams[s := x.(buffered := x.buffered - {height}, seen := x.seen - {height})];
    }

    method AddIntents(r: Receipt, ids: seq<Hash>)
      requires |ids| == |r.intents| && forall i :: 0 <= i < |ids| ==> ids[i] == IdOf(h, r.intents[i])
      modifies this`pending
      ensures pending == AddPending(h, old(pending), r.intents)
    {
      for i := 0 to |ids|
        invariant pending == AddPending(h, old(pending), r.intents[..i])
      {
        assert r.intents[..i + 1] == r.intents[..i] + [r.intents[i]];
        pending := pending[ids[i] := r.intents[i]];
      }
      assert r.intents[..|ids|] == r.intents;
    }

    /** The next block joins its stream and its intents become pending. */
    method AcceptBlock(s: int, r: Receipt, ids: seq<Hash>)
      requires s in streams && streams[s].nextExpectedHeight in streams[s].buffered
      requires r == streams[s].buffered[streams[s].nextExpectedHeight]
      requires r.height == streams[s].nextExpectedHeight
      requires |ids| == |r.intents| && forall i :: 0 <= i < |ids| ==> ids[i] == IdOf(h, r.intents[i])
      modifies this`openedAt, this`pending, this`streams, clock`t
      ensures View() == Accept(h, old(View()), s, clock.at(old(clock.t)))
      ensures clock.t == if openedAt != old(openedAt) then old(clock.t) + 1 else old(clock.t)
    {
      var x := streams[s];
      streams := streams[s := x.(buffered := x.buffered - {r.height}, unassigned := x.unassigned[r.height := r],
        continuousHeight := r.height, continuousHash := r.blockHash, nextExpectedHeight := x.nextExpectedHeight + 1)];
      AddIntents(r, ids);
      if |ids| > 0 && openedAt.None? {
        var now := clock.Now();
        openedAt := Some(now);
      }
    }

    /** The accepting half of a turn of advanceStream. */
    method AcceptNext(s: int, r: Receipt, ids: seq<Hash>) returns (sealed: Option<FrozenWindow>)
      requires Keyed(cfg, View()) && 0 <= s < cfg.shardCount
      requires streams[s].nextExpectedHeight in streams[s].buffered
      requires r == streams[s].buffered[streams[s].nextExpectedHeight]
      requires |ids| == |r.intents| && forall i :: 0 <= i < |ids| ==> ids[i] == IdOf(h, r.intents[i])
      modifies this`nextWindowId, this`openedAt, this`pending, this`assignedTo, this`lastAssigned, this`streams, this`frozen, clock`t
      ensures Step(View(), clock.t, sealed, None) == AcceptAndClose(h, cfg, old(View()), s, clock.at, old(clock.t))
    {
      ghost var st, t := View(), clock.t;
      AcceptKeyed(h, cfg, st, s, clock.at(t));
      assert KeyedBy(streams[s].buffered, s);
      AcceptBlock(s, r, ids);
      ghost var next, t1 := View(), clock.t;
      sealed := TryCloseWindow();
      AcceptThenClose(h, cfg, st, s, clock.at, t, next, t1);
    }

    /** Accepts buffered blocks until the next one is missing or unacceptable. */
    method AdvanceStream(s: int) returns (first: Option<FrozenWindow>, err: Option<Error>)
      requires Keyed(cfg, View()) && 0 <= s < cfg.shardCount
      modifies this`nextWindowId, this`openedAt, this`pending, this`assignedTo, this`lastAssigned, this`streams, this`frozen, clock`t
      ensures Step(View(), clock.t, first, err) == Advance(h, cfg, old(View()), s, clock.at, old(clock.t), None)
      ensures err.None? ==> Keyed(cfg, View())
    {
      first := None;
      while streams[s].nextExpectedHeight in streams[s].buffered
        invariant Keyed(cfg, View())
        invariant Advance(h, cfg, View(), s, clock.at, clock.t, first) == Advance(h, cfg, old(View()), s, clock.at, old(clock.t), None)
        decreases |streams[s].buffered|
      {
        var r := streams[s].buffered[streams[s].nextExpectedHeight];
        assert KeyedBy(streams[s].buffered, s);
        if r.parentHash != streams[s].continuousHash {
          DropBuffered(s, r.height);
          return first, Some(ParentHashMismatch);
        }
        var ids, e := ValidateReceiptIntents(r);
        if e.Some? {
          DropBuffered(s, r.height);
          return first, e;
        }
        NewIntentsIff(h, View(), r);
        AdvanceTurns(h, cfg, View(), s, clock.at, clock.t, first);
        TurnKeyed(h, cfg, View(), s, clock.at, clock.t);
        var sealed := AcceptNext(s, r, ids);
        if sealed.Some? && first.None? {
          first := sealed;
        }
      }
      err := None;
    }
  
    /** A finalized block receipt arrives. */
    method AddReceipt(r: Receipt) returns (window: Option<FrozenWindow>, err: Option<Error>)
      requires Valid() && HasShards(cfg, View()) && OnlyShards(cfg, View()) && r.height < TWO_64 - 1
      modifies this, clock`t
      ensures Valid() && delivered == old(delivered) + {r} && Grows(old(past), past)
      ensures Step(View(), clock.t, window, err) == Receive(h, cfg, old(View()), r, clock.at, old(clock.t))
    {
      ghost var after := ReceiveKeeps(h, cfg, View(), past, clock.at, clock.t, delivered, r);
      FollowsKeyed(h, cfg, View(), past);
      window, err := Deliver(r);
      past, delivered := after, delivered + {r};
    }

    method Deliver(r: Receipt) returns (window: Option<FrozenWindow>, err: Option<Error>)
      requires Keyed(cfg, View()) && OnlyShards(cfg, View())
      modifies this`nextWindowId, this`openedAt, this`pending, this`assignedTo, this`lastAssigned, this`streams, this`frozen, clock`t
      ensures Step(View(), clock.t, window, err) == Receive(h, cfg, old(View()), r, clock.at, old(clock.t))
    {
      if r.shardId !in streams {
        return None, Some(UnknownShard);
      }
      if r.height == 0 {
        return None, Some(InvalidReceipt);
      }
      var x := streams[r.shardId];
      if r.height in x.seen {
        if x.seen[r.height] != r.blockHash {
          return None, Some(ConflictingReceipt);
        }
        window := TryCloseWindow();
        return window, None;
      }
      if r.height < x.nextExpectedHeight {
        return None, Some(StaleReceipt);
      }
      window, err := BufferAndAdvance(r);
    }

    method BufferAndAdvance(r: Receipt) returns (window: Option<FrozenWindow>, err: Option<Error>)
      requires Keyed(cfg, View()) && OnlyShards(cfg, View()) && NewHeight(View(), r)
      modifies this`nextWindowId, this`openedAt, this`pending, this`assignedTo, this`lastAssigned, this`streams, this`frozen, clock`t
      ensures Step(View(), clock.t, window, err) == Receive(h, cfg, old(View()), r, clock.at, old(clock.t))
    {
      ReceiveIs(h, cfg, View(), r, clock.at, clock.t);
      BufferKeyed(cfg, View(), r);
      var x := streams[r.shardId];
      streams := streams[r.shardId := x.(buffered := x.buffered[r.height := r], seen := x.seen[r.height := r.blockHash])];
      var first;
      first, err := AdvanceStream(r.shardId);
      if err.Some? {
        return first, err;
      }
      window := TryCloseWindow();
      if first.Some? {
        window := first;
      }
    }

    /** TryClose, as it is called between receipts: on every tick of the Solver. */
    method Close() returns (window: Option<FrozenWindow>)
      requires Valid() && HasShards(cfg, View())
      modifies this, clock`t
      ensures Valid() && delivered == old(delivered)
      ensures Step(View(), clock.t, window, None) == TryClose(cfg, old(View()), clock.at, old(clock.t))
      ensures past == ClosedPast(old(past), TryClose(cfg, old(View()), clock.at, old(clock.t)))
    {
      ghost var after := ClosedPast(past, TryClose(cfg, View(), clock.at, clock.t));
      CloseIn(h, cfg, View(), past, clock.at, clock.t, delivered);
      FollowsKeyed(h, cfg, View(), past);
      window := TryCloseWindow();
      past := after;
    }

    method PeekFrozen() returns (window: Option<FrozenWindow>)
      ensures window == if frozen == [] then None else Some(frozen[0])
    {
      window := if |frozen| == 0 then None else Some(frozen[0]);
    }

    /** The oldest sealed window leaves the queue when it is acknowledged by its number. */
    method AcknowledgeFrozen(windowId: nat) returns (err: Option<Error>)
      requires Valid()
      modifies this`frozen
      ensures Valid() && View() == Acknowledge(old(View()), windowId).st && err == Acknowledge(old(View()), windowId).error
      ensures err.None? ==> windowId + |frozen| == |past.history|
    {
      if |frozen| == 0 {
        return Some(FrozenQueueEmpty);
      }
      if frozen[0].windowId != windowId {
        return Some(UnexpectedWindow);
      }
      AckBetween(h, cfg, View(), past, clock.at, clock.t, delivered);
      frozen := frozen[1..];
      err := None;
    }

    method Snapshot() returns (st: State)
      ensures st == View()
    {
      st := State(nextWindowId, openedAt, pending, assignedTo, lastAssigned, streams, frozen);
    }
  }
}
