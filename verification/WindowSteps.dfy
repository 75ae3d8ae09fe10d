/** The changes the window manager makes to its state, and that each keeps the state true to its past. */
module WindowSteps {
  import opened Base
  import opened ByteStrings
  import opened Model
  import opened Sorting
  import opened Windows

  // ---- buffering and dropping ----

  function Buffer(st: State, r: Receipt): State
    requires r.shardId in st.streams
  {
    var x := st.streams[r.shardId];
    st.(streams := st.streams[r.shardId := x.(buffered := x.buffered[r.height := r], seen := x.seen[r.height := r.blockHash])])
  }

  function Drop(st: State, s: int): State
    requires s in st.streams
  {
    var x := st.streams[s];
    st.(streams := st.streams[s := x.(buffered := x.buffered - {x.nextExpectedHeight}, seen := x.seen - {x.nextExpectedHeight})])
  }

  /** Everything but the streams is as before. */
  lemma OnlyStreams(h: Hasher, cfg: Config, st: State, streams: map<int, Stream>, past: Past)
    requires Represents(h, cfg, st, past) && StreamsOf(cfg, st.(streams := streams), past)
    ensures Represents(h, cfg, st.(streams := streams), past)
  {
    var next := st.(streams := streams);
    PlacedSame(h, st, next, past);
    AssignedSame(h, cfg, st, next, past);
  }

  lemma AssignedSame(h: Hasher, cfg: Config, st: State, next: State, past: Past)
    requires AssignedWindows(h, cfg, st, past) && next.assignedTo == st.assignedTo
    requires next.lastAssigned == st.lastAssigned
    ensures AssignedWindows(h, cfg, next, past)
  {
    forall s, k: nat, id | Holds(h, past, s, k, id) && !Open(next, s, k) && id in next.assignedTo ensures Covers(cfg, past, next.assignedTo[id], s, k) {
      assert !Open(st, s, k);
    }
  }

  lemma PlacedSame(h: Hasher, st: State, next: State, past: Past)
    requires Placed(h, st, past) && next.pending == st.pending && next.assignedTo == st.assignedTo
    requires next.lastAssigned == st.lastAssigned
    ensures Placed(h, next, past)
  {
    forall s, k: nat, i | Accepted(past, s, k) && 0 <= i < |Block(past, s, k).intents|
      ensures PlacedOne(h, next, Block(past, s, k).intents[i], Open(next, s, k))
    {
      assert PlacedOne(h, st, Block(past, s, k).intents[i], Open(st, s, k));
    }
    forall id | id in next.pending ensures exists s, k: nat :: Open(next, s, k) && Holds(h, past, s, k, id) {
      var s, k: nat :| Open(st, s, k) && Holds(h, past, s, k, id);
      assert Open(next, s, k);
    }
    forall id | id in next.assignedTo ensures exists s, k: nat :: !Open(next, s, k) && Holds(h, past, s, k, id) {
      var s, k: nat :| !Open(st, s, k) && Holds(h, past, s, k, id);
      assert !Open(next, s, k);
    }
  }

  lemma OneStream(cfg: Config, st: State, past: Past, s: int, x: Stream)
    requires StreamsOf(cfg, st, past) && 0 <= s < cfg.shardCount
    requires StreamOf(s, x, past.checkpoints[s], past.chains[s], st.lastAssigned[s])
    ensures StreamsOf(cfg, st.(streams := st.streams[s := x]), past)
  {
  }

  /** Buffering a receipt at a height not seen yet. */
  lemma BufferKeeps(h: Hasher, cfg: Config, st: State, past: Past, r: Receipt)
    requires Represents(h, cfg, st, past) && r.shardId in st.streams
    requires r.height !in st.streams[r.shardId].seen && r.height >= st.streams[r.shardId].nextExpectedHeight
    ensures Represents(h, cfg, Buffer(st, r), past)
  {
    var s := r.shardId;
    var x := st.streams[s];
    assert StreamOf(s, x, past.checkpoints[s], past.chains[s], st.lastAssigned[s]);
    var y := x.(buffered := x.buffered[r.height := r], seen := x.seen[r.height := r.blockHash]);
    assert StreamOf(s, y, past.checkpoints[s], past.chains[s], st.lastAssigned[s]);
    OneStream(cfg, st, past, s, y);
    OnlyStreams(h, cfg, st, Buffer(st, r).streams, past);
  }

  lemma DropKeeps(h: Hasher, cfg: Config, st: State, past: Past, s: int)
    requires Represents(h, cfg, st, past) && s in st.streams
    ensures Represents(h, cfg, Drop(st, s), past)
  {
    var x := st.streams[s];
    var y := x.(buffered := x.buffered - {x.nextExpectedHeight}, seen := x.seen - {x.nextExpectedHeight});
    assert StreamOf(s, x, past.checkpoints[s], past.chains[s], st.lastAssigned[s]);
    assert StreamOf(s, y, past.checkpoints[s], past.chains[s], st.lastAssigned[s]);
    OneStream(cfg, st, past, s, y);
    OnlyStreams(h, cfg, st, Drop(st, s).streams, past);
  }

  // ---- accepting the next block ----

  function AddPending(
    h: Hasher, pending: map<Hash, PaymentIntent>, intents: seq<PaymentIntent>): map<Hash, PaymentIntent> {
    if intents == [] then pending else
      var last := intents[|intents| - 1];
      AddPending(h, pending, intents[..|intents| - 1])[IdOf(h, last) := last]
  }

  function AcceptStream(x: Stream, r: Receipt): Stream {
    var k := x.nextExpectedHeight;
    x.(buffered := x.buffered - {k}, unassigned := x.unassigned[k := r], continuousHeight := k, continuousHash := r.blockHash, nextExpectedHeight := k + 1)
  }

  /** The next block of shard s joins its stream; its intents become pending. */
  function Accept(h: Hasher, st: State, s: int, now: int): State
    requires s in st.streams && st.streams[s].nextExpectedHeight in st.streams[s].buffered
  {
    var x := st.streams[s];
    var r := x.buffered[x.nextExpectedHeight];
    st.(streams := st.streams[s := AcceptStream(x, r)],
        pending := AddPending(h, st.pending, r.intents),
        openedAt := if r.intents != [] && st.openedAt.None? then Some(now) else st.openedAt)
  }

  ghost function Extend(past: Past, s: int, r: Receipt): Past
    requires 0 <= s < |past.chains|
  {
    past.(chains := past.chains[s := past.chains[s] + [r]])
  }

  /** validateReceiptIntents: every intent is of this shard, identified, and new to the manager and the receipt. */
  ghost predicate NewIntents(h: Hasher, st: State, r: Receipt) {
    Identified(h, r) && forall i :: 0 <= i < |r.intents| ==> IdOf(h, r.intents[i]) !in st.pending && IdOf(h, r.intents[i]) !in st.assignedTo
  }

  ghost predicate Acceptable(h: Hasher, st: State, s: int) {
    && s in st.streams && st.streams[s].nextExpectedHeight in st.streams[s].buffered
    && var r := st.streams[s].buffered[st.streams[s].nextExpectedHeight];
    r.parentHash == st.streams[s].continuousHash && NewIntents(h, st, r)
  }

  ghost predicate SomeId(h: Hasher, intents: seq<PaymentIntent>, id: Hash) {
    exists i :: 0 <= i < |intents| && IdOf(h, intents[i]) == id
  }

  lemma SomeIdSnoc(h: Hasher, intents: seq<PaymentIntent>, p: PaymentIntent, id: Hash)
    ensures SomeId(h, intents + [p], id) <==> SomeId(h, intents, id) || IdOf(h, p) == id
  {
    var all := intents + [p];
    if SomeId(h, intents, id) {
      var i :| 0 <= i < |intents| && IdOf(h, intents[i]) == id;
      assert all[i] == intents[i];
    }
    assert all[|intents|] == p;
    if SomeId(h, all, id) {
      var i :| 0 <= i < |all| && IdOf(h, all[i]) == id;
      assert i < |intents| ==> all[i] == intents[i];
    }
  }

  lemma {:induction false} AddPendingKeys(
    h: Hasher, pending: map<Hash, PaymentIntent>, intents: seq<PaymentIntent>, id: Hash)
    ensures id in AddPending(h, pending, intents) <==> id in pending || SomeId(h, intents, id)
    ensures id in pending && !SomeId(h, intents, id) ==> AddPending(h, pending, intents)[id] == pending[id]
    decreases |intents|
  {
    if intents != [] {
      var n := |intents| - 1;
      AddPendingKeys(h, pending, intents[..n], id);
      SomeIdSnoc(h, intents[..n], intents[n], id);
      assert intents == intents[..n] + [intents[n]];
    }
  }

  lemma {:induction false} AddPendingAt(
    h: Hasher, pending: map<Hash, PaymentIntent>, intents: seq<PaymentIntent>, i: nat)
    requires forall i, j :: 0 <= i < j < |intents| ==> IdOf(h, intents[i]) != IdOf(h, intents[j])
    requires i < |intents|
    ensures IdOf(h, intents[i]) in AddPending(h, pending, intents) && AddPending(h, pending, intents)[IdOf(h, intents[i])] == intents[i]
    decreases |intents|
  {
    var n := |intents| - 1;
    if i < n {
      assert intents[..n][i] == intents[i];
      AddPendingAt(h, pending, intents[..n], i);
    }
  }

  /** What one more accepted block leaves of the past. */
  lemma ExtendBlocks(past: Past, s: int, r: Receipt, t: int, k: nat)
    requires 0 <= s < |past.chains| && s < |past.checkpoints|
    ensures Accepted(past, t, k) ==> Accepted(Extend(past, s, r), t, k) && Block(Extend(past, s, r), t, k) == Block(past, t, k)
    ensures Accepted(Extend(past, s, r), t, k) && !Accepted(past, t, k) ==>
      t == s && k == Top(past.checkpoints[s], past.chains[s]) + 1 && Block(Extend(past, s, r), t, k) == r
    ensures var k' := Top(past.checkpoints[s], past.chains[s]) + 1; Accepted(Extend(past, s, r), s, k') && !Accepted(past, s, k')
  {
  }

  lemma ExtendHash(cp: Checkpoint, chain: seq<Receipt>, r: Receipt, k: nat)
    requires cp.height <= k <= Top(cp, chain)
    ensures HashAt(cp, chain + [r], k) == HashAt(cp, chain, k)
    ensures cp.height < k ==> BlockAt(cp, chain + [r], k) == BlockAt(cp, chain, k)
  {
  }

  lemma ExtendLinked(h: Hasher, s: int, cp: Checkpoint, chain: seq<Receipt>, r: Receipt)
    requires Linked(h, s, cp, chain) && r.shardId == s && r.height == Top(cp, chain) + 1
    requires r.parentHash == HashAt(cp, chain, Top(cp, chain)) && Identified(h, r)
    ensures Linked(h, s, cp, chain + [r])
  {
    var next := chain + [r];
    forall k: nat | cp.height < k <= Top(cp, next) ensures LinkedAt(h, s, cp, next, k) {
      ExtendHash(cp, chain, r, k - 1);
      if k <= Top(cp, chain) {
        ExtendHash(cp, chain, r, k);
        assert LinkedAt(h, s, cp, chain, k);
      }
    }
  }

  lemma AcceptStreamOf(s: int, x: Stream, cp: Checkpoint, chain: seq<Receipt>, last: nat, r: Receipt)
    requires StreamOf(s, x, cp, chain, last) && x.nextExpectedHeight in x.buffered
    requires r == x.buffered[x.nextExpectedHeight]
    ensures StreamOf(s, AcceptStream(x, r), cp, chain + [r], last)
  {
    var y := AcceptStream(x, r);
    var next := chain + [r];
    assert r.height == x.nextExpectedHeight == Top(cp, next);
    forall k: nat | k in y.unassigned ensures last < k <= Top(cp, next) && y.unassigned[k] == BlockAt(cp, next, k) {
      if k != r.height {
        ExtendHash(cp, chain, r, k);
      }
    }
    forall k: nat | cp.height <= k <= Top(cp, next) ensures k in y.seen && y.seen[k] == HashAt(cp, next, k) {
      if k <= Top(cp, chain) {
        ExtendHash(cp, chain, r, k);
      }
    }
  }

  lemma AcceptStreams(cfg: Config, st: State, past: Past, s: int, r: Receipt)
    requires StreamsOf(cfg, st, past) && 0 <= s < cfg.shardCount
    requires st.streams[s].nextExpectedHeight in st.streams[s].buffered
    requires r == st.streams[s].buffered[st.streams[s].nextExpectedHeight]
    ensures StreamsOf(cfg, st.(streams := st.streams[s := AcceptStream(st.streams[s], r)]), Extend(past, s, r))
  {
    var next, after := st.(streams := st.streams[s := AcceptStream(st.streams[s], r)]), Extend(past, s, r);
    forall u | 0 <= u < cfg.shardCount ensures StreamIs(next, after, u) {
      AcceptedStream(cfg, st, past, s, r, u);
    }
    StreamsAre(cfg, next, after);
  }

  ghost predicate StreamIs(st: State, past: Past, u: int) {
    && u in st.streams && u in st.lastAssigned && 0 <= u < |past.checkpoints| && u < |past.chains|
    && StreamOf(u, st.streams[u], past.checkpoints[u], past.chains[u], st.lastAssigned[u])
  }

  lemma StreamsAre(cfg: Config, st: State, past: Past)
    requires |past.checkpoints| == cfg.shardCount && |past.chains| == cfg.shardCount
    requires (forall s :: s in st.streams <==> 0 <= s < cfg.shardCount) && st.lastAssigned.Keys == st.streams.Keys
    requires forall u :: 0 <= u < cfg.shardCount ==> StreamIs(st, past, u)
    ensures StreamsOf(cfg, st, past)
  {
    forall s | 0 <= s < cfg.shardCount ensures StreamOf(s, st.streams[s], past.checkpoints[s], past.chains[s], st.lastAssigned[s]) {
      assert StreamIs(st, past, s);
    }
  }

  lemma AcceptedStream(cfg: Config, st: State, past: Past, s: int, r: Receipt, u: int)
    requires StreamsOf(cfg, st, past) && 0 <= s < cfg.shardCount && 0 <= u < cfg.shardCount
    requires st.streams[s].nextExpectedHeight in st.streams[s].buffered
    requires r == st.streams[s].buffered[st.streams[s].nextExpectedHeight]
    ensures StreamIs(st.(streams := st.streams[s := AcceptStream(st.streams[s], r)]), Extend(past, s, r), u)
  {
    OtherStream(cfg, st, past, u);
    if u == s {
      AcceptStreamOf(s, st.streams[s], past.checkpoints[s], past.chains[s], st.lastAssigned[s], r);
    }
  }

  lemma OtherStream(cfg: Config, st: State, past: Past, u: int)
    requires StreamsOf(cfg, st, past) && 0 <= u < cfg.shardCount
    ensures StreamOf(u, st.streams[u], past.checkpoints[u], past.chains[u], st.lastAssigned[u])
  {
  }

  lemma AcceptDisjoint(h: Hasher, st: State, past: Past, s: int, r: Receipt)
    requires Placed(h, st, past) && Disjoint(h, past) && 0 <= s < |past.chains| && s < |past.checkpoints|
    requires NewIntents(h, st, r)
    ensures Disjoint(h, Extend(past, s, r))
  {
    var after := Extend(past, s, r);
    forall a, k: nat, b, l: nat, id | Holds(h, after, a, k, id) && Holds(h, after, b, l, id) ensures a == b && k == l {
      HeldBefore(h, st, past, s, r, a, k, id);
      HeldBefore(h, st, past, s, r, b, l, id);
    }
  }

  /** An identifier of the extended past is the manager's already, or the new block's. */
  lemma HeldBefore(h: Hasher, st: State, past: Past, s: int, r: Receipt, a: int, k: nat, id: Hash)
    requires Placed(h, st, past) && 0 <= s < |past.chains| && s < |past.checkpoints| && NewIntents(h, st, r)
    requires Holds(h, Extend(past, s, r), a, k, id)
    ensures if id in st.pending || id in st.assignedTo then Holds(h, past, a, k, id)
            else a == s && k == Top(past.checkpoints[s], past.chains[s]) + 1 && HasId(h, r, id)
  {
    ExtendBlocks(past, s, r, a, k);
    if Accepted(past, a, k) {
      OldIdKnown(h, st, past, a, k, id);
    } else {
      NewIdUnknown(h, st, r, id);
    }
  }

  lemma OldIdKnown(h: Hasher, st: State, past: Past, s: int, k: nat, id: Hash)
    requires Placed(h, st, past) && Holds(h, past, s, k, id)
    ensures id in st.pending || id in st.assignedTo
  {
    var r := Block(past, s, k);
    var i :| 0 <= i < |r.intents| && IdOf(h, r.intents[i]) == id;
    assert PlacedOne(h, st, Block(past, s, k).intents[i], Open(st, s, k));
  }

  lemma NewIdUnknown(h: Hasher, st: State, r: Receipt, id: Hash)
    requires NewIntents(h, st, r) && HasId(h, r, id)
    ensures id !in st.pending && id !in st.assignedTo
  {
  }

  /** What accepting a block changes in the pending and assigned maps. */
  ghost predicate Accepts(h: Hasher, st: State, next: State, r: Receipt) {
    && NewIntents(h, st, r) && next.pending == AddPending(h, st.pending, r.intents)
    && next.assignedTo == st.assignedTo && next.lastAssigned == st.lastAssigned
  }

  lemma AcceptPlaced(h: Hasher, st: State, next: State, past: Past, s: int, r: Receipt)
    requires Placed(h, st, past) && Accepts(h, st, next, r) && 0 <= s < |past.chains| && s < |past.checkpoints|
    requires Open(st, s, Top(past.checkpoints[s], past.chains[s]) + 1)
    ensures Placed(h, next, Extend(past, s, r))
  {
    var after := Extend(past, s, r);
    forall a, k: nat, i | Accepted(after, a, k) && 0 <= i < |Block(after, a, k).intents|
      ensures PlacedOne(h, next, Block(after, a, k).intents[i], Open(next, a, k))
    {
      ExtendBlocks(past, s, r, a, k);
      if Accepted(past, a, k) {
        AcceptKeepsPlaced(h, st, next, past, r, a, k, i);
      } else {
        AddPendingAt(h, st.pending, r.intents, i);
      }
    }
    forall id | id in next.pending ensures exists a, k: nat :: Open(next, a, k) && Holds(h, after, a, k, id) {
      PendingHeld(h, st, next, past, s, r, id);
    }
    forall id | id in next.assignedTo ensures exists a, k: nat :: !Open(next, a, k) && Holds(h, after, a, k, id) {
      var a, k: nat :| !Open(st, a, k) && Holds(h, past, a, k, id);
      ExtendBlocks(past, s, r, a, k);
      assert !Open(next, a, k) && Holds(h, after, a, k, id);
    }
  }

  lemma PendingHeld(h: Hasher, st: State, next: State, past: Past, s: int, r: Receipt, id: Hash)
    requires Placed(h, st, past) && Accepts(h, st, next, r) && 0 <= s < |past.chains| && s < |past.checkpoints|
    requires Open(st, s, Top(past.checkpoints[s], past.chains[s]) + 1) && id in next.pending
    ensures exists a, k: nat :: Open(next, a, k) && Holds(h, Extend(past, s, r), a, k, id)
  {
    var after := Extend(past, s, r);
    AddPendingKeys(h, st.pending, r.intents, id);
    if id in st.pending {
      var a, k: nat :| Open(st, a, k) && Holds(h, past, a, k, id);
      ExtendBlocks(past, s, r, a, k);
      assert Open(next, a, k) && Holds(h, after, a, k, id);
    } else {
      var top := Top(past.checkpoints[s], past.chains[s]) + 1;
      ExtendBlocks(past, s, r, s, top);
      assert Open(next, s, top) && Holds(h, after, s, top, id);
    }
  }

  lemma AcceptKeepsPlaced(h: Hasher, st: State, next: State, past: Past, r: Receipt, a: int, k: nat, i: nat)
    requires Placed(h, st, past) && Accepted(past, a, k) && i < |Block(past, a, k).intents| && Accepts(h, st, next, r)
    ensures PlacedOne(h, next, Block(past, a, k).intents[i], Open(next, a, k))
  {
    var p := Block(past, a, k).intents[i];
    assert PlacedOne(h, st, Block(past, a, k).intents[i], Open(st, a, k));
    AddPendingKeys(h, st.pending, r.intents, IdOf(h, p));
  }

  lemma ExtendSegment(cp: Checkpoint, chain: seq<Receipt>, r: Receipt, a: nat, b: nat)
    requires cp.height <= a <= b <= Top(cp, chain)
    ensures Segment(cp, chain + [r], a, b) == Segment(cp, chain, a, b)
  {
  }

  lemma {:induction false} ExtendWindowBlocks(cfg: Config, past: Past, s: int, r: Receipt, i: nat, n: nat)
    requires CutsOk(cfg, past) && 0 <= s < cfg.shardCount && i < |past.history| && n <= cfg.shardCount
    requires CutsOk(cfg, Extend(past, s, r))
    ensures WindowBlocks(cfg, Extend(past, s, r), i, n) == WindowBlocks(cfg, past, i, n)
    decreases n
  {
    if n > 0 {
      ExtendWindowBlocks(cfg, past, s, r, i, n - 1);
      assert CutOk(cfg, past, i, n - 1);
      var cut := past.history[i].cuts[n - 1];
      ExtendSegment(past.checkpoints[n - 1], past.chains[n - 1], r, cut.previousHeight, cut.endHeight);
    }
  }

  lemma ExtendCuts(cfg: Config, past: Past, s: int, r: Receipt)
    requires CutsOk(cfg, past) && 0 <= s < cfg.shardCount
    ensures CutsOk(cfg, Extend(past, s, r))
  {
    var after := Extend(past, s, r);
    forall i: nat, t | i < |past.history| && 0 <= t < cfg.shardCount ensures CutOk(cfg, after, i, t) {
      assert CutOk(cfg, past, i, t);
      if t == s {
        ExtendHash(past.checkpoints[s], past.chains[s], r, past.history[i].cuts[s].endHeight);
      }
    }
  }

  lemma ExtendHistory(h: Hasher, cfg: Config, st: State, next: State, past: Past, s: int, r: Receipt)
    requires HistoryOk(h, cfg, st, past) && 0 <= s < cfg.shardCount && next.lastAssigned == st.lastAssigned
    ensures HistoryOk(h, cfg, next, Extend(past, s, r))
  {
    var after := Extend(past, s, r);
    ExtendCuts(cfg, past, s, r);
    forall i: nat | i < |past.history| ensures WindowOk(h, cfg, after, i) {
      assert WindowOk(h, cfg, past, i);
      ExtendWindowBlocks(cfg, past, s, r, i, cfg.shardCount);
    }
  }

  lemma ExtendAssigned(h: Hasher, cfg: Config, st: State, next: State, past: Past, s: int, r: Receipt)
    requires Placed(h, st, past) && AssignedWindows(h, cfg, st, past) && CutsShaped(cfg, past)
    requires 0 <= s < cfg.shardCount && Accepts(h, st, next, r)
    ensures AssignedWindows(h, cfg, next, Extend(past, s, r))
  {
    var after := Extend(past, s, r);
    forall a, k: nat, id | Holds(h, after, a, k, id) && !Open(next, a, k) && id in next.assignedTo ensures Covers(cfg, after, next.assignedTo[id], a, k) {
      HeldBefore(h, st, past, s, r, a, k, id);
      assert !Open(st, a, k);
      assert Covers(cfg, past, st.assignedTo[id], a, k);
    }
  }

  lemma ExtendAllLinked(h: Hasher, cfg: Config, st: State, past: Past, s: int, r: Receipt)
    requires Represents(h, cfg, st, past) && Acceptable(h, st, s)
    requires r == st.streams[s].buffered[st.streams[s].nextExpectedHeight]
    ensures forall t :: 0 <= t < cfg.shardCount ==> Linked(h, t, past.checkpoints[t], Extend(past, s, r).chains[t])
  {
    assert StreamOf(s, st.streams[s], past.checkpoints[s], past.chains[s], st.lastAssigned[s]);
    assert Linked(h, s, past.checkpoints[s], past.chains[s]);
    ExtendLinked(h, s, past.checkpoints[s], past.chains[s], r);
  }

  /** The parts of Represents that look at the past only through its history. */
  lemma AcceptQueue(cfg: Config, st: State, next: State, past: Past, s: int, r: Receipt)
    requires QueueOk(cfg, st, past) && AssignedOk(st) && 0 <= s < |past.chains|
    requires next.nextWindowId == st.nextWindowId && next.frozen == st.frozen && next.assignedTo == st.assignedTo
    ensures QueueOk(cfg, next, Extend(past, s, r)) && AssignedOk(next)
  {
  }

  lemma AcceptContents(h: Hasher, cfg: Config, st: State, next: State, past: Past, s: int, r: Receipt)
    requires Represents(h, cfg, st, past) && 0 <= s < cfg.shardCount && Accepts(h, st, next, r)
    ensures Disjoint(h, Extend(past, s, r)) && Placed(h, next, Extend(past, s, r))
  {
    assert StreamOf(s, st.streams[s], past.checkpoints[s], past.chains[s], st.lastAssigned[s]);
    AcceptDisjoint(h, st, past, s, r);
    AcceptPlaced(h, st, next, past, s, r);
  }

  /** Accepting the next block of a stream. */
  lemma AcceptKeeps(h: Hasher, cfg: Config, st: State, past: Past, s: int, now: int)
    requires Represents(h, cfg, st, past) && Acceptable(h, st, s)
    ensures Represents(h, cfg, Accept(h, st, s, now), Extend(past, s, st.streams[s].buffered[st.streams[s].nextExpectedHeight]))
  {
    var r := st.streams[s].buffered[st.streams[s].nextExpectedHeight];
    var next := Accept(h, st, s, now);
    var after := Extend(past, s, r);
    AcceptStreams(cfg, st, past, s, r);
    assert StreamsOf(cfg, next, after);
    ExtendAllLinked(h, cfg, st, past, s, r);
    AcceptContents(h, cfg, st, next, past, s, r);
    AcceptQueue(cfg, st, next, past, s, r);
    ExtendHistory(h, cfg, st, next, past, s, r);
    ExtendAssigned(h, cfg, st, next, past, s, r);
    AcceptOpened(h, st, s, now);
  }

  lemma AcceptOpened(h: Hasher, st: State, s: int, now: int)
    requires OpenedOk(st) && Acceptable(h, st, s)
    ensures OpenedOk(Accept(h, st, s, now))
  {
    var r := st.streams[s].buffered[st.streams[s].nextExpectedHeight];
    if r.intents != [] {
      AddPendingAt(h, st.pending, r.intents, 0);
    }
  }
}
