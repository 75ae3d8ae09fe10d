/** Every run of the window manager: its state stays true to its past, and arrival order does not matter to the watermarks. */
module WindowOrder {
  import opened Base
  import opened ByteStrings
  import opened Model
  import opened Windows
  import opened WindowSteps
  import opened WindowSeal
  import opened WindowRun

  // ---- what became of every delivered receipt ----

  /** At most one receipt per shard and height. */
  ghost predicate ConflictFree(delivered: set<Receipt>) {
    forall a, b :: a in delivered && b in delivered && a.shardId == b.shardId && a.height == b.height ==> a == b
  }

  ghost predicate Refused(h: Hasher, st: State, r: Receipt)
    requires r.shardId in st.streams
  {
    r.parentHash != st.streams[r.shardId].continuousHash || !NewIntents(h, st, r)
  }

  ghost predicate IsBuffered(st: State, r: Receipt)
    requires r.shardId in st.streams
  {
    r.height in st.streams[r.shardId].buffered && st.streams[r.shardId].buffered[r.height] == r
  }

  ghost predicate IsAccepted(past: Past, r: Receipt) {
    Accepted(past, r.shardId, r.height) && Block(past, r.shardId, r.height) == r
  }

  /** A delivered receipt is at or below the checkpoint, accepted, buffered, or unacceptable at the next height. */
  ghost predicate Settled(h: Hasher, st: State, past: Past, r: Receipt)
    requires r.shardId in st.streams && 0 <= r.shardId < |past.checkpoints|
  {
    || r.height <= past.checkpoints[r.shardId].height || IsAccepted(past, r) || IsBuffered(st, r)
    || (r.height == st.streams[r.shardId].nextExpectedHeight && Refused(h, st, r))
  }

  ghost predicate Tracked(h: Hasher, cfg: Config, st: State, past: Past, delivered: set<Receipt>)
    requires StreamsOf(cfg, st, past)
  {
    && (forall r :: r in delivered && 0 <= r.shardId < cfg.shardCount ==> Settled(h, st, past, r))
    && (forall s, k: nat :: Accepted(past, s, k) ==> Block(past, s, k) in delivered)
    && (forall s, k :: s in st.streams && k in st.streams[s].buffered ==> st.streams[s].buffered[k] in delivered)
  }

  // ---- each change keeps track ----

  /** The manager knows every identifier it knew. */
  ghost predicate KnowsMore(st: State, next: State) {
    forall id :: id in st.pending || id in st.assignedTo ==> id in next.pending || id in next.assignedTo
  }

  lemma RefusedStays(h: Hasher, st: State, next: State, r: Receipt)
    requires r.shardId in st.streams && r.shardId in next.streams && Refused(h, st, r) && KnowsMore(st, next)
    requires next.streams[r.shardId].continuousHash == st.streams[r.shardId].continuousHash
    ensures Refused(h, next, r)
  {
    if NewIntents(h, next, r) {
      forall i | 0 <= i < |r.intents| ensures IdOf(h, r.intents[i]) !in st.pending && IdOf(h, r.intents[i]) !in st.assignedTo {
        assert IdOf(h, r.intents[i]) !in next.pending && IdOf(h, r.intents[i]) !in next.assignedTo;
      }
    }
  }

  lemma AcceptKnows(h: Hasher, st: State, s: int, now: int)
    requires s in st.streams && st.streams[s].nextExpectedHeight in st.streams[s].buffered
    ensures KnowsMore(st, Accept(h, st, s, now))
  {
    var r := st.streams[s].buffered[st.streams[s].nextExpectedHeight];
    forall id | id in st.pending ensures id in Accept(h, st, s, now).pending {
      AddPendingKeys(h, st.pending, r.intents, id);
    }
  }

  /** The receipt delivered for the height just accepted is the accepted block. */
  lemma AcceptedIsDelivered(h: Hasher, cfg: Config, st: State, past: Past, delivered: set<Receipt>, s: int, r: Receipt)
    requires StreamsOf(cfg, st, past) && Acceptable(h, st, s) && Tracked(h, cfg, st, past, delivered)
    requires ConflictFree(delivered)
    requires r in delivered && r.shardId == s && r.height == st.streams[s].nextExpectedHeight
    ensures r == st.streams[s].buffered[st.streams[s].nextExpectedHeight]
  {
    var x := st.streams[s];
    assert StreamOf(s, x, past.checkpoints[s], past.chains[s], st.lastAssigned[s]);
    assert x.buffered[x.nextExpectedHeight] in delivered;
  }

  lemma AcceptSettled(
    h: Hasher, cfg: Config, st: State, past: Past, delivered: set<Receipt>, s: int, now: int, r: Receipt)
    requires StreamsOf(cfg, st, past) && Acceptable(h, st, s) && Tracked(h, cfg, st, past, delivered)
    requires ConflictFree(delivered)
    requires r in delivered && 0 <= r.shardId < cfg.shardCount
    ensures Settled(h, Accept(h, st, s, now), Extend(past, s, st.streams[s].buffered[st.streams[s].nextExpectedHeight]), r)
  {
    var x := st.streams[s];
    var r0 := x.buffered[x.nextExpectedHeight];
    var next, after := Accept(h, st, s, now), Extend(past, s, r0);
    assert Settled(h, st, past, r);
    ExtendBlocks(past, s, r0, r.shardId, r.height);
    if r.height <= past.checkpoints[r.shardId].height || IsAccepted(past, r) {
    } else if r.shardId == s && r.height == x.nextExpectedHeight {
      AcceptedIsDelivered(h, cfg, st, past, delivered, s, r);
      assert StreamOf(s, x, past.checkpoints[s], past.chains[s], st.lastAssigned[s]);
      assert IsAccepted(after, r);
    } else if IsBuffered(st, r) {
      assert IsBuffered(next, r);
    } else {
      AcceptKnows(h, st, s, now);
      RefusedStays(h, st, next, r);
    }
  }

  lemma AcceptTracked(h: Hasher, cfg: Config, st: State, past: Past, delivered: set<Receipt>, s: int, now: int)
    requires StreamsOf(cfg, st, past) && Acceptable(h, st, s) && Tracked(h, cfg, st, past, delivered)
    requires ConflictFree(delivered)
    requires StreamsOf(cfg, Accept(h, st, s, now), Extend(past, s, st.streams[s].buffered[st.streams[s].nextExpectedHeight]))
    ensures Tracked(h, cfg, Accept(h, st, s, now), Extend(past, s, st.streams[s].buffered[st.streams[s].nextExpectedHeight]), delivered)
  {
    var r0 := st.streams[s].buffered[st.streams[s].nextExpectedHeight];
    var next, after := Accept(h, st, s, now), Extend(past, s, r0);
    forall r | r in delivered && 0 <= r.shardId < cfg.shardCount ensures Settled(h, next, after, r) {
      AcceptSettled(h, cfg, st, past, delivered, s, now, r);
    }
    forall t, k: nat | Accepted(after, t, k) ensures Block(after, t, k) in delivered {
      ExtendBlocks(past, s, r0, t, k);
    }
    forall t, k | t in next.streams && k in next.streams[t].buffered ensures next.streams[t].buffered[k] in delivered {
      assert k in st.streams[t].buffered;
    }
  }

  lemma SameSettled(h: Hasher, st: State, next: State, past: Past, after: Past, r: Receipt)
    requires r.shardId in st.streams && r.shardId in next.streams && 0 <= r.shardId < |past.checkpoints|
    requires Settled(h, st, past, r)
    requires after.checkpoints == past.checkpoints && after.chains == past.chains && KnowsMore(st, next)
    requires SameBuffer(st.streams[r.shardId], next.streams[r.shardId])
    ensures Settled(h, next, after, r)
  {
    if IsAccepted(past, r) {
      assert IsAccepted(after, r);
    } else if r.height == st.streams[r.shardId].nextExpectedHeight && Refused(h, st, r) {
      RefusedStays(h, st, next, r);
    }
  }

  lemma SameTracked(h: Hasher, cfg: Config, st: State, next: State, past: Past, after: Past, delivered: set<Receipt>)
    requires StreamsOf(cfg, st, past) && StreamsOf(cfg, next, after) && Tracked(h, cfg, st, past, delivered)
    requires after.checkpoints == past.checkpoints && after.chains == past.chains && KnowsMore(st, next)
    requires SameBuffers(st, next)
    ensures Tracked(h, cfg, next, after, delivered)
  {
    forall r | r in delivered && 0 <= r.shardId < cfg.shardCount ensures Settled(h, next, after, r) {
      assert SameBuffer(st.streams[r.shardId], next.streams[r.shardId]);
      SameSettled(h, st, next, past, after, r);
    }
    forall s, k: nat | Accepted(after, s, k) ensures Block(after, s, k) in delivered {
      assert Accepted(past, s, k) && Block(past, s, k) == Block(after, s, k);
    }
    forall s, k | s in next.streams && k in next.streams[s].buffered ensures next.streams[s].buffered[k] in delivered {
      assert SameBuffer(st.streams[s], next.streams[s]);
    }
  }

  lemma SealKnows(cfg: Config, st: State, reason: string, now: int)
    requires HasShards(cfg, st) && st.openedAt.Some? && cfg.shardCount >= 0
    ensures KnowsMore(st, Seal(cfg, st, reason, now))
  {
    assert Seal(cfg, st, reason, now).assignedTo == Assigning(st.assignedTo, st.pending, st.nextWindowId);
  }

  lemma CloseKnows(cfg: Config, st: State, clock: Readings, t: nat)
    requires HasShards(cfg, st) && cfg.shardCount >= 0
    ensures KnowsMore(st, TryClose(cfg, st, clock, t).st)
  {
    if st.pending != map[] && st.openedAt.Some? && Due(cfg, st, clock(t)) {
      SealKnows(cfg, st, Reason(cfg, st), clock(t + 1));
      assert TryClose(cfg, st, clock, t).st == Seal(cfg, st, Reason(cfg, st), clock(t + 1));
    } else {
      assert TryClose(cfg, st, clock, t).st == st;
    }
  }

  lemma DropTracked(h: Hasher, cfg: Config, st: State, past: Past, delivered: set<Receipt>, s: int)
    requires StreamsOf(cfg, st, past) && s in st.streams && StreamsOf(cfg, Drop(st, s), past)
    requires Tracked(h, cfg, st, past, delivered)
    requires st.streams[s].nextExpectedHeight in st.streams[s].buffered && !Acceptable(h, st, s)
    ensures Tracked(h, cfg, Drop(st, s), past, delivered)
  {
    var next := Drop(st, s);
    forall r | r in delivered && 0 <= r.shardId < cfg.shardCount ensures Settled(h, next, past, r) {
      DropSettled(h, cfg, st, past, s, r);
    }
    forall t, k | t in next.streams && k in next.streams[t].buffered ensures next.streams[t].buffered[k] in delivered {
      assert k in st.streams[t].buffered;
    }
  }

  lemma DropSettled(h: Hasher, cfg: Config, st: State, past: Past, s: int, r: Receipt)
    requires StreamsOf(cfg, st, past) && 0 <= r.shardId < cfg.shardCount && Settled(h, st, past, r)
    requires s in st.streams && st.streams[s].nextExpectedHeight in st.streams[s].buffered && !Acceptable(h, st, s)
    ensures Settled(h, Drop(st, s), past, r)
  {
    DroppedSettled(h, st, past, s, r);
  }

  lemma DroppedSettled(h: Hasher, st: State, past: Past, s: int, r: Receipt)
    requires r.shardId in st.streams && 0 <= r.shardId < |past.checkpoints| && Settled(h, st, past, r)
    requires s in st.streams && st.streams[s].nextExpectedHeight in st.streams[s].buffered && !Acceptable(h, st, s)
    ensures Settled(h, Drop(st, s), past, r)
  {
    var next := Drop(st, s);
    if IsBuffered(st, r) && r.shardId == s && r.height == st.streams[s].nextExpectedHeight {
      assert Refused(h, st, r);
      RefusedStays(h, st, next, r);
    } else if IsBuffered(st, r) {
      assert IsBuffered(next, r);
    } else if r.height == st.streams[r.shardId].nextExpectedHeight && Refused(h, st, r) {
      RefusedStays(h, st, next, r);
    }
  }

  lemma BufferSettled(h: Hasher, st: State, past: Past, r: Receipt, q: Receipt)
    requires r.shardId in st.streams && q.shardId in st.streams && 0 <= q.shardId < |past.checkpoints|
    requires q == r || Settled(h, st, past, q)
    requires r.height !in st.streams[r.shardId].buffered
    ensures Settled(h, Buffer(st, r), past, q)
  {
    var next := Buffer(st, r);
    if q == r {
      assert IsBuffered(next, q);
    } else if IsBuffered(st, q) {
      assert IsBuffered(next, q);
    } else if q.height == st.streams[q.shardId].nextExpectedHeight && Refused(h, st, q) {
      RefusedStays(h, st, next, q);
    }
  }

  lemma SeenIfBuffered(cfg: Config, st: State, past: Past, r: Receipt)
    requires StreamsOf(cfg, st, past) && r.shardId in st.streams && r.height !in st.streams[r.shardId].seen
    ensures r.height !in st.streams[r.shardId].buffered
  {
    var s := r.shardId;
    assert StreamOf(s, st.streams[s], past.checkpoints[s], past.chains[s], st.lastAssigned[s]);
  }

  lemma BufferTracked(h: Hasher, cfg: Config, st: State, past: Past, delivered: set<Receipt>, r: Receipt)
    requires StreamsOf(cfg, st, past) && Tracked(h, cfg, st, past, delivered) && r.shardId in st.streams
    requires StreamsOf(cfg, Buffer(st, r), past)
    requires r.height !in st.streams[r.shardId].seen
    ensures Tracked(h, cfg, Buffer(st, r), past, delivered + {r})
  {
    var next := Buffer(st, r);
    SeenIfBuffered(cfg, st, past, r);
    forall q | q in delivered + {r} && 0 <= q.shardId < cfg.shardCount ensures Settled(h, next, past, q) {
      BufferSettled(h, st, past, r, q);
    }
    BufferDelivered(st, delivered, r);
  }

  lemma BufferDelivered(st: State, delivered: set<Receipt>, r: Receipt)
    requires r.shardId in st.streams
    requires forall s, k :: s in st.streams && k in st.streams[s].buffered ==> st.streams[s].buffered[k] in delivered
    ensures var next := Buffer(st, r);
      forall s, k :: s in next.streams && k in next.streams[s].buffered ==> next.streams[s].buffered[k] in delivered + {r}
  {
  }

  /** A receipt the manager turns away at the door needs no further tracking. */
  lemma TurnedAwaySettled(h: Hasher, cfg: Config, st: State, past: Past, delivered: set<Receipt>, r: Receipt)
    requires Represents(h, cfg, st, past) && Tracked(h, cfg, st, past, delivered) && ConflictFree(delivered + {r})
    requires r.shardId in st.streams ==> r.height in st.streams[r.shardId].seen || r.height < st.streams[r.shardId].nextExpectedHeight
    ensures Tracked(h, cfg, st, past, delivered + {r})
  {
    if 0 <= r.shardId < cfg.shardCount {
      var s := r.shardId;
      var x := st.streams[s];
      assert StreamOf(s, x, past.checkpoints[s], past.chains[s], st.lastAssigned[s]);
      if r.height > past.checkpoints[s].height {
        if r.height <= x.continuousHeight {
          assert Accepted(past, s, r.height) && Block(past, s, r.height) in delivered;
          BlockIdentified(h, cfg, st, past, s, r.height);
        } else {
          assert x.buffered[r.height] in delivered;
        }
      }
    }
  }

  // ---- every operation keeps the state true to its past ----

  /** The state is true to its past, and keeps track of a conflict-free set of delivered receipts. */
  ghost predicate Follows(
    h: Hasher, cfg: Config, st: State, past: Past, clock: Readings, t: nat, delivered: set<Receipt>) {
    Good(h, cfg, st, past, clock, t) && (ConflictFree(delivered) ==> Tracked(h, cfg, st, past, delivered))
  }

  lemma CloseFollows(h: Hasher, cfg: Config, st: State, past: Past, clock: Readings, t: nat, delivered: set<Receipt>)
    requires Follows(h, cfg, st, past, clock, t, delivered)
    ensures var c := TryClose(cfg, st, clock, t); Follows(h, cfg, c.st, ClosedPast(past, c), clock, c.t, delivered)
  {
    var c := TryClose(cfg, st, clock, t);
    TryCloseKeeps(h, cfg, st, past, clock, t);
    CloseKnows(cfg, st, clock, t);
    if ConflictFree(delivered) {
      SameTracked(h, cfg, st, c.st, past, ClosedPast(past, c), delivered);
    }
  }

  lemma AcceptGood(h: Hasher, cfg: Config, st: State, past: Past, clock: Readings, t: nat, s: int)
    requires Good(h, cfg, st, past, clock, t) && Acceptable(h, st, s)
    ensures var r := st.streams[s].buffered[st.streams[s].nextExpectedHeight];
      var next := Accept(h, st, s, clock(t));
      Good(h, cfg, next, Extend(past, s, r), clock, if next.openedAt != st.openedAt then t + 1 else t)
  {
    AcceptKeeps(h, cfg, st, past, s, clock(t));
    AcceptTimely(h, st, clock, t, s);
  }

  lemma AcceptTimely(h: Hasher, st: State, clock: Readings, t: nat, s: int)
    requires Timely(st, clock, t) && HeightsBelow(st) && Acceptable(h, st, s)
    ensures var next := Accept(h, st, s, clock(t)); Timely(next, clock, if next.openedAt != st.openedAt then t + 1 else t) && HeightsBelow(next)
  {
    var next := Accept(h, st, s, clock(t));
    assert clock(t) <= clock(t + 1);
    forall u, k | u in next.streams && k in next.streams[u].buffered ensures k < TWO_64 - 1 {
      assert k in st.streams[u].buffered;
    }
  }

  lemma AcceptFollows(
    h: Hasher, cfg: Config, st: State, past: Past, clock: Readings, t: nat, s: int, delivered: set<Receipt>)
    requires Follows(h, cfg, st, past, clock, t, delivered) && Acceptable(h, st, s)
    ensures var r := st.streams[s].buffered[st.streams[s].nextExpectedHeight];
      var next := Accept(h, st, s, clock(t));
      Follows(h, cfg, next, Extend(past, s, r), clock, if next.openedAt != st.openedAt then t + 1 else t, delivered)
  {
    AcceptGood(h, cfg, st, past, clock, t, s);
    if ConflictFree(delivered) {
      AcceptTracked(h, cfg, st, past, delivered, s, clock(t));
    }
  }

  lemma DropFollows(
    h: Hasher, cfg: Config, st: State, past: Past, clock: Readings, t: nat, s: int, delivered: set<Receipt>)
    requires Follows(h, cfg, st, past, clock, t, delivered) && s in st.streams
    requires st.streams[s].nextExpectedHeight in st.streams[s].buffered
    requires !Acceptable(h, st, s)
    ensures Follows(h, cfg, Drop(st, s), past, clock, t, delivered)
  {
    DropKeeps(h, cfg, st, past, s);
    DropTimely(st, clock, t, s);
    if ConflictFree(delivered) {
      DropTracked(h, cfg, st, past, delivered, s);
    }
  }

  lemma DropTimely(st: State, clock: Readings, t: nat, s: int)
    requires Timely(st, clock, t) && HeightsBelow(st) && s in st.streams
    ensures Timely(Drop(st, s), clock, t) && HeightsBelow(Drop(st, s))
  {
    var next := Drop(st, s);
    forall u, k | u in next.streams && k in next.streams[u].buffered ensures k < TWO_64 - 1 {
      assert k in st.streams[u].buffered;
    }
  }

  /** Streams other than s have the buffers they had. */
  ghost predicate OthersSame(a: State, b: State, s: int) {
    a.streams.Keys == b.streams.Keys && forall u :: u in a.streams && u != s ==> SameBuffer(a.streams[u], b.streams[u])
  }

  lemma OthersSameChain(a: State, b: State, c: State, s: int)
    requires OthersSame(a, b, s) && OthersSame(b, c, s)
    ensures OthersSame(a, c, s)
  {
    forall u | u in a.streams && u != s ensures SameBuffer(a.streams[u], c.streams[u]) {
      assert SameBuffer(a.streams[u], b.streams[u]) && SameBuffer(b.streams[u], c.streams[u]);
    }
  }

  lemma ExtendGrows(past: Past, s: int, r: Receipt, c: Step)
    requires 0 <= s < |past.chains|
    ensures Grows(past, ClosedPast(Extend(past, s, r), c))
  {
  }

  lemma GrowsChain(a: Past, b: Past, c: Past)
    requires Grows(a, b) && Grows(b, c)
    ensures Grows(a, c)
  {
  }

  lemma TurnFollows(
    h: Hasher, cfg: Config, st: State, past: Past, clock: Readings, t: nat, s: int, delivered: set<Receipt>)
    returns (after: Past)
    requires Follows(h, cfg, st, past, clock, t, delivered) && Acceptable(h, st, s) && 0 <= s < cfg.shardCount
    ensures var c := AcceptAndClose(h, cfg, st, s, clock, t); Follows(h, cfg, c.st, after, clock, c.t, delivered) && OthersSame(st, c.st, s)
    ensures Grows(past, after)
  {
    var r := st.streams[s].buffered[st.streams[s].nextExpectedHeight];
    var next := Accept(h, st, s, clock(t));
    var t1 := if next.openedAt != st.openedAt then t + 1 else t;
    AcceptFollows(h, cfg, st, past, clock, t, s, delivered);
    AcceptOthers(h, st, s, clock(t));
    CloseFollows(h, cfg, next, Extend(past, s, r), clock, t1, delivered);
    var c := TryClose(cfg, next, clock, t1);
    after := ClosedPast(Extend(past, s, r), c);
    ExtendGrows(past, s, r, c);
    OthersSameChain(st, next, c.st, s);
  }

  lemma AcceptOthers(h: Hasher, st: State, s: int, now: int)
    requires Acceptable(h, st, s)
    ensures OthersSame(st, Accept(h, st, s, now), s)
  {
  }

  /** Advance turns again after an acceptable block, and stops after any other. */
  lemma AdvanceTurns(h: Hasher, cfg: Config, st: State, s: int, clock: Readings, t: nat, first: Option<FrozenWindow>)
    requires HasShards(cfg, st) && 0 <= s < cfg.shardCount && st.streams[s].nextExpectedHeight in st.streams[s].buffered
    ensures !Acceptable(h, st, s) ==> Advance(h, cfg, st, s, clock, t, first).st == Drop(st, s) && Advance(h, cfg, st, s, clock, t, first).t == t
    ensures Acceptable(h, st, s) ==> var c := AcceptAndClose(h, cfg, st, s, clock, t);
      && Advance(h, cfg, st, s, clock, t, first) == Advance(h, cfg, c.st, s, clock, c.t, if first.None? then c.window else first)
      && |c.st.streams[s].buffered| < |st.streams[s].buffered|
  {
    var x := st.streams[s];
    NewIntentsIff(h, st, x.buffered[x.nextExpectedHeight]);
    assert (x.buffered - {x.nextExpectedHeight}).Keys == x.buffered.Keys - {x.nextExpectedHeight};
    assert |x.buffered.Keys| == |x.buffered| && |(x.buffered - {x.nextExpectedHeight}).Keys| == |x.buffered - {x.nextExpectedHeight}|;
  }

  /** Where draining the buffer of stream s may leave a manager. */
  ghost predicate Drained(
    h: Hasher, cfg: Config, st: State, past: Past, s: int, clock: Readings, delivered: set<Receipt>, a: Step,
    after: Past) {
    && Follows(h, cfg, a.st, after, clock, a.t, delivered) && OthersSame(st, a.st, s) && Grows(past, after)
    && s in a.st.streams && a.st.streams[s].nextExpectedHeight !in a.st.streams[s].buffered
  }

  lemma DrainedAgain(
    h: Hasher, cfg: Config, st: State, past: Past, mid: State, after: Past, s: int, clock: Readings,
    delivered: set<Receipt>, a: Step, last: Past)
    requires OthersSame(st, mid, s) && Grows(past, after) && Drained(h, cfg, mid, after, s, clock, delivered, a, last)
    ensures Drained(h, cfg, st, past, s, clock, delivered, a, last)
  {
    GrowsChain(past, after, last);
    OthersSameChain(st, mid, a.st, s);
  }

  lemma DropDrains(
    h: Hasher, cfg: Config, st: State, past: Past, s: int, clock: Readings, t: nat, delivered: set<Receipt>,
    a: Step)
    requires Follows(h, cfg, st, past, clock, t, delivered) && s in st.streams
    requires st.streams[s].nextExpectedHeight in st.streams[s].buffered
    requires !Acceptable(h, st, s) && a.st == Drop(st, s) && a.t == t
    ensures Drained(h, cfg, st, past, s, clock, delivered, a, past)
  {
    DropFollows(h, cfg, st, past, clock, t, s, delivered);
  }

  lemma {:induction false} AdvanceFollows(
    h: Hasher, cfg: Config, st: State, past: Past, s: int, clock: Readings, t: nat, first: Option<FrozenWindow>,
    delivered: set<Receipt>)
    returns (after: Past)
    requires HasShards(cfg, st) && Follows(h, cfg, st, past, clock, t, delivered) && 0 <= s < cfg.shardCount
    ensures Drained(h, cfg, st, past, s, clock, delivered, Advance(h, cfg, st, s, clock, t, first), after)
    decreases |st.streams[s].buffered|
  {
    var a := Advance(h, cfg, st, s, clock, t, first);
    after := past;
    if st.streams[s].nextExpectedHeight in st.streams[s].buffered {
      AdvanceTurns(h, cfg, st, s, clock, t, first);
      if Acceptable(h, st, s) {
        var c := AcceptAndClose(h, cfg, st, s, clock, t);
        var f := if first.None? then c.window else first;
        var mid := TurnFollows(h, cfg, st, past, clock, t, s, delivered);
        after := AdvanceFollows(h, cfg, c.st, mid, s, clock, c.t, f, delivered);
        DrainedAgain(h, cfg, st, past, c.st, mid, s, clock, delivered, a, after);
      } else {
        DropDrains(h, cfg, st, past, s, clock, t, delivered, a);
      }
    }
  }

  // ---- a delivered receipt ----

  lemma BufferFollows(
    h: Hasher, cfg: Config, st: State, past: Past, clock: Readings, t: nat, delivered: set<Receipt>, r: Receipt)
    requires Follows(h, cfg, st, past, clock, t, delivered) && r.shardId in st.streams && r.height < TWO_64 - 1
    requires r.height !in st.streams[r.shardId].seen && r.height >= st.streams[r.shardId].nextExpectedHeight
    ensures Follows(h, cfg, Buffer(st, r), past, clock, t, delivered + {r})
  {
    BufferKeeps(h, cfg, st, past, r);
    BufferTimely(st, clock, t, r);
    if ConflictFree(delivered + {r}) {
      assert ConflictFree(delivered);
      BufferTracked(h, cfg, st, past, delivered, r);
    }
  }

  lemma BufferTimely(st: State, clock: Readings, t: nat, r: Receipt)
    requires Timely(st, clock, t) && HeightsBelow(st) && r.shardId in st.streams && r.height < TWO_64 - 1
    ensures Timely(Buffer(st, r), clock, t) && HeightsBelow(Buffer(st, r))
  {
    var next := Buffer(st, r);
    forall u, k | u in next.streams && k in next.streams[u].buffered ensures k < TWO_64 - 1 {
      assert (u == r.shardId && k == r.height) || k in st.streams[u].buffered;
    }
  }

  lemma TurnedAwayFollows(
    h: Hasher, cfg: Config, st: State, past: Past, clock: Readings, t: nat, delivered: set<Receipt>, r: Receipt)
    requires Follows(h, cfg, st, past, clock, t, delivered)
    requires r.shardId in st.streams ==> r.height in st.streams[r.shardId].seen || r.height < st.streams[r.shardId].nextExpectedHeight
    ensures Follows(h, cfg, st, past, clock, t, delivered + {r})
  {
    if ConflictFree(delivered + {r}) {
      assert ConflictFree(delivered);
      TurnedAwaySettled(h, cfg, st, past, delivered, r);
    }
  }

  lemma QuietAfter(st: State, next: State, s: int)
    requires Quiet(st) && OthersSame(st, next, s) && s in next.streams
    requires next.streams[s].nextExpectedHeight !in next.streams[s].buffered
    ensures Quiet(next)
  {
    forall u | u in next.streams ensures next.streams[u].nextExpectedHeight !in next.streams[u].buffered {
      if u != s {
        assert SameBuffer(st.streams[u], next.streams[u]);
      }
    }
  }

  lemma QuietClosed(st: State, next: State)
    requires Quiet(st) && SameBuffers(st, next)
    ensures Quiet(next)
  {
    forall u | u in next.streams ensures next.streams[u].nextExpectedHeight !in next.streams[u].buffered {
      assert SameBuffer(st.streams[u], next.streams[u]);
    }
  }

  /** What holds of a manager between calls. */
  ghost predicate Between(
    h: Hasher, cfg: Config, st: State, past: Past, clock: Readings, t: nat, delivered: set<Receipt>) {
    Follows(h, cfg, st, past, clock, t, delivered) && Quiet(st) && OnlyShards(cfg, st)
  }

  lemma StreamsOnly(cfg: Config, st: State, past: Past)
    requires StreamsOf(cfg, st, past)
    ensures OnlyShards(cfg, st)
  {
  }

  lemma CloseBetween(h: Hasher, cfg: Config, st: State, past: Past, clock: Readings, t: nat, delivered: set<Receipt>)
    requires Between(h, cfg, st, past, clock, t, delivered)
    ensures var c := TryClose(cfg, st, clock, t); Between(h, cfg, c.st, ClosedPast(past, c), clock, c.t, delivered)
  {
    var c := TryClose(cfg, st, clock, t);
    CloseFollows(h, cfg, st, past, clock, t, delivered);
    QuietClosed(st, c.st);
    StreamsOnly(cfg, c.st, ClosedPast(past, c));
  }

  /** The pasts a manager between calls may have. */
  ghost function PastsOf(
    h: Hasher, cfg: Config, clock: Readings, delivered: set<Receipt>, st: State, t: nat): iset<Past> {
    iset past | Between(h, cfg, st, past, clock, t, delivered)
  }

  lemma CloseIn(h: Hasher, cfg: Config, st: State, past: Past, clock: Readings, t: nat, delivered: set<Receipt>)
    requires past in PastsOf(h, cfg, clock, delivered, st, t) && HasShards(cfg, st) && cfg.shardCount >= 0
    ensures var c := TryClose(cfg, st, clock, t); ClosedPast(past, c) in PastsOf(h, cfg, clock, delivered, c.st, c.t) && Grows(past, ClosedPast(past, c))
  {
    CloseBetween(h, cfg, st, past, clock, t, delivered);
  }

  /** A receipt that is buffered, and whatever it lets the manager accept. */
  lemma BufferedBetween(
    h: Hasher, cfg: Config, st: State, past: Past, clock: Readings, t: nat, delivered: set<Receipt>, r: Receipt)
    returns (after: Past)
    requires past in PastsOf(h, cfg, clock, delivered, st, t) && r.height < TWO_64 - 1 && NewHeight(st, r)
    requires HasShards(cfg, Buffer(st, r))
    requires 0 <= r.shardId < cfg.shardCount
    ensures var a := Advance(h, cfg, Buffer(st, r), r.shardId, clock, t, None); after in PastsOf(h, cfg, clock, delivered + {r}, a.st, a.t)
    ensures Grows(past, after)
  {
    BufferedFollows(h, cfg, st, past, clock, t, delivered, r);
    after := AdvanceFollows(h, cfg, Buffer(st, r), past, r.shardId, clock, t, None, delivered + {r});
    var a := Advance(h, cfg, Buffer(st, r), r.shardId, clock, t, None);
    QuietAdvanced(st, r, a.st);
    QuietPast(h, cfg, a.st, after, clock, a.t, delivered + {r});
  }

  lemma QuietAdvanced(st: State, r: Receipt, next: State)
    requires Quiet(st) && r.shardId in st.streams && OthersSame(Buffer(st, r), next, r.shardId)
    requires r.shardId in next.streams
    requires next.streams[r.shardId].nextExpectedHeight !in next.streams[r.shardId].buffered
    ensures Quiet(next)
  {
    OthersSameChain(st, Buffer(st, r), next, r.shardId);
    QuietAfter(st, next, r.shardId);
  }

  lemma BufferedFollows(
    h: Hasher, cfg: Config, st: State, past: Past, clock: Readings, t: nat, delivered: set<Receipt>, r: Receipt)
    requires past in PastsOf(h, cfg, clock, delivered, st, t) && r.height < TWO_64 - 1 && NewHeight(st, r)
    ensures Follows(h, cfg, Buffer(st, r), past, clock, t, delivered + {r}) && Quiet(st)
  {
    BufferFollows(h, cfg, st, past, clock, t, delivered, r);
  }

  lemma QuietPast(h: Hasher, cfg: Config, st: State, past: Past, clock: Readings, t: nat, delivered: set<Receipt>)
    requires Follows(h, cfg, st, past, clock, t, delivered) && Quiet(st)
    ensures past in PastsOf(h, cfg, clock, delivered, st, t)
  {
    StreamsOnly(cfg, st, past);
  }

  lemma ReceiveNew(
    h: Hasher, cfg: Config, st: State, past: Past, clock: Readings, t: nat, delivered: set<Receipt>, r: Receipt)
    returns (after: Past)
    requires HasShards(cfg, st) && OnlyShards(cfg, st) && cfg.shardCount >= 0 && r.height < TWO_64 - 1
    requires NewHeight(st, r)
    requires past in PastsOf(h, cfg, clock, delivered, st, t)
    ensures var a := Receive(h, cfg, st, r, clock, t); after in PastsOf(h, cfg, clock, delivered + {r}, a.st, a.t)
    ensures Grows(past, after)
  {
    ReceiveIs(h, cfg, st, r, clock, t);
    var b := Advance(h, cfg, Buffer(st, r), r.shardId, clock, t, None);
    after := BufferedBetween(h, cfg, st, past, clock, t, delivered, r);
    if b.error.None? {
      CloseIn(h, cfg, b.st, after, clock, b.t, delivered + {r});
      GrowsOn(past, after, ClosedPast(after, TryClose(cfg, b.st, clock, b.t)));
      after := ClosedPast(after, TryClose(cfg, b.st, clock, b.t));
    }
  }

  lemma GrowsOn(a: Past, b: Past, c: Past)
    requires Grows(a, b) && Grows(b, c)
    ensures Grows(a, c)
  {
  }

  lemma KnownIn(
    h: Hasher, cfg: Config, st: State, past: Past, clock: Readings, t: nat, delivered: set<Receipt>, r: Receipt)
    requires past in PastsOf(h, cfg, clock, delivered, st, t) && !NewHeight(st, r)
    ensures past in PastsOf(h, cfg, clock, delivered + {r}, st, t)
  {
    KnownHeight(cfg, st, past, r);
    TurnedAwayFollows(h, cfg, st, past, clock, t, delivered, r);
  }

  lemma ReceiveKnown(
    h: Hasher, cfg: Config, st: State, past: Past, clock: Readings, t: nat, delivered: set<Receipt>, r: Receipt)
    returns (after: Past)
    requires HasShards(cfg, st) && OnlyShards(cfg, st) && cfg.shardCount >= 0 && !NewHeight(st, r)
    requires past in PastsOf(h, cfg, clock, delivered, st, t)
    ensures var a := Receive(h, cfg, st, r, clock, t); after in PastsOf(h, cfg, clock, delivered + {r}, a.st, a.t)
    ensures Grows(past, after)
  {
    after := past;
    KnownIn(h, cfg, st, past, clock, t, delivered, r);
    if r.shardId in st.streams && r.height > 0 && r.height in st.streams[r.shardId].seen && st.streams[r.shardId].seen[r.height] == r.blockHash {
      CloseIn(h, cfg, st, past, clock, t, delivered + {r});
      after := ClosedPast(past, TryClose(cfg, st, clock, t));
    }
  }

  /** Accepted or rejected, a receipt leaves the manager true to a past that only grew. */
  lemma ReceiveKeeps(
    h: Hasher, cfg: Config, st: State, past: Past, clock: Readings, t: nat, delivered: set<Receipt>, r: Receipt)
    returns (after: Past)
    requires HasShards(cfg, st) && OnlyShards(cfg, st) && Between(h, cfg, st, past, clock, t, delivered)
    requires r.height < TWO_64 - 1
    ensures var a := Receive(h, cfg, st, r, clock, t); Between(h, cfg, a.st, after, clock, a.t, delivered + {r})
    ensures Grows(past, after)
  {
    if NewHeight(st, r) {
      after := ReceiveNew(h, cfg, st, past, clock, t, delivered, r);
    } else {
      after := ReceiveKnown(h, cfg, st, past, clock, t, delivered, r);
    }
  }

  ghost predicate NewHeight(st: State, r: Receipt) {
    && r.shardId in st.streams && r.height > 0 && r.height !in st.streams[r.shardId].seen && r.height >= st.streams[r.shardId].nextExpectedHeight
  }

  lemma KnownHeight(cfg: Config, st: State, past: Past, r: Receipt)
    requires StreamsOf(cfg, st, past) && !NewHeight(st, r)
    ensures r.shardId in st.streams ==> r.height in st.streams[r.shardId].seen || r.height < st.streams[r.shardId].nextExpectedHeight
  {
  }

  /** Acknowledging the oldest window disturbs nothing. */
  lemma AckBetween(h: Hasher, cfg: Config, st: State, past: Past, clock: Readings, t: nat, delivered: set<Receipt>)
    requires Between(h, cfg, st, past, clock, t, delivered) && st.frozen != []
    ensures Between(h, cfg, st.(frozen := st.frozen[1..]), past, clock, t, delivered)
    ensures st.frozen[0].windowId + |st.frozen| == |past.history| + 1
  {
    var next := st.(frozen := st.frozen[1..]);
    AckKeeps(h, cfg, st, past);
    if ConflictFree(delivered) {
      SameTracked(h, cfg, st, next, past, past, delivered);
    }
  }

  lemma ReceiveIs(h: Hasher, cfg: Config, st: State, r: Receipt, clock: Readings, t: nat)
    requires HasShards(cfg, st) && OnlyShards(cfg, st) && cfg.shardCount >= 0 && NewHeight(st, r)
    ensures HasShards(cfg, Buffer(st, r))
    ensures var a := Advance(h, cfg, Buffer(st, r), r.shardId, clock, t, None);
      HasShards(cfg, a.st) && Receive(h, cfg, st, r, clock, t) ==
        if a.error.Some? then a else (var c := TryClose(cfg, a.st, clock, a.t); if a.window.Some? then c.(window := a.window) else c)
  {
    AdvanceShards(h, cfg, Buffer(st, r), r.shardId, clock, t, None);
  }

  // ---- order of arrival ----

  /** Every delivered intent's identifier encoding. */
  ghost function Encodings(delivered: set<Receipt>): iset<Bytes> {
    iset r, i | r in delivered && 0 <= i < |r.intents| && CanonicalBytes(r.intents[i]).Ok? :: CanonicalBytes(r.intents[i]).value
  }

  /** Under a collision-free hash an identifier names its shard. */
  lemma IdNamesShard(h: Hasher, delivered: set<Receipt>, a: Receipt, b: Receipt, id: Hash)
    requires a in delivered && b in delivered && Identified(h, a) && Identified(h, b) && HasId(h, a, id)
    requires HasId(h, b, id)
    requires CollisionFree(h, Encodings(delivered))
    ensures a.shardId == b.shardId
  {
    var i :| 0 <= i < |a.intents| && IdOf(h, a.intents[i]) == id;
    var j :| 0 <= j < |b.intents| && IdOf(h, b.intents[j]) == id;
    assert IntentId(h, a.intents[i]) == Ok(id) && IntentId(h, b.intents[j]) == Ok(id);
    assert CanonicalBytes(a.intents[i]).Ok? && CanonicalBytes(b.intents[j]).Ok?;
    assert CanonicalBytes(a.intents[i]).value in Encodings(delivered) && CanonicalBytes(b.intents[j]).value in Encodings(delivered);
    IntentIdInjective(h, a.intents[i], b.intents[j], Encodings(delivered));
    assert Unsigned(a.intents[i]).sourceShard == Unsigned(b.intents[j]).sourceShard;
  }

  /** Two managers that started from the same checkpoints and were delivered the same receipts. */
  ghost predicate Twins(h: Hasher, cfg: Config, a: State, pa: Past, b: State, pb: Past, delivered: set<Receipt>) {
    && Represents(h, cfg, a, pa) && Quiet(a) && Tracked(h, cfg, a, pa, delivered)
    && Represents(h, cfg, b, pb) && Quiet(b) && Tracked(h, cfg, b, pb, delivered)
    && pa.checkpoints == pb.checkpoints && ConflictFree(delivered) && CollisionFree(h, Encodings(delivered))
  }

  /** Where both accepted a height, they accepted the same block. */
  lemma TwinBlocks(
    h: Hasher, cfg: Config, a: State, pa: Past, b: State, pb: Past, delivered: set<Receipt>, s: int, k: nat)
    requires Twins(h, cfg, a, pa, b, pb, delivered) && Accepted(pa, s, k) && Accepted(pb, s, k)
    ensures Block(pa, s, k) == Block(pb, s, k)
  {
    BlockIdentified(h, cfg, a, pa, s, k);
    BlockIdentified(h, cfg, b, pb, s, k);
    assert Block(pa, s, k) in delivered && Block(pb, s, k) in delivered;
  }

  lemma TwinNext(h: Hasher, cfg: Config, a: State, pa: Past, s: int)
    requires Represents(h, cfg, a, pa) && 0 <= s < cfg.shardCount
    ensures s in a.streams && |pa.checkpoints| == |pa.chains| == cfg.shardCount
    ensures var x, cp, chain := a.streams[s], pa.checkpoints[s], pa.chains[s];
      x.nextExpectedHeight == Top(cp, chain) + 1 && x.continuousHash == HashAt(cp, chain, Top(cp, chain))
  {
    assert StreamOf(s, a.streams[s], pa.checkpoints[s], pa.chains[s], a.lastAssigned[s]);
  }

  lemma TwinLinked(h: Hasher, cfg: Config, b: State, pb: Past, s: int, k: nat)
    requires Represents(h, cfg, b, pb) && 0 <= s < cfg.shardCount && Accepted(pb, s, k)
    ensures LinkedAt(h, s, pb.checkpoints[s], pb.chains[s], k)
  {
    assert Linked(h, s, pb.checkpoints[s], pb.chains[s]);
  }

  lemma TwinHashes(h: Hasher, cfg: Config, a: State, pa: Past, b: State, pb: Past, delivered: set<Receipt>, s: int)
    requires Twins(h, cfg, a, pa, b, pb, delivered) && 0 <= s < cfg.shardCount
    requires Accepted(pb, s, a.streams[s].nextExpectedHeight)
    ensures Block(pb, s, a.streams[s].nextExpectedHeight).parentHash == a.streams[s].continuousHash
  {
    var k := a.streams[s].nextExpectedHeight;
    TwinNext(h, cfg, a, pa, s);
    TwinLinked(h, cfg, b, pb, s, k);
    if k - 1 > pa.checkpoints[s].height {
      TwinBlocks(h, cfg, a, pa, b, pb, delivered, s, k - 1);
    }
  }

  /** A block the other manager accepted at this one's next height brings only new intents. */
  lemma TwinNew(h: Hasher, cfg: Config, a: State, pa: Past, b: State, pb: Past, delivered: set<Receipt>, s: int)
    requires Twins(h, cfg, a, pa, b, pb, delivered) && 0 <= s < cfg.shardCount
    requires Accepted(pb, s, a.streams[s].nextExpectedHeight)
    ensures NewIntents(h, a, Block(pb, s, a.streams[s].nextExpectedHeight))
  {
    var k := a.streams[s].nextExpectedHeight;
    var r := Block(pb, s, k);
    BlockIdentified(h, cfg, b, pb, s, k);
    forall i | 0 <= i < |r.intents| ensures IdOf(h, r.intents[i]) !in a.pending && IdOf(h, r.intents[i]) !in a.assignedTo {
      var id := IdOf(h, r.intents[i]);
      assert Holds(h, pb, s, k, id);
      if id in a.pending || id in a.assignedTo {
        SealHeld(h, a, pa, id);
        var u, l: nat :| Holds(h, pa, u, l, id);
        assert StreamOf(u, a.streams[u], pa.checkpoints[u], pa.chains[u], a.lastAssigned[u]);
        TwinPlace(h, cfg, a, pa, b, pb, delivered, s, k, u, l, id);
      }
    }
  }

  /** Twins hold an identifier at one place only. */
  lemma TwinPlace(
    h: Hasher, cfg: Config, a: State, pa: Past, b: State, pb: Past, delivered: set<Receipt>, s: int, k: nat,
    u: int, l: nat, id: Hash)
    requires Twins(h, cfg, a, pa, b, pb, delivered) && Holds(h, pa, u, l, id) && Holds(h, pb, s, k, id)
    requires (u == s ==> l <= k)
    ensures u == s && l == k
  {
    BlockIdentified(h, cfg, b, pb, s, k);
    BlockIdentified(h, cfg, a, pa, u, l);
    IdNamesShard(h, delivered, Block(pb, s, k), Block(pa, u, l), id);
    assert Accepted(pb, s, l);
    TwinBlocks(h, cfg, a, pa, b, pb, delivered, s, l);
    assert Holds(h, pb, s, l, id);
  }

  lemma NoShorter(h: Hasher, cfg: Config, a: State, pa: Past, b: State, pb: Past, delivered: set<Receipt>, s: int)
    requires Twins(h, cfg, a, pa, b, pb, delivered) && 0 <= s < cfg.shardCount
    ensures |pa.chains[s]| >= |pb.chains[s]|
  {
    assert StreamOf(s, a.streams[s], pa.checkpoints[s], pa.chains[s], a.lastAssigned[s]);
    if |pa.chains[s]| < |pb.chains[s]| {
      var k := a.streams[s].nextExpectedHeight;
      var r := Block(pb, s, k);
      BlockIdentified(h, cfg, b, pb, s, k);
      assert r in delivered && Settled(h, a, pa, r);
      TwinHashes(h, cfg, a, pa, b, pb, delivered, s);
      TwinNew(h, cfg, a, pa, b, pb, delivered, s);
      assert false;
    }
  }

  lemma TwinsSwap(h: Hasher, cfg: Config, a: State, pa: Past, b: State, pb: Past, delivered: set<Receipt>)
    requires Twins(h, cfg, a, pa, b, pb, delivered)
    ensures Twins(h, cfg, b, pb, a, pa, delivered)
  {
  }

  /** Whatever the order, duplication and spacing of a conflict-free set of receipts, every shard's accepted chain and watermark are the same. */
  lemma ArrivalOrderIrrelevant(
    h: Hasher, cfg: Config, a: State, pa: Past, b: State, pb: Past, delivered: set<Receipt>, s: int)
    requires Twins(h, cfg, a, pa, b, pb, delivered) && 0 <= s < cfg.shardCount
    ensures pa.chains[s] == pb.chains[s]
    ensures a.streams[s].continuousHeight == b.streams[s].continuousHeight && a.streams[s].continuousHash == b.streams[s].continuousHash
  {
    NoShorter(h, cfg, a, pa, b, pb, delivered, s);
    TwinsSwap(h, cfg, a, pa, b, pb, delivered);
    NoShorter(h, cfg, b, pb, a, pa, delivered, s);
    assert StreamOf(s, a.streams[s], pa.checkpoints[s], pa.chains[s], a.lastAssigned[s]);
    assert StreamOf(s, b.streams[s], pb.checkpoints[s], pb.chains[s], b.lastAssigned[s]);
    var ca, cb := pa.chains[s], pb.chains[s];
    forall i | 0 <= i < |ca| ensures ca[i] == cb[i] {
      var k := pa.checkpoints[s].height + i + 1;
      TwinBlocks(h, cfg, a, pa, b, pb, delivered, s, k);
    }
  }
}
