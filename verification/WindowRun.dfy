/** The window manager's operations as functions of its state and of the clock's readings, and what every run of them keeps. */
module WindowRun {
  import opened Base
  import opened ByteStrings
  import opened Model
  import opened Sorting
  import opened Windows
  import opened WindowSteps
  import opened WindowSeal

  /** The readings a clock gives, one after the other. */
  type Readings = nat -> int

  ghost predicate Ticking(clock: Readings) {
    forall i: nat, j: nat :: i <= j ==> clock(i) <= clock(j)
  }

  /** A state after an operation, the number of readings taken so far, the window it reports, and its error. */
  datatype Step = Step(st: State, t: nat, window: Option<FrozenWindow>, error: Option<Error>)

  // ---- the operations ----

  /** Nothing but unassigned blocks changed in any stream. */
  ghost predicate SameBuffers(a: State, b: State) {
    a.streams.Keys == b.streams.Keys && forall s :: s in a.streams ==> SameBuffer(a.streams[s], b.streams[s])
  }

  ghost predicate SameBuffer(x: Stream, y: Stream) {
    && x.nextExpectedHeight == y.nextExpectedHeight && x.continuousHeight == y.continuousHeight && x.continuousHash == y.continuousHash
    && x.buffered == y.buffered && x.seen == y.seen
  }

  lemma SealShards(cfg: Config, st: State, reason: string, now: int)
    requires HasShards(cfg, st) && st.openedAt.Some? && cfg.shardCount >= 0
    ensures HasShards(cfg, Seal(cfg, st, reason, now)) && SameBuffers(st, Seal(cfg, st, reason, now))
  {
  }

  function Reason(cfg: Config, st: State): string {
    if |st.pending| >= cfg.batchSize then "batch_size" else "max_window_duration"
  }

  /** A window is due: it is full, or the clock has passed its deadline. */
  predicate Due(cfg: Config, st: State, now: int)
    requires st.openedAt.Some?
  {
    |st.pending| >= cfg.batchSize || now >= st.openedAt.value + cfg.maxWindowDuration
  }

  ghost function TryClose(cfg: Config, st: State, clock: Readings, t: nat): (c: Step)
    requires HasShards(cfg, st) && cfg.shardCount >= 0
    ensures HasShards(cfg, c.st) && SameBuffers(st, c.st)
  {
    if st.pending == map[] || st.openedAt.None? then Step(st, t, None, None)
    else if !Due(cfg, st, clock(t)) then Step(st, t + 1, None, None)
    else
      SealShards(cfg, st, Reason(cfg, st), clock(t + 1));
      Step(Seal(cfg, st, Reason(cfg, st), clock(t + 1)), t + 2, Some(SealedWindow(cfg, st, Reason(cfg, st), clock(t + 1))), None)
  }

  /** A window sealed at `now`, after which t readings have been taken. */
  ghost function SealStep(cfg: Config, st: State, now: int, t: nat): Step
    requires HasShards(cfg, st) && cfg.shardCount >= 0 && st.openedAt.Some?
  {
    Step(Seal(cfg, st, Reason(cfg, st), now), t, Some(SealedWindow(cfg, st, Reason(cfg, st), now)), None)
  }

  lemma CloseSeals(cfg: Config, st: State, clock: Readings, t: nat)
    requires HasShards(cfg, st) && cfg.shardCount >= 0 && st.pending != map[] && st.openedAt.Some?
    requires Due(cfg, st, clock(t))
    ensures TryClose(cfg, st, clock, t) == SealStep(cfg, st, clock(t + 1), t + 2)
  {
  }

  lemma CloseWaits(cfg: Config, st: State, clock: Readings, t: nat)
    requires HasShards(cfg, st) && cfg.shardCount >= 0 && st.pending != map[] && st.openedAt.Some?
    requires !Due(cfg, st, clock(t))
    ensures TryClose(cfg, st, clock, t) == Step(st, t + 1, None, None)
  {
  }

  /** validateReceiptIntents from position i on: the error of the first intent that is foreign, malformed or known. */
  ghost function CheckIntents(h: Hasher, st: State, r: Receipt, i: nat): Option<Error>
    requires i <= |r.intents|
    decreases |r.intents| - i
  {
    if i == |r.intents| then None
    else if r.intents[i].sourceShard != r.shardId || IntentId(h, r.intents[i]).Err? then Some(InvalidReceipt)
    else if SomeId(h, r.intents[..i], IdOf(h, r.intents[i])) || Known(h, st, r.intents[i]) then Some(DuplicateIntent)
    else CheckIntents(h, st, r, i + 1)
  }

  ghost predicate Known(h: Hasher, st: State, p: PaymentIntent) {
    IdOf(h, p) in st.pending || IdOf(h, p) in st.assignedTo
  }

  ghost function Advance(
    h: Hasher, cfg: Config, st: State, s: int, clock: Readings, t: nat, first: Option<FrozenWindow>): Step
    requires HasShards(cfg, st) && 0 <= s < cfg.shardCount
    decreases |st.streams[s].buffered|
  {
    var x := st.streams[s];
    if x.nextExpectedHeight !in x.buffered then Step(st, t, first, None) else
      var r := x.buffered[x.nextExpectedHeight];
      if r.parentHash != x.continuousHash then Step(Drop(st, s), t, first, Some(ParentHashMismatch))
      else if CheckIntents(h, st, r, 0).Some? then Step(Drop(st, s), t, first, CheckIntents(h, st, r, 0))
      else
        var c := AcceptAndClose(h, cfg, st, s, clock, t);
        assert |x.buffered - {x.nextExpectedHeight}| < |x.buffered| by {
          assert (x.buffered - {x.nextExpectedHeight}).Keys == x.buffered.Keys - {x.nextExpectedHeight};
        }
        Advance(h, cfg, c.st, s, clock, c.t, if first.None? then c.window else first)
  }

  /** One turn of the advanceStream loop: the next block is accepted and a window possibly sealed. */
  ghost function AcceptAndClose(h: Hasher, cfg: Config, st: State, s: int, clock: Readings, t: nat): (c: Step)
    requires HasShards(cfg, st) && 0 <= s < cfg.shardCount && st.streams[s].nextExpectedHeight in st.streams[s].buffered
    ensures HasShards(cfg, c.st) && c.st.streams[s].buffered == st.streams[s].buffered - {st.streams[s].nextExpectedHeight}
  {
    var next := Accept(h, st, s, clock(t));
    TryClose(cfg, next, clock, if next.openedAt != st.openedAt then t + 1 else t)
  }

  ghost predicate OnlyShards(cfg: Config, st: State) {
    forall s :: s in st.streams ==> 0 <= s < cfg.shardCount
  }

  ghost function Receive(h: Hasher, cfg: Config, st: State, r: Receipt, clock: Readings, t: nat): Step
    requires HasShards(cfg, st) && OnlyShards(cfg, st) && cfg.shardCount >= 0
  {
    if r.shardId !in st.streams then Step(st, t, None, Some(UnknownShard))
    else if r.height == 0 then Step(st, t, None, Some(InvalidReceipt))
    else
      var x := st.streams[r.shardId];
      if r.height in x.seen then
        if x.seen[r.height] != r.blockHash then Step(st, t, None, Some(ConflictingReceipt)) else TryClose(cfg, st, clock, t)
      else if r.height < x.nextExpectedHeight then Step(st, t, None, Some(StaleReceipt))
      else
        var a := Advance(h, cfg, Buffer(st, r), r.shardId, clock, t, None);
        AdvanceShards(h, cfg, Buffer(st, r), r.shardId, clock, t, None);
        if a.error.Some? then a else
          var c := TryClose(cfg, a.st, clock, a.t);
          if a.window.Some? then c.(window := a.window) else c
  }

  lemma {:induction false} AdvanceShards(
    h: Hasher, cfg: Config, st: State, s: int, clock: Readings, t: nat, first: Option<FrozenWindow>)
    requires HasShards(cfg, st) && 0 <= s < cfg.shardCount
    ensures HasShards(cfg, Advance(h, cfg, st, s, clock, t, first).st)
    decreases |st.streams[s].buffered|
  {
    var x := st.streams[s];
    if x.nextExpectedHeight in x.buffered && x.buffered[x.nextExpectedHeight].parentHash == x.continuousHash
      && CheckIntents(h, st, x.buffered[x.nextExpectedHeight], 0).None? {
      var c := AcceptAndClose(h, cfg, st, s, clock, t);
      assert (x.buffered - {x.nextExpectedHeight}).Keys == x.buffered.Keys - {x.nextExpectedHeight};
      AdvanceShards(h, cfg, c.st, s, clock, c.t, if first.None? then c.window else first);
    }
  }

  ghost function Acknowledge(st: State, windowId: nat): Step {
    if st.frozen == [] then Step(st, 0, None, Some(FrozenQueueEmpty))
    else if st.frozen[0].windowId != windowId then Step(st, 0, None, Some(UnexpectedWindow))
    else Step(st.(frozen := st.frozen[1..]), 0, None, None)
  }

  // ---- the intent check is the declarative one ----

  ghost predicate NewIntentAt(h: Hasher, st: State, r: Receipt, i: nat)
    requires i < |r.intents|
  {
    && r.intents[i].sourceShard == r.shardId && IntentId(h, r.intents[i]).Ok?
    && !SomeId(h, r.intents[..i], IdOf(h, r.intents[i])) && !Known(h, st, r.intents[i])
  }

  lemma {:induction false} CheckIntentsIff(h: Hasher, st: State, r: Receipt, i: nat)
    requires i <= |r.intents|
    ensures CheckIntents(h, st, r, i) == None <==> forall j: nat :: i <= j < |r.intents| ==> NewIntentAt(h, st, r, j)
    decreases |r.intents| - i
  {
    if i < |r.intents| {
      CheckIntentsIff(h, st, r, i + 1);
      assert CheckIntents(h, st, r, i) == None <==> NewIntentAt(h, st, r, i) && CheckIntents(h, st, r, i + 1) == None;
    }
  }

  lemma NewIntentsIff(h: Hasher, st: State, r: Receipt)
    ensures NewIntents(h, st, r) <==> CheckIntents(h, st, r, 0) == None
  {
    CheckIntentsIff(h, st, r, 0);
    if NewIntents(h, st, r) {
      forall j: nat | j < |r.intents| ensures NewIntentAt(h, st, r, j) {
        assert !SomeId(h, r.intents[..j], IdOf(h, r.intents[j]));
      }
    }
    if forall j: nat :: j < |r.intents| ==> NewIntentAt(h, st, r, j) {
      forall i, j | 0 <= i < j < |r.intents| ensures IdOf(h, r.intents[i]) != IdOf(h, r.intents[j]) {
        assert NewIntentAt(h, st, r, j);
        assert r.intents[..j][i] == r.intents[i];
      }
      forall i | 0 <= i < |r.intents| ensures IntentId(h, r.intents[i]).Ok? && r.intents[i].sourceShard == r.shardId && !Known(h, st, r.intents[i]) {
        assert NewIntentAt(h, st, r, i);
      }
    }
  }

  // ---- what every operation keeps ----

  /** The window opened no later than the next reading, and no buffered block is at the last height. */
  ghost predicate Timely(st: State, clock: Readings, t: nat) {
    && Ticking(clock) && (st.openedAt.Some? ==> st.openedAt.value <= clock(t))
    && (forall s, k :: s in st.streams && k in st.streams[s].buffered ==> k < TWO_64 - 1)
  }

  ghost predicate Good(h: Hasher, cfg: Config, st: State, past: Past, clock: Readings, t: nat) {
    ValidConfig(cfg) && Represents(h, cfg, st, past) && HasShards(cfg, st) && Timely(st, clock, t) && HeightsBelow(st)
  }

  /** Checkpoints stay; chains and history only grow. */
  ghost predicate Grows(a: Past, b: Past) {
    && a.checkpoints == b.checkpoints && |a.chains| == |b.chains| && (forall s :: 0 <= s < |a.chains| ==> a.chains[s] <= b.chains[s])
    && a.history <= b.history
  }

  lemma SealGood(h: Hasher, cfg: Config, st: State, past: Past, clock: Readings, t: nat, reason: string)
    requires Good(h, cfg, st, past, clock, t) && st.openedAt.Some?
    ensures Good(h, cfg, Seal(cfg, st, reason, clock(t + 1)), Sealed(past, SealedWindow(cfg, st, reason, clock(t + 1))), clock, t + 2)
  {
    var next := Seal(cfg, st, reason, clock(t + 1));
    assert clock(t) <= clock(t + 1);
    SealKeeps(h, cfg, st, past, reason, clock(t + 1));
    SealShards(cfg, st, reason, clock(t + 1));
    GoodFrom(h, cfg, st, next, past, Sealed(past, SealedWindow(cfg, st, reason, clock(t + 1))), clock, t);
  }

  lemma GoodFrom(h: Hasher, cfg: Config, st: State, next: State, past: Past, after: Past, clock: Readings, t: nat)
    requires Good(h, cfg, st, past, clock, t) && Represents(h, cfg, next, after) && HasShards(cfg, next)
    requires SameBuffers(st, next)
    requires next.openedAt == None
    ensures Good(h, cfg, next, after, clock, t + 2)
  {
    forall s | s in next.streams ensures next.streams[s].continuousHeight < TWO_64 - 1 {
      assert SameBuffer(st.streams[s], next.streams[s]);
    }
    forall s, k | s in next.streams && k in next.streams[s].buffered ensures k < TWO_64 - 1 {
      assert SameBuffer(st.streams[s], next.streams[s]);
    }
  }

  /** Where closing a window leaves the past. */
  ghost function ClosedPast(past: Past, c: Step): Past {
    if c.window.Some? then Sealed(past, c.window.value) else past
  }

  lemma TryCloseKeeps(h: Hasher, cfg: Config, st: State, past: Past, clock: Readings, t: nat)
    requires Good(h, cfg, st, past, clock, t)
    ensures var c := TryClose(cfg, st, clock, t); Good(h, cfg, c.st, ClosedPast(past, c), clock, c.t)
  {
    var c := TryClose(cfg, st, clock, t);
    if st.pending == map[] || st.openedAt.None? {
    } else if Due(cfg, st, clock(t)) {
      SealGood(h, cfg, st, past, clock, t, Reason(cfg, st));
      var next, w := Seal(cfg, st, Reason(cfg, st), clock(t + 1)), SealedWindow(cfg, st, Reason(cfg, st), clock(t + 1));
      assert c == Step(next, t + 2, Some(w), None);
    } else {
      assert c == Step(st, t + 1, None, None);
      LaterGood(h, cfg, st, past, clock, t);
    }
  }

  lemma LaterGood(h: Hasher, cfg: Config, st: State, past: Past, clock: Readings, t: nat)
    requires Good(h, cfg, st, past, clock, t)
    ensures Good(h, cfg, st, past, clock, t + 1)
  {
    assert clock(t) <= clock(t + 1);
  }
}
