/** Whole runs of a window manager: receipts, closes and acknowledgements in any order and number. */
module WindowHistory {
  import opened Base
  import opened ByteStrings
  import opened Model
  import opened Windows
  import opened WindowSteps
  import opened WindowSeal
  import opened WindowStates
  import opened WindowRun
  import opened WindowOrder
  import opened WindowManager

  datatype Op = Receipt(receipt: Receipt) | Close | Ack(windowId: nat)

  /** A state and the number of clock readings taken to reach it. */
  datatype Point = Point(st: State, t: nat)

  /** A manager's configuration and what it starts from. */
  datatype Setup = Setup(h: Hasher, cfg: Config, clock: Readings, checkpoints: seq<Checkpoint>)

  ghost predicate Fit(c: Setup) {
    && ValidConfig(c.cfg) && Ticking(c.clock)
    && forall s :: 0 <= s < |c.checkpoints| ==> c.checkpoints[s].height < TWO_64 - 1
  }

  /** One operation, accepted or rejected. */
  ghost predicate OpTo(c: Setup, a: Point, op: Op, b: Point) {
    && HasShards(c.cfg, a.st) && OnlyShards(c.cfg, a.st) && c.cfg.shardCount >= 0
    && match op
       case Receipt(r) =>
         r.height < TWO_64 - 1 && var step := Receive(c.h, c.cfg, a.st, r, c.clock, a.t); b == Point(step.st, step.t)
       case Close => var step := TryClose(c.cfg, a.st, c.clock, a.t); b == Point(step.st, step.t)
       case Ack(id) => b == Point(Acknowledge(a.st, id).st, a.t)
  }

  ghost predicate ManagerRun(c: Setup, points: seq<Point>, ops: seq<Op>) {
    && |points| == |ops| + 1 && InitialState(c.cfg, c.checkpoints, points[0].st)
    && forall i: nat :: i < |ops| ==> OpAt(c, points, ops, i)
  }

  ghost predicate OpAt(c: Setup, points: seq<Point>, ops: seq<Op>, i: nat)
    requires i < |ops| && |points| == |ops| + 1
  {
    OpTo(c, points[i], ops[i], points[i + 1])
  }

  /** The receipts among the first n operations. */
  ghost function Delivered(ops: seq<Op>, n: nat): set<Receipt>
    requires n <= |ops|
  {
    if n == 0 then {} else
      match ops[n - 1]
      case Receipt(r) => Delivered(ops, n - 1) + {r}
      case Close => Delivered(ops, n - 1)
      case Ack(_) => Delivered(ops, n - 1)
  }

  lemma AcknowledgeBetween(c: Setup, a: Point, id: nat, past: Past, delivered: set<Receipt>)
    requires Between(c.h, c.cfg, a.st, past, c.clock, a.t, delivered)
    ensures Between(c.h, c.cfg, Acknowledge(a.st, id).st, past, c.clock, a.t, delivered)
  {
    if a.st.frozen != [] && a.st.frozen[0].windowId == id {
      AckBetween(c.h, c.cfg, a.st, past, c.clock, a.t, delivered);
    }
  }

  /** What holds between calls, with the checkpoints the past started from. */
  ghost predicate Kept(c: Setup, p: Point, past: Past, delivered: set<Receipt>) {
    Between(c.h, c.cfg, p.st, past, c.clock, p.t, delivered) && past.checkpoints == c.checkpoints
  }

  lemma OpKeeps(c: Setup, a: Point, op: Op, b: Point, past: Past, delivered: set<Receipt>) returns (after: Past)
    requires OpTo(c, a, op, b) && Kept(c, a, past, delivered)
    ensures Kept(c, b, after, if op.Receipt? then delivered + {op.receipt} else delivered)
  {
    match op {
      case Receipt(r) =>
        after := ReceiveKeeps(c.h, c.cfg, a.st, past, c.clock, a.t, delivered, r);
      case Close =>
        CloseBetween(c.h, c.cfg, a.st, past, c.clock, a.t, delivered);
        after := ClosedPast(past, TryClose(c.cfg, a.st, c.clock, a.t));
      case Ack(id) =>
        AcknowledgeBetween(c, a, id, past, delivered);
        after := past;
    }
  }

  lemma {:induction false} RunKeeps(c: Setup, points: seq<Point>, ops: seq<Op>, n: nat) returns (past: Past)
    requires Fit(c) && ManagerRun(c, points, ops) && n < |points|
    ensures Kept(c, points[n], past, Delivered(ops, n))
  {
    if n == 0 {
      past := InitialKept(c, points[0]);
    } else {
      var before := RunKeeps(c, points, ops, n - 1);
      assert OpAt(c, points, ops, n - 1);
      past := OpKeeps(c, points[n - 1], ops[n - 1], points[n], before, Delivered(ops, n - 1));
    }
  }

  lemma InitialKept(c: Setup, p: Point) returns (past: Past)
    requires Fit(c) && InitialState(c.cfg, c.checkpoints, p.st)
    ensures Kept(c, p, past, {})
  {
    InitialBetween(c.h, c.cfg, c.checkpoints, p.st, c.clock, p.t);
    past := InitialPast(c.checkpoints);
  }

  /** Every state reachable by receipts, closes and acknowledgements passes validateState. */
  lemma ReachableIsValid(c: Setup, points: seq<Point>, ops: seq<Op>, n: nat)
    requires Fit(c) && ManagerRun(c, points, ops) && n < |points|
    ensures ValidState(c.h, c.cfg, points[n].st)
  {
    var past := RunKeeps(c, points, ops, n);
    RepresentedIsValid(c.h, c.cfg, points[n].st, past);
  }

  lemma RunsAreTwins(c: Setup, a: Point, pa: Past, b: Point, pb: Past, delivered: set<Receipt>)
    requires Kept(c, a, pa, delivered) && Kept(c, b, pb, delivered)
    requires ConflictFree(delivered) && CollisionFree(c.h, Encodings(delivered))
    ensures Twins(c.h, c.cfg, a.st, pa, b.st, pb, delivered)
  {
  }

  /**
   * Two runs that were delivered the same conflict-free receipts, in any order, number and interleaving with closes and
   * acknowledgements, end at the same watermark of every shard.
   */
  lemma SameWatermarks(c: Setup, x: seq<Point>, xs: seq<Op>, y: seq<Point>, ys: seq<Op>, s: int)
    requires Fit(c) && ManagerRun(c, x, xs) && ManagerRun(c, y, ys) && 0 <= s < c.cfg.shardCount
    requires Delivered(xs, |xs|) == Delivered(ys, |ys|) && ConflictFree(Delivered(xs, |xs|))
    requires CollisionFree(c.h, Encodings(Delivered(xs, |xs|)))
    ensures s in x[|xs|].st.streams && s in y[|ys|].st.streams
    ensures var p, q := x[|xs|].st.streams[s], y[|ys|].st.streams[s];
      p.continuousHeight == q.continuousHeight && p.continuousHash == q.continuousHash
  {
    var a, b, delivered := x[|xs|], y[|ys|], Delivered(xs, |xs|);
    var pa := RunKeeps(c, x, xs, |xs|);
    var pb := RunKeeps(c, y, ys, |ys|);
    RunsAreTwins(c, a, pa, b, pb, delivered);
    ArrivalOrderIrrelevant(c.h, c.cfg, a.st, pa, b.st, pb, delivered, s);
  }
}
