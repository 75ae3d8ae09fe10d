/**
 * Vector-Cut windows (pkg/netting/window): the manager's state, the changes its operations make to it, and what
 * they keep. The past of a manager - every receipt it accepted, shard by shard, and every window it sealed - is what
 * the state is proved to represent.
 */
module Windows {
  import opened Base
  import opened ByteStrings
  import opened Model
  import opened Sorting

  datatype Config = Config(shardCount: Int64, batchSize: int, maxWindowDuration: int)

  datatype Checkpoint = Checkpoint(height: Uint64, blockHash: Hash)

  datatype FrozenWindow = FrozenWindow(
    windowId: nat, openedAt: int, sealedAt: int, closeReason: string,
    cuts: seq<Cut>, receipts: seq<Receipt>, intents: seq<PaymentIntent>)

  /** A shard cut of a window under construction; heights stay below 2^64 - 1. */
  datatype Cut = Cut(shardId: Int64, previousHeight: nat, endHeight: nat, endBlockHash: Hash)

  datatype Stream = Stream(
    nextExpectedHeight: nat, continuousHeight: nat, continuousHash: Hash,
    buffered: map<nat, Receipt>, unassigned: map<nat, Receipt>, seen: map<nat, Hash>)

  datatype State = State(
    nextWindowId: nat, openedAt: Option<int>, pending: map<Hash, PaymentIntent>, assignedTo: map<Hash, nat>,
    lastAssigned: map<int, nat>, streams: map<int, Stream>, frozen: seq<FrozenWindow>)

  predicate ValidConfig(cfg: Config) {
    cfg.shardCount > 0 && cfg.batchSize > 0 && cfg.maxWindowDuration > 0
  }

  function IdOf(h: Hasher, p: PaymentIntent): Hash {
    match IntentId(h, p) case Ok(id) => id case Err(_) => 0
  }

  // ---- the past ----

  /** Checkpoints, accepted receipts in order, and sealed windows; index s is shard s. */
  datatype Past = Past(checkpoints: seq<Checkpoint>, chains: seq<seq<Receipt>>, history: seq<FrozenWindow>)

  ghost function Top(cp: Checkpoint, chain: seq<Receipt>): nat {
    cp.height + |chain|
  }

  /** The accepted receipt at a height. */
  ghost function BlockAt(cp: Checkpoint, chain: seq<Receipt>, k: nat): Receipt
    requires cp.height < k <= Top(cp, chain)
  {
    chain[k - cp.height - 1]
  }

  /** The accepted block hash at a height. */
  ghost function HashAt(cp: Checkpoint, chain: seq<Receipt>, k: nat): Hash
    requires cp.height <= k <= Top(cp, chain)
  {
    if k == cp.height then cp.blockHash else BlockAt(cp, chain, k).blockHash
  }

  ghost predicate Identified(h: Hasher, r: Receipt) {
    && (forall i :: 0 <= i < |r.intents| ==> IntentId(h, r.intents[i]).Ok? && r.intents[i].sourceShard == r.shardId)
    && (forall i, j :: 0 <= i < j < |r.intents| ==> IdOf(h, r.intents[i]) != IdOf(h, r.intents[j]))
  }

  ghost predicate LinkedAt(h: Hasher, s: int, cp: Checkpoint, chain: seq<Receipt>, k: nat)
    requires cp.height < k <= Top(cp, chain)
  {
    var r := BlockAt(cp, chain, k);
    r.shardId == s && r.height == k && r.parentHash == HashAt(cp, chain, k - 1) && Identified(h, r)
  }

  /** Consecutive heights of one shard, hash-linked from the checkpoint, with well-identified intents. */
  ghost predicate Linked(h: Hasher, s: int, cp: Checkpoint, chain: seq<Receipt>) {
    forall k: nat :: cp.height < k <= Top(cp, chain) ==> LinkedAt(h, s, cp, chain, k)
  }

  ghost predicate HasId(h: Hasher, r: Receipt, id: Hash) {
    exists i :: 0 <= i < |r.intents| && IdOf(h, r.intents[i]) == id
  }

  ghost predicate Accepted(past: Past, s: int, k: nat) {
    0 <= s < |past.chains| && s < |past.checkpoints| && past.checkpoints[s].height < k <= Top(past.checkpoints[s], past.chains[s])
  }

  ghost function Block(past: Past, s: int, k: nat): Receipt
    requires Accepted(past, s, k)
  {
    BlockAt(past.checkpoints[s], past.chains[s], k)
  }

  /** The accepted receipt of shard s at height k holds the identifier. */
  ghost predicate Holds(h: Hasher, past: Past, s: int, k: nat, id: Hash) {
    Accepted(past, s, k) && HasId(h, Block(past, s, k), id)
  }

  /** No identifier occurs in two accepted receipts. */
  ghost predicate Disjoint(h: Hasher, past: Past) {
    forall s, k: nat, t, l: nat, id :: Holds(h, past, s, k, id) && Holds(h, past, t, l, id) ==> s == t && k == l
  }

  // ---- the state the past leads to ----

  ghost predicate HeightsOf(x: Stream, cp: Checkpoint, chain: seq<Receipt>, last: nat) {
    && x.continuousHeight == Top(cp, chain) && x.nextExpectedHeight == x.continuousHeight + 1
    && x.continuousHash == HashAt(cp, chain, Top(cp, chain)) && cp.height <= last <= x.continuousHeight
  }

  /** Exactly the accepted blocks above `last` are unassigned. */
  ghost predicate UnassignedOf(x: Stream, cp: Checkpoint, chain: seq<Receipt>, last: nat)
    requires cp.height <= last
  {
    && (forall k: nat :: k in x.unassigned <==> last < k <= Top(cp, chain))
    && (forall k: nat :: k in x.unassigned ==> x.unassigned[k] == BlockAt(cp, chain, k))
  }

  ghost predicate SeenOf(x: Stream, cp: Checkpoint, chain: seq<Receipt>) {
    && (forall k: nat :: cp.height <= k <= Top(cp, chain) ==> k in x.seen && x.seen[k] == HashAt(cp, chain, k))
    && (forall k: nat :: k in x.seen ==> (cp.height <= k <= Top(cp, chain)) || k in x.buffered)
  }

  ghost predicate BufferedOf(s: int, x: Stream) {
    forall k: nat :: k in x.buffered ==>
      k >= x.nextExpectedHeight && x.buffered[k].shardId == s && x.buffered[k].height == k && k in x.seen && x.seen[k] == x.buffered[k].blockHash
  }

  /** A stream after accepting a chain of which the blocks above `last` are not yet in a window. */
  ghost predicate StreamOf(s: int, x: Stream, cp: Checkpoint, chain: seq<Receipt>, last: nat) {
    HeightsOf(x, cp, chain, last) && UnassignedOf(x, cp, chain, last) && SeenOf(x, cp, chain) && BufferedOf(s, x)
  }

  ghost predicate StreamsOf(cfg: Config, st: State, past: Past) {
    && |past.checkpoints| == cfg.shardCount && |past.chains| == cfg.shardCount
    && (forall s :: s in st.streams <==> 0 <= s < cfg.shardCount) && st.lastAssigned.Keys == st.streams.Keys
    && (forall s :: 0 <= s < cfg.shardCount ==> StreamOf(s, st.streams[s], past.checkpoints[s], past.chains[s], st.lastAssigned[s]))
  }

  /** Height k of shard s is past the last window. */
  ghost predicate Open(st: State, s: int, k: nat) {
    s in st.lastAssigned && k > st.lastAssigned[s]
  }

  ghost predicate PlacedOne(h: Hasher, st: State, p: PaymentIntent, open: bool) {
    if open then IdOf(h, p) in st.pending && st.pending[IdOf(h, p)] == p && IdOf(h, p) !in st.assignedTo
    else IdOf(h, p) in st.assignedTo && IdOf(h, p) !in st.pending
  }

  /** Every accepted intent is pending, if its block is in no window yet, or assigned to a window. */
  ghost predicate Placed(h: Hasher, st: State, past: Past) {
    && (forall s, k: nat, i :: Accepted(past, s, k) && 0 <= i < |Block(past, s, k).intents| ==>
         PlacedOne(h, st, Block(past, s, k).intents[i], Open(st, s, k)))
    && (forall id :: id in st.pending ==> exists s, k: nat :: Open(st, s, k) && Holds(h, past, s, k, id))
    && (forall id :: id in st.assignedTo ==> exists s, k: nat :: !Open(st, s, k) && Holds(h, past, s, k, id))
  }

  ghost predicate OpenedOk(st: State) {
    st.pending == map[] <==> st.openedAt == None
  }

  ghost predicate AssignedOk(st: State) {
    forall id :: id in st.assignedTo ==> 0 < st.assignedTo[id] < st.nextWindowId
  }

  /** The windows sealed so far number from 1; the frozen queue holds the latest of them. */
  ghost predicate QueueOk(cfg: Config, st: State, past: Past) {
    && st.nextWindowId == |past.history| + 1 && |st.frozen| <= |past.history|
    && st.frozen == past.history[|past.history| - |st.frozen|..]
    && (forall i :: 0 <= i < |past.history| ==>
         past.history[i].windowId == i + 1 && |past.history[i].cuts| == cfg.shardCount && past.history[i].openedAt <= past.history[i].sealedAt)
  }

  // ---- sealed windows partition the streams ----

  /** Where the first n windows end on shard s. */
  ghost function EndOf(past: Past, n: nat, s: int): nat
    requires n <= |past.history| && 0 <= s < |past.checkpoints| && (n > 0 ==> s < |past.history[n - 1].cuts|)
  {
    if n == 0 then past.checkpoints[s].height else past.history[n - 1].cuts[s].endHeight
  }

  ghost predicate CutsShaped(cfg: Config, past: Past) {
    |past.checkpoints| == cfg.shardCount && |past.chains| == cfg.shardCount &&
    forall i :: 0 <= i < |past.history| ==> |past.history[i].cuts| == cfg.shardCount
  }

  /** The accepted blocks of one shard above height a and up to height b. */
  ghost function Segment(cp: Checkpoint, chain: seq<Receipt>, a: nat, b: nat): (r: seq<Receipt>)
    requires cp.height <= a <= b <= Top(cp, chain)
    ensures |r| == b - a
  {
    chain[a - cp.height..b - cp.height]
  }

  /** The cut of a window on one shard abuts the previous window's and ends in the accepted hash. */
  ghost predicate CutOk(cfg: Config, past: Past, i: nat, s: int)
    requires CutsShaped(cfg, past) && i < |past.history| && 0 <= s < cfg.shardCount
  {
    var cut := past.history[i].cuts[s];
    && cut.shardId == s && cut.previousHeight == EndOf(past, i, s) && past.checkpoints[s].height <= cut.previousHeight <= cut.endHeight
    && cut.endHeight <= Top(past.checkpoints[s], past.chains[s])
    && cut.endBlockHash == HashAt(past.checkpoints[s], past.chains[s], cut.endHeight)
  }

  ghost predicate CutsOk(cfg: Config, past: Past) {
    CutsShaped(cfg, past) && forall i: nat, s :: i < |past.history| && 0 <= s < cfg.shardCount ==> CutOk(cfg, past, i, s)
  }

  /** The blocks window i takes from the first n shards, shard by shard in height order. */
  ghost function WindowBlocks(cfg: Config, past: Past, i: nat, n: nat): seq<Receipt>
    requires CutsOk(cfg, past) && i < |past.history| && n <= cfg.shardCount
  {
    if n == 0 then [] else
      assert CutOk(cfg, past, i, n - 1);
      var cut := past.history[i].cuts[n - 1];
      WindowBlocks(cfg, past, i, n - 1) + Segment(past.checkpoints[n - 1], past.chains[n - 1], cut.previousHeight, cut.endHeight)
  }

  function IdRankOf(h: Hasher): PaymentIntent -> int {
    (p: PaymentIntent) => IdOf(h, p)
  }

  /** A window holds exactly the accepted blocks between its cuts, and exactly their intents in identifier order. */
  ghost predicate WindowOk(h: Hasher, cfg: Config, past: Past, i: nat)
    requires CutsOk(cfg, past) && i < |past.history|
  {
    var w := past.history[i];
    && w.receipts == WindowBlocks(cfg, past, i, cfg.shardCount)
    && multiset(w.intents) == multiset(IntentsOf(w.receipts)) && w.intents != []
    && Sorted(w.intents, IdRankOf(h)) && Distinct(w.intents, IdRankOf(h))
  }

  ghost predicate HistoryOk(h: Hasher, cfg: Config, st: State, past: Past) {
    && CutsOk(cfg, past)
    && (forall i: nat :: i < |past.history| ==> WindowOk(h, cfg, past, i))
    && (forall s :: 0 <= s < cfg.shardCount ==> s in st.lastAssigned && st.lastAssigned[s] == EndOf(past, |past.history|, s))
  }

  /** The cut of window number w covers height k of shard s. */
  ghost predicate Covers(cfg: Config, past: Past, w: nat, s: int, k: nat) {
    CutsShaped(cfg, past) && 0 <= s < cfg.shardCount && 0 < w <= |past.history| && EndOf(past, w - 1, s) < k <= EndOf(past, w, s)
  }

  /** An assigned intent is assigned to the window whose cut covers its block. */
  ghost predicate AssignedWindows(h: Hasher, cfg: Config, st: State, past: Past) {
    forall s, k: nat, id :: Holds(h, past, s, k, id) && !Open(st, s, k) && id in st.assignedTo ==> Covers(cfg, past, st.assignedTo[id], s, k)
  }

  ghost predicate Represents(h: Hasher, cfg: Config, st: State, past: Past) {
    && StreamsOf(cfg, st, past)
    && (forall s :: 0 <= s < cfg.shardCount ==> Linked(h, s, past.checkpoints[s], past.chains[s]))
    && Disjoint(h, past) && Placed(h, st, past) && OpenedOk(st) && AssignedOk(st) && QueueOk(cfg, st, past)
    && HistoryOk(h, cfg, st, past) && AssignedWindows(h, cfg, st, past)
  }

  /** Between calls no block waits at the next expected height. */
  ghost predicate Quiet(st: State) {
    forall s :: s in st.streams ==> st.streams[s].nextExpectedHeight !in st.streams[s].buffered
  }

  ghost predicate HeightsBelow(st: State) {
    forall s :: s in st.streams ==> st.streams[s].continuousHeight < TWO_64 - 1
  }

  // ---- immediate consequences ----

  lemma OpenIntentIsPending(h: Hasher, st: State, past: Past, s: int, k: nat, id: Hash)
    requires Placed(h, st, past) && Holds(h, past, s, k, id) && Open(st, s, k) && Identified(h, Block(past, s, k))
    ensures id in st.pending && id !in st.assignedTo && IntentId(h, st.pending[id]) == Ok(id)
  {
    var r := Block(past, s, k);
    var i :| 0 <= i < |r.intents| && IdOf(h, r.intents[i]) == id;
    assert PlacedOne(h, st, Block(past, s, k).intents[i], Open(st, s, k));
  }

  lemma BlockIdentified(h: Hasher, cfg: Config, st: State, past: Past, s: int, k: nat)
    requires Represents(h, cfg, st, past) && Accepted(past, s, k)
    ensures Identified(h, Block(past, s, k)) && Block(past, s, k).shardId == s && Block(past, s, k).height == k
  {
    assert Linked(h, s, past.checkpoints[s], past.chains[s]);
    assert LinkedAt(h, s, past.checkpoints[s], past.chains[s], k);
  }

  lemma PendingIdValid(h: Hasher, cfg: Config, st: State, past: Past, id: Hash)
    requires Represents(h, cfg, st, past) && id in st.pending
    ensures IntentId(h, st.pending[id]) == Ok(id) && id !in st.assignedTo
  {
    var s, k: nat :| Open(st, s, k) && Holds(h, past, s, k, id);
    BlockIdentified(h, cfg, st, past, s, k);
    OpenIntentIsPending(h, st, past, s, k, id);
  }
}
