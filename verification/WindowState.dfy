/** Restored manager states (pkg/netting/window/state.go): what validateState accepts, and that every reachable state passes. */
module WindowStates {
  import opened Base
  import opened ByteStrings
  import opened Model
  import opened Sorting
  import opened Windows
  import opened WindowSeal

  // ---- collecting identifiers ----

  ghost function IdSet(h: Hasher, ps: seq<PaymentIntent>): set<Hash> {
    set p | p in ps :: IdOf(h, p)
  }

  /** Every intent has an identifier, no two share one, and none is among the given ones. */
  ghost predicate Collects(h: Hasher, ps: seq<PaymentIntent>, ids: set<Hash>) {
    && (forall i :: 0 <= i < |ps| ==> IntentId(h, ps[i]).Ok? && IdOf(h, ps[i]) !in ids)
    && (forall i, j :: 0 <= i < j < |ps| ==> IdOf(h, ps[i]) != IdOf(h, ps[j]))
  }

  lemma IdSetConcat(h: Hasher, ps: seq<PaymentIntent>, qs: seq<PaymentIntent>)
    ensures IdSet(h, ps + qs) == IdSet(h, ps) + IdSet(h, qs)
  {
  }

  lemma CollectsConcat(h: Hasher, ps: seq<PaymentIntent>, qs: seq<PaymentIntent>, ids: set<Hash>)
    ensures Collects(h, ps + qs, ids) <==> Collects(h, ps, ids) && Collects(h, qs, ids + IdSet(h, ps))
  {
    var all := ps + qs;
    if Collects(h, ps, ids) && Collects(h, qs, ids + IdSet(h, ps)) {
      forall i, j | 0 <= i < j < |all| ensures IdOf(h, all[i]) != IdOf(h, all[j]) {
        if i < |ps| <= j {
          assert ps[i] in ps && IdOf(h, ps[i]) in IdSet(h, ps);
          assert IdOf(h, qs[j - |ps|]) !in ids + IdSet(h, ps);
        } else if i >= |ps| {
          assert all[i] == qs[i - |ps|] && all[j] == qs[j - |ps|];
        }
      }
    }
    if Collects(h, all, ids) {
      CollectsParts(h, ps, qs, ids);
    }
  }

  lemma CollectsParts(h: Hasher, ps: seq<PaymentIntent>, qs: seq<PaymentIntent>, ids: set<Hash>)
    requires Collects(h, ps + qs, ids)
    ensures Collects(h, ps, ids) && Collects(h, qs, ids + IdSet(h, ps))
  {
    var all := ps + qs;
    forall i | 0 <= i < |ps| ensures ps[i] == all[i] {
    }
    forall i | 0 <= i < |qs| ensures qs[i] == all[i + |ps|] && IdOf(h, qs[i]) !in IdSet(h, ps) {
    }
  }

  lemma CollectsNext(h: Hasher, ps: seq<PaymentIntent>, i: nat, ids: set<Hash>)
    requires i < |ps| && Collects(h, ps[..i], ids)
    ensures IdSet(h, ps[..i + 1]) == IdSet(h, ps[..i]) + {IdOf(h, ps[i])}
    ensures IntentId(h, ps[i]).Ok? && IdOf(h, ps[i]) !in ids + IdSet(h, ps[..i]) ==> Collects(h, ps[..i + 1], ids)
    ensures !(IntentId(h, ps[i]).Ok? && IdOf(h, ps[i]) !in ids + IdSet(h, ps[..i])) ==> !Collects(h, ps, ids)
  {
    var p := ps[i];
    assert ps[..i] + [p] == ps[..i + 1];
    assert IdSet(h, [p]) == {IdOf(h, p)};
    IdSetConcat(h, ps[..i], [p]);
    CollectsConcat(h, ps[..i], [p], ids);
    assert ps == ps[..i + 1] + ps[i + 1..];
    CollectsConcat(h, ps[..i + 1], ps[i + 1..], ids);
    assert [p][0] == p;
  }

  method CollectReceiptIds(h: Hasher, r: Receipt, ids: set<Hash>) returns (ok: bool, more: set<Hash>)
    ensures ok <==> Collects(h, r.intents, ids)
    ensures ok ==> more == ids + IdSet(h, r.intents)
  {
    more := ids;
    for i := 0 to |r.intents|
      invariant Collects(h, r.intents[..i], ids) && more == ids + IdSet(h, r.intents[..i])
    {
      CollectsNext(h, r.intents, i, ids);
      match IntentId(h, r.intents[i]) {
        case Err(_) =>
          return false, more;
        case Ok(id) =>
          if id in more {
            return false, more;
          }
          more := more + {id};
      }
    }
    assert r.intents[..|r.intents|] == r.intents;
    ok := true;
  }

  // ---- one stream ----

  ghost predicate ValidHeights(x: Stream, last: nat) {
    && x.continuousHeight < TWO_64 - 1 && x.nextExpectedHeight == x.continuousHeight + 1 && last <= x.continuousHeight
    && x.continuousHeight in x.seen && x.seen[x.continuousHeight] == x.continuousHash && last in x.seen
  }

  /** The hash the block at height k must name as its parent. */
  ghost function ParentAt(x: Stream, last: nat, k: nat): Option<Hash> {
    if k == last + 1 then (if last in x.seen then Some(x.seen[last]) else None)
    else if k > 0 && k - 1 in x.unassigned then Some(x.unassigned[k - 1].blockHash) else None
  }

  /** The unassigned block at height k is there, has its height and shard, links to the block below and carries the hash seen for it. */
  ghost predicate ValidBlock(s: int, x: Stream, last: nat, k: nat) {
    && k in x.unassigned && x.unassigned[k].shardId == s && x.unassigned[k].height == k
    && ParentAt(x, last, k) == Some(x.unassigned[k].parentHash) && k in x.seen && x.seen[k] == x.unassigned[k].blockHash
  }

  ghost predicate ValidBuffered(s: int, x: Stream, k: nat)
    requires k in x.buffered
  {
    k > x.nextExpectedHeight && x.buffered[k].shardId == s && x.buffered[k].height == k && k in x.seen && x.seen[k] == x.buffered[k].blockHash
  }

  ghost predicate ValidOutside(s: int, x: Stream, last: nat) {
    && (forall k: nat :: k in x.unassigned ==> last < k <= x.continuousHeight && x.unassigned[k].shardId == s && x.unassigned[k].height == k)
    && (forall k: nat :: k in x.buffered ==> ValidBuffered(s, x, k))
  }

  ghost predicate ValidStream(s: int, last: nat, x: Stream) {
    && ValidHeights(x, last) && (forall k: nat :: last < k <= x.continuousHeight ==> ValidBlock(s, x, last, k))
    && ValidOutside(s, x, last)
  }

  method CheckOutside(s: int, x: Stream, last: nat) returns (ok: bool)
    ensures ok <==> ValidOutside(s, x, last)
  {
    var heights: seq<nat> := Listing(x.unassigned.Keys);

    for i := 0 to |heights|
      invariant forall k: nat :: k in heights[..i] ==> last < k <= x.continuousHeight && x.unassigned[k].shardId == s && x.unassigned[k].height == k
    {
      var height: nat := heights[i];
      assert height in x.unassigned && heights[..i + 1] == heights[..i] + [height];
      var receipt := x.unassigned[height];
      if height <= last || height > x.continuousHeight || receipt.shardId != s || receipt.height != height {
        return false;
      }
    }
    ok := CheckBuffered(s, x);
    assert heights[..|heights|] == heights;
  }

  method CheckBuffered(s: int, x: Stream) returns (ok: bool)
    ensures ok <==> forall k: nat :: k in x.buffered ==> ValidBuffered(s, x, k)
  {
    var heights: seq<nat> := Listing(x.buffered.Keys);

    for i := 0 to |heights|
      invariant forall k: nat :: k in heights[..i] ==> k in x.buffered && ValidBuffered(s, x, k)
    {
      var height: nat := heights[i];
      assert height in x.buffered && heights[..i + 1] == heights[..i] + [height];
      var receipt := x.buffered[height];
      if height <= x.nextExpectedHeight || receipt.shardId != s || receipt.height != height || height !in x.seen || x.seen[height] != receipt.blockHash {
        assert !ValidBuffered(s, x, height);
        return false;
      }
    }
    assert heights[..|heights|] == heights;
    ok := true;
  }

  lemma RunIntents(blocks: map<nat, Receipt>, a: nat, k: nat)
    requires a < k && k in blocks
    ensures IntentsOf(RunOf(blocks, a, k)) == IntentsOf(RunOf(blocks, a, k - 1)) + blocks[k].intents
  {
    var run := RunOf(blocks, a, k);
    assert run[..|run| - 1] == RunOf(blocks, a, k - 1);
  }

  /** Identifiers collected over a run were collected over its beginning. */
  lemma {:induction false} CollectsBeginning(
    h: Hasher, blocks: map<nat, Receipt>, a: nat, k: nat, b: nat, ids: set<Hash>)
    requires a <= k <= b && Collects(h, IntentsOf(RunOf(blocks, a, b)), ids)
    ensures Collects(h, IntentsOf(RunOf(blocks, a, k)), ids)
    decreases b
  {
    if k < b {
      if b in blocks {
        RunIntents(blocks, a, b);
        CollectsConcat(h, IntentsOf(RunOf(blocks, a, b - 1)), blocks[b].intents, ids);
      } else {
        assert RunOf(blocks, a, b) == RunOf(blocks, a, b - 1);
      }
      CollectsBeginning(h, blocks, a, k, b - 1, ids);
    }
  }

  /** What is known after checking the blocks above `last` and up to k. */
  ghost predicate CheckedTo(h: Hasher, s: int, last: nat, x: Stream, k: nat, ids: set<Hash>, more: set<Hash>) {
    && (forall j: nat :: last < j <= k ==> ValidBlock(s, x, last, j))
    && Collects(h, IntentsOf(RunOf(x.unassigned, last, k)), ids) && more == ids + IdSet(h, IntentsOf(RunOf(x.unassigned, last, k)))
  }

  ghost predicate StreamPasses(h: Hasher, s: int, last: nat, x: Stream, ids: set<Hash>) {
    ValidStream(s, last, x) && Collects(h, IntentsOf(RunOf(x.unassigned, last, x.continuousHeight)), ids)
  }

  lemma CheckedCollects(h: Hasher, last: nat, x: Stream, k: nat, ids: set<Hash>)
    requires last <= k && k + 1 in x.unassigned
    ensures var done, next := IntentsOf(RunOf(x.unassigned, last, k)), x.unassigned[k + 1].intents;
      && IntentsOf(RunOf(x.unassigned, last, k + 1)) == done + next && IdSet(h, done + next) == IdSet(h, done) + IdSet(h, next)
      && (Collects(h, done + next, ids) <==> Collects(h, done, ids) && Collects(h, next, ids + IdSet(h, done)))
  {
    var done := IntentsOf(RunOf(x.unassigned, last, k));
    RunIntents(x.unassigned, last, k + 1);
    CollectsConcat(h, done, x.unassigned[k + 1].intents, ids);
    IdSetConcat(h, done, x.unassigned[k + 1].intents);
  }

  lemma CheckedNext(h: Hasher, s: int, last: nat, x: Stream, k: nat, ids: set<Hash>, more: set<Hash>)
    requires CheckedTo(h, s, last, x, k, ids, more) && last <= k < x.continuousHeight
    requires ValidBlock(s, x, last, k + 1) && Collects(h, x.unassigned[k + 1].intents, more)
    ensures CheckedTo(h, s, last, x, k + 1, ids, more + IdSet(h, x.unassigned[k + 1].intents))
  {
    CheckedCollects(h, last, x, k, ids);
  }

  lemma CheckedFails(h: Hasher, s: int, last: nat, x: Stream, k: nat, ids: set<Hash>, more: set<Hash>)
    requires CheckedTo(h, s, last, x, k, ids, more) && last <= k < x.continuousHeight && k + 1 in x.unassigned
    requires !Collects(h, x.unassigned[k + 1].intents, more)
    ensures !StreamPasses(h, s, last, x, ids)
  {
    CheckedCollects(h, last, x, k, ids);
    if StreamPasses(h, s, last, x, ids) {
      CollectsBeginning(h, x.unassigned, last, k + 1, x.continuousHeight, ids);
    }
  }

  method CheckStream(h: Hasher, s: int, last: nat, x: Stream, ids: set<Hash>) returns (ok: bool, more: set<Hash>)
    ensures ok <==> StreamPasses(h, s, last, x, ids)
    ensures ok ==> more == ids + RunIds(h, last, x)
  {
    more := ids;
    if x.continuousHeight >= TWO_64 - 1 || x.nextExpectedHeight != x.continuousHeight + 1 || last > x.continuousHeight {
      return false, more;
    }
    if x.continuousHeight !in x.seen || x.seen[x.continuousHeight] != x.continuousHash || last !in x.seen {
      return false, more;
    }
    var parentHash := x.seen[last];
    for k := last to x.continuousHeight
      invariant CheckedTo(h, s, last, x, k, ids, more) && ParentAt(x, last, k + 1) == Some(parentHash)
    {
      var height := k + 1;
      if height !in x.unassigned {
        assert !ValidBlock(s, x, last, height);
        return false, more;
      }
      var receipt := x.unassigned[height];
      if receipt.shardId != s || receipt.height != height || receipt.parentHash != parentHash || height !in x.seen || x.seen[height] != receipt.blockHash {
        assert !ValidBlock(s, x, last, height);
        return false, more;
      }
      var ok', more' := CollectReceiptIds(h, receipt, more);
      if !ok' {
        CheckedFails(h, s, last, x, k, ids, more);
        return false, more;
      }
      CheckedNext(h, s, last, x, k, ids, more);
      more := more';
      parentHash := receipt.blockHash;
    }
    ok := CheckOutside(s, x, last);
  }

  // ---- the whole state ----

  ghost predicate ValidPending(h: Hasher, st: State, ids: set<Hash>) {
    st.pending.Keys == ids && forall id :: id in st.pending ==> IntentId(h, st.pending[id]) == Ok(id) && id !in st.assignedTo
  }

  ghost predicate ValidFrozen(cfg: Config, st: State, i: nat)
    requires i < |st.frozen|
  {
    && 0 < st.frozen[i].windowId < st.nextWindowId && |st.frozen[i].cuts| == cfg.shardCount && st.frozen[i].openedAt <= st.frozen[i].sealedAt
    && (i > 0 ==> st.frozen[i - 1].windowId < st.frozen[i].windowId)
  }

  /** The streams of the first n shards are well formed and no identifier occurs twice in their open blocks. */
  ghost predicate ValidShards(h: Hasher, st: State, n: nat) {
    && HasFirst(st, n) && (forall s :: 0 <= s < n ==> ValidStream(s, st.lastAssigned[s], st.streams[s]))
    && Collects(h, IntentsOf(OpenBlocks(st, n)), {})
  }

  /** What validateState accepts. */
  ghost predicate ValidState(h: Hasher, cfg: Config, st: State)
    requires cfg.shardCount >= 0
  {
    && st.nextWindowId > 0 && |st.streams| == cfg.shardCount && |st.lastAssigned| == cfg.shardCount && OpenedOk(st)
    && ValidShards(h, st, cfg.shardCount) && ValidPending(h, st, OpenIds(h, st, cfg.shardCount))
    && AssignedOk(st) && (forall i: nat :: i < |st.frozen| ==> ValidFrozen(cfg, st, i))
  }

  lemma {:induction false} IntentsConcat(a: seq<Receipt>, b: seq<Receipt>)
    ensures IntentsOf(a + b) == IntentsOf(a) + IntentsOf(b)
    decreases |b|
  {
    if b == [] {
      assert a + b == a;
    } else {
      var n := |b| - 1;
      assert (a + b)[..|a + b| - 1] == a + b[..n];
      IntentsConcat(a, b[..n]);
    }
  }

  ghost function OpenIds(h: Hasher, st: State, n: nat): set<Hash>
    requires HasFirst(st, n)
  {
    IdSet(h, IntentsOf(OpenBlocks(st, n)))
  }

  ghost function RunIds(h: Hasher, last: nat, x: Stream): set<Hash> {
    IdSet(h, IntentsOf(RunOf(x.unassigned, last, x.continuousHeight)))
  }

  lemma OpenNext(h: Hasher, st: State, n: nat)
    requires HasFirst(st, n + 1) && HasFirst(st, n)
    ensures OpenIds(h, st, n + 1) == OpenIds(h, st, n) + RunIds(h, st.lastAssigned[n], st.streams[n])
    ensures var run := RunOf(st.streams[n].unassigned, st.lastAssigned[n], st.streams[n].continuousHeight);
      Collects(h, IntentsOf(OpenBlocks(st, n + 1)), {}) == (Collects(h, IntentsOf(OpenBlocks(st, n)), {}) && Collects(h, IntentsOf(run), OpenIds(h, st, n)))
  {
    var front := OpenBlocks(st, n);
    var run := RunOf(st.streams[n].unassigned, st.lastAssigned[n], st.streams[n].continuousHeight);
    IntentsConcat(front, run);
    CollectsConcat(h, IntentsOf(front), IntentsOf(run), {});
    IdSetConcat(h, IntentsOf(front), IntentsOf(run));
    assert {} + IdSet(h, IntentsOf(front)) == IdSet(h, IntentsOf(front));
  }

  /** One more shard. */
  lemma ShardsNext(h: Hasher, st: State, n: nat)
    requires HasFirst(st, n + 1) && HasFirst(st, n)
    ensures ValidShards(h, st, n + 1) <==> ValidShards(h, st, n) && StreamPasses(h, n, st.lastAssigned[n], st.streams[n], OpenIds(h, st, n))
  {
    OpenNext(h, st, n);
    assert ValidShards(h, st, n + 1) ==> ValidStream(n, st.lastAssigned[n], st.streams[n]);
  }

  /** How many shards, from the first, hold valid streams without a repeated intent. */
  ghost function ValidCounts(h: Hasher, st: State): iset<nat> {
    iset n: nat | ValidShards(h, st, n)
  }

  lemma ShardsBefore(h: Hasher, st: State, n: nat)
    requires n + 1 in ValidCounts(h, st)
    ensures n in ValidCounts(h, st)
  {
    ShardsNext(h, st, n);
  }

  lemma {:induction false} ShardsBeginning(h: Hasher, st: State, n: nat, m: nat)
    requires n <= m && m in ValidCounts(h, st)
    ensures n in ValidCounts(h, st)
    decreases m
  {
    if n < m {
      ShardsBefore(h, st, m - 1);
      ShardsBeginning(h, st, n, m - 1);
    }
  }

  /** A shard that fails spoils the state. */
  lemma ShardsFail(h: Hasher, st: State, n: nat, m: nat)
    requires n < m && HasFirst(st, n)
    requires (HasFirst(st, n + 1) ==> !StreamPasses(h, n, st.lastAssigned[n], st.streams[n], OpenIds(h, st, n)))
    ensures !ValidShards(h, st, m)
  {
    if ValidShards(h, st, m) {
      ShardsBeginning(h, st, n + 1, m);
      ShardsNext(h, st, n);
    }
  }

  method CheckShards(h: Hasher, cfg: Config, st: State) returns (ok: bool, ids: set<Hash>)
    requires cfg.shardCount >= 0
    ensures ok <==> ValidShards(h, st, cfg.shardCount)
    ensures ok ==> ids == OpenIds(h, st, cfg.shardCount)
  {
    ids := {};
    for s := 0 to cfg.shardCount
      invariant ValidShards(h, st, s) && ids == OpenIds(h, st, s)
    {
      if s !in st.streams || s !in st.lastAssigned {
        ShardsFail(h, st, s, cfg.shardCount);
        return false, ids;
      }
      ok, ids := CheckStream(h, s, st.lastAssigned[s], st.streams[s], ids);
      if !ok {
        ShardsFail(h, st, s, cfg.shardCount);
        return false, ids;
      }
      ShardsNext(h, st, s);
      OpenNext(h, st, s);
    }
    ok := true;
  }

  lemma SameSizeSubset<T>(a: set<T>, b: set<T>)
    requires a <= b && |a| == |b|
    ensures a == b
  {
    if x :| x in b && x !in a {
      SubsetSize(a, b - {x});
      assert false;
    }
  }

  lemma PendingMatches(h: Hasher, st: State, ids: set<Hash>, listed: seq<Hash>)
    requires |ids| == |st.pending.Keys| && forall id :: id in listed <==> id in st.pending.Keys
    requires forall id :: id in listed ==> id in ids && id in st.pending && IntentId(h, st.pending[id]) == Ok(id) && id !in st.assignedTo
    ensures ValidPending(h, st, ids)
  {
    SameSizeSubset(st.pending.Keys, ids);
  }

  method CheckPending(h: Hasher, st: State, ids: set<Hash>) returns (ok: bool)
    ensures ok <==> ValidPending(h, st, ids)
  {
    if |ids| != |st.pending.Keys| {
      return false;
    }
    var listed: seq<Hash> := Listing(st.pending.Keys);
    for i := 0 to |listed|
      invariant forall id :: id in listed[..i] ==> id in ids && id in st.pending && IntentId(h, st.pending[id]) == Ok(id) && id !in st.assignedTo
    {
      var id: Hash := listed[i];
      assert id in st.pending && listed[..i + 1] == listed[..i] + [id];
      if IntentId(h, st.pending[id]) != Ok(id) || id !in ids || id in st.assignedTo {
        return false;
      }
    }
    assert listed[..|listed|] == listed;
    PendingMatches(h, st, ids, listed);
    ok := true;
  }

  method CheckAssigned(st: State) returns (ok: bool)
    ensures ok <==> AssignedOk(st)
  {
    var listed: seq<Hash> := Listing(st.assignedTo.Keys);
    for i := 0 to |listed|
      invariant forall id :: id in listed[..i] ==> id in st.assignedTo && 0 < st.assignedTo[id] < st.nextWindowId
    {
      var id: Hash := listed[i];
      assert id in st.assignedTo && listed[..i + 1] == listed[..i] + [id];
      if st.assignedTo[id] == 0 || st.assignedTo[id] >= st.nextWindowId {
        return false;
      }
    }
    assert listed[..|listed|] == listed;
    ok := true;
  }

  method CheckFrozen(cfg: Config, st: State) returns (ok: bool)
    ensures ok <==> forall i: nat :: i < |st.frozen| ==> ValidFrozen(cfg, st, i)
  {
    var previous: nat := 0;
    for i := 0 to |st.frozen|
      invariant forall j: nat :: j < i ==> ValidFrozen(cfg, st, j)
      invariant i > 0 ==> previous == st.frozen[i - 1].windowId
    {
      var f := st.frozen[i];
      if f.windowId == 0 || f.windowId >= st.nextWindowId || (i > 0 && f.windowId <= previous) || |f.cuts| != cfg.shardCount || f.sealedAt < f.openedAt {
        assert !ValidFrozen(cfg, st, i);
        return false;
      }
      previous := f.windowId;
    }
    ok := true;
  }

  /** validateState. */
  method CheckState(h: Hasher, cfg: Config, st: State) returns (ok: bool)
    requires ValidConfig(cfg)
    ensures ok <==> ValidState(h, cfg, st)
  {
    if st.nextWindowId == 0 || |st.streams| != cfg.shardCount || |st.lastAssigned| != cfg.shardCount || (st.pending == map[]) != st.openedAt.None? {
      return false;
    }
    var shardsOk, ids := CheckShards(h, cfg, st);
    if !shardsOk {
      return false;
    }
    ok := CheckPending(h, st, ids);
    if ok {
      ok := CheckAssigned(st);
    }
    if ok {
      ok := CheckFrozen(cfg, st);
    }
  }

  // ---- every represented quiet state passes ----

  lemma ShardSetSize(n: nat, shards: set<int>)
    requires forall s :: s in shards <==> 0 <= s < n
    ensures |shards| == n
  {
    if n == 0 {
      if shards != {} {
        var x := Pick(shards);
      }
    } else {
      ShardSetSize(n - 1, shards - {n - 1});
    }
  }

  lemma BlockValid(h: Hasher, s: int, x: Stream, cp: Checkpoint, chain: seq<Receipt>, last: nat, k: nat)
    requires StreamOf(s, x, cp, chain, last) && Linked(h, s, cp, chain) && last < k <= x.continuousHeight
    ensures ValidBlock(s, x, last, k)
  {
    assert LinkedAt(h, s, cp, chain, k);
    assert x.unassigned[k] == BlockAt(cp, chain, k);
    assert x.seen[k] == HashAt(cp, chain, k);
    assert x.seen[k - 1] == HashAt(cp, chain, k - 1);
    if k - 1 > last {
      assert x.unassigned[k - 1] == BlockAt(cp, chain, k - 1);
    }
  }

  lemma StreamValid(h: Hasher, s: int, x: Stream, cp: Checkpoint, chain: seq<Receipt>, last: nat)
    requires StreamOf(s, x, cp, chain, last) && Linked(h, s, cp, chain)
    requires x.nextExpectedHeight !in x.buffered && x.continuousHeight < TWO_64 - 1
    ensures ValidStream(s, last, x)
  {
    forall k: nat | last < k <= x.continuousHeight ensures ValidBlock(s, x, last, k) {
      BlockValid(h, s, x, cp, chain, last, k);
    }
    assert x.seen[x.continuousHeight] == HashAt(cp, chain, Top(cp, chain));
    forall k: nat | k in x.unassigned ensures last < k <= x.continuousHeight && x.unassigned[k].shardId == s && x.unassigned[k].height == k {
      assert ValidBlock(s, x, last, k);
    }
  }

  lemma OpenCollects(h: Hasher, cfg: Config, st: State, past: Past)
    requires Represents(h, cfg, st, past) && HasShards(cfg, st) && cfg.shardCount >= 0
    ensures Collects(h, IntentsOf(OpenBlocks(st, cfg.shardCount)), {})
  {
    var rs := OpenBlocks(st, cfg.shardCount);
    var ps := IntentsOf(rs);
    OpenApart(h, cfg, st, past);
    IntentsDistinct(h, rs);
    forall i | 0 <= i < |ps| ensures IntentId(h, ps[i]).Ok? {
      OpenIntentPending(h, cfg, st, past, ps[i]);
      PendingIdValid(h, cfg, st, past, IdOf(h, ps[i]));
    }
    forall i, j | 0 <= i < j < |ps| ensures IdOf(h, ps[i]) != IdOf(h, ps[j]) {
      assert IdRankOf(h)(ps[i]) != IdRankOf(h)(ps[j]);
    }
  }

  ghost predicate PendingGood(h: Hasher, st: State, ids: set<Hash>, id: Hash) {
    id in st.pending && IntentId(h, st.pending[id]) == Ok(id) && id !in st.assignedTo && id in ids
  }

  lemma AllPendingGood(h: Hasher, st: State, ids: set<Hash>)
    requires (forall id :: id in st.pending ==> PendingGood(h, st, ids, id))
    requires forall id :: id in ids ==> id in st.pending
    ensures ValidPending(h, st, ids)
  {
    forall id | id in st.pending ensures IntentId(h, st.pending[id]) == Ok(id) && id !in st.assignedTo && id in ids {
      assert PendingGood(h, st, ids, id);
    }
  }

  lemma PendingValid(h: Hasher, cfg: Config, st: State, past: Past)
    requires Represents(h, cfg, st, past) && HasShards(cfg, st) && cfg.shardCount >= 0
    ensures ValidPending(h, st, OpenIds(h, st, cfg.shardCount))
  {
    var ids := OpenIds(h, st, cfg.shardCount);
    forall id | id in st.pending ensures PendingGood(h, st, ids, id) {
      PendingIdOpen(h, cfg, st, past, id);
    }
    forall id | id in ids ensures id in st.pending {
      OpenIdPending(h, cfg, st, past, id);
    }
    AllPendingGood(h, st, ids);
  }

  lemma PendingIdOpen(h: Hasher, cfg: Config, st: State, past: Past, id: Hash)
    requires Represents(h, cfg, st, past) && HasShards(cfg, st) && cfg.shardCount >= 0 && id in st.pending
    ensures IntentId(h, st.pending[id]) == Ok(id) && id !in st.assignedTo && id in IdSet(h, IntentsOf(OpenBlocks(st, cfg.shardCount)))
  {
    PendingIdValid(h, cfg, st, past, id);
    PendingInBlock(h, cfg, st, past, st.pending[id]);
  }

  lemma OpenIdPending(h: Hasher, cfg: Config, st: State, past: Past, id: Hash)
    requires Represents(h, cfg, st, past) && HasShards(cfg, st) && cfg.shardCount >= 0
    requires id in IdSet(h, IntentsOf(OpenBlocks(st, cfg.shardCount)))
    ensures id in st.pending
  {
    var p :| p in IntentsOf(OpenBlocks(st, cfg.shardCount)) && IdOf(h, p) == id;
    OpenIntentPending(h, cfg, st, past, p);
  }

  lemma FrozenValid(cfg: Config, st: State, past: Past, i: nat)
    requires QueueOk(cfg, st, past) && i < |st.frozen|
    ensures ValidFrozen(cfg, st, i)
  {
    var d := |past.history| - |st.frozen|;
    assert st.frozen[i] == past.history[d + i];
    if i > 0 {
      assert st.frozen[i - 1] == past.history[d + i - 1];
    }
  }

  lemma ShardsValid(h: Hasher, cfg: Config, st: State, past: Past)
    requires Represents(h, cfg, st, past) && Quiet(st) && HeightsBelow(st) && HasShards(cfg, st) && cfg.shardCount >= 0
    ensures ValidShards(h, st, cfg.shardCount)
  {
    forall s | 0 <= s < cfg.shardCount ensures ValidStream(s, st.lastAssigned[s], st.streams[s]) {
      assert StreamOf(s, st.streams[s], past.checkpoints[s], past.chains[s], st.lastAssigned[s]);
      assert Linked(h, s, past.checkpoints[s], past.chains[s]);
      StreamValid(h, s, st.streams[s], past.checkpoints[s], past.chains[s], st.lastAssigned[s]);
    }
    OpenCollects(h, cfg, st, past);
  }

  /** Every quiet state that represents its past passes validateState. */
  lemma RepresentedIsValid(h: Hasher, cfg: Config, st: State, past: Past)
    requires Represents(h, cfg, st, past) && Quiet(st) && HeightsBelow(st) && HasShards(cfg, st) && cfg.shardCount >= 0
    ensures ValidState(h, cfg, st)
  {
    ShardSetSize(cfg.shardCount, st.streams.Keys);
    assert |st.streams| == |st.streams.Keys| && |st.lastAssigned| == |st.lastAssigned.Keys|;
    ShardsValid(h, cfg, st, past);
    PendingValid(h, cfg, st, past);
    forall i: nat | i < |st.frozen| ensures ValidFrozen(cfg, st, i) {
      FrozenValid(cfg, st, past, i);
    }
  }
}
