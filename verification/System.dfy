/**
 * The shards as a distributed system: any interleaving of submissions, confirmed batches, settlement packages,
 * fallback credits and completions, with packages and messages duplicated and reordered at will.
 */
module NettingSystem {
  import opened Base
  import opened ByteStrings
  import opened Sums
  import opened Model
  import opened Packages
  import opened Settlements
  import opened SettlementProofs

  /** A confirmed batch: its header, its results by intent, its shards and the settlements its header commits to. */
  datatype Batch = Batch(header: Header, results: map<Hash, IntentResult>, ids: seq<Int64>, settlements: seq<Settlement>)

  /** The message a destination sends to the source of a fallback once the block crediting it is committed. */
  datatype Completion = Completion(sourceShard: Int64, key: FallbackKey)

  /** The shards, the batches the Beacon has confirmed, and every completion message ever sent. */
  datatype System = System(shards: map<Int64, ShardState>, batches: map<Hash, Batch>, sent: set<Completion>)

  /** What the Builder guarantees of a batch. */
  ghost predicate WellFormedBatch(h: Hasher, b: Batch) {
    && (forall id :: id in b.results ==> ValidateResult(h, b.results[id]).Ok? && b.results[id].intentId == id)
    && (forall x :: x in b.settlements ==> SettlementFor(b, x.shardId, x))
    && Committed(h, b.header, b.ids, b.settlements)
  }

  ghost predicate SettlementFor(b: Batch, s: Int64, x: Settlement) {
    && x.shardId == s && x.batchId == b.header.batchId && x.chunkIndex == 0
    && (forall i :: 0 <= i < |x.outgoing| ==> Listed(b, x.outgoing[i]) && x.outgoing[i].intent.sourceShard == s)
    && (forall i :: 0 <= i < |x.incoming| ==> Listed(b, x.incoming[i]) && x.incoming[i].intent.destinationShard == s)
  }

  /** The result is the batch's, up to the signature of its intent, which nothing commits to. */
  ghost predicate Listed(b: Batch, r: IntentResult) {
    r.intentId in b.results && SameResult(r, b.results[r.intentId])
  }

  /** No input hashed to commit to the batch or to verify the package collides with another. */
  ghost predicate Checkable(h: Hasher, b: Batch, pack: Package, inputs: iset<Bytes>) {
    VerifyPackage(h, pack).Ok? && Committed(h, b.header, b.ids, b.settlements) ==> PackageIn(h, b.ids, b.settlements, pack, inputs)
  }

  /** One event of the system. Failed operations leave the system as it was. */
  datatype Event =
    | Submit(shard: Int64, payment: PaymentIntent, ctx: ValidationContext)
    | Confirm(batch: Batch)
    | Settle(shard: Int64, pack: Package)
    | CreditFallback(shard: Int64, source: Int64, item: ReservedFallback)
    | CompleteFallback(msg: Completion)
    | Idle

  /** `inputs` are the byte strings hashed by anyone: the run theorems take the hash to be collision free on them. */
  ghost predicate StepTo(h: Hasher, inputs: iset<Bytes>, a: System, e: Event, b: System) {
    match e
    case Submit(s, p, ctx) =>
      && s in a.shards && ctx.shardId == s
      && b == a.(shards := a.shards[s := StateAfter(SubmitResult(h, a.shards[s], p, ctx), a.shards[s])])
    case Confirm(batch) =>
      // The Beacon chain consumes every intent at most once and commits a batch identifier at most once.
      && WellFormedBatch(h, batch) && batch.header.batchId !in a.batches
      && (forall x :: x in a.batches ==> a.batches[x].results.Keys !! batch.results.Keys)
      && b == a.(batches := a.batches[batch.header.batchId := batch])
    case Settle(s, pack) =>
      // Any package that names a confirmed batch, from anyone, delivered any number of times.
      && s in a.shards && pack.header.batchId in a.batches
      && var batch := a.batches[pack.header.batchId];
      && Checkable(h, batch, pack, inputs)
      && b == a.(shards := a.shards[s := StateAfter(ExecuteResult(h, a.shards[s], s, pack, batch.header), a.shards[s])])
    case CreditFallback(s, source, item) =>
      // A message read from some shard's outbox, delivered anywhere any number of times.
      && s in a.shards && source in a.shards && item in a.shards[source].outbox && item.batchId in a.batches
      && b == AfterCredit(h, a, s, item)
    case CompleteFallback(msg) =>
      // Any message sent so far, delivered to its source any number of times and arbitrarily late.
      && msg in a.sent && msg.sourceShard in a.shards
      && b == a.(shards := a.shards[msg.sourceShard :=
          StateAfter(CompleteResult(a.shards[msg.sourceShard], msg.key), a.shards[msg.sourceShard])])
    case Idle => b == a
  }

  /** A block with the credit is committed, and the completion sent, only when the credit succeeds. */
  ghost function AfterCredit(h: Hasher, a: System, s: Int64, item: ReservedFallback): System
    requires s in a.shards && item.batchId in a.batches
  {
    match CreditResult(h, a.shards[s], s, item, a.batches[item.batchId].header)
    case Err(_) => a
    case Ok(next) => a.(shards := a.shards[s := next], sent := a.sent + {Completion(item.sourceShard, item.Key())})
  }

  // ---- the invariant ----

  ghost predicate BatchesOk(h: Hasher, batches: map<Hash, Batch>) {
    && (forall x :: x in batches ==> WellFormedBatch(h, batches[x]) && batches[x].header.batchId == x)
    && (forall x, y :: x in batches && y in batches && x != y ==> batches[x].results.Keys !! batches[y].results.Keys)
  }

  ghost predicate Known(batches: map<Hash, Batch>, id: Hash, batchId: Hash) {
    batchId in batches && id in batches[batchId].results
  }

  ghost function ResultIn(batches: map<Hash, Batch>, id: Hash, batchId: Hash): IntentResult
    requires Known(batches, id, batchId)
  {
    batches[batchId].results[id]
  }

  /** A fallback key created by shard s. */
  ghost predicate KeyOk(batches: map<Hash, Batch>, s: Int64, k: FallbackKey) {
    Known(batches, k.intentId, k.batchId) && ResultIn(batches, k.intentId, k.batchId).intent.sourceShard == s
  }

  /** An outbox entry of shard s carries the fallback part of its intent's result. */
  ghost predicate ItemOk(batches: map<Hash, Batch>, s: Int64, item: ReservedFallback) {
    && KeyOk(batches, s, item.Key())
    && var r := ResultIn(batches, item.intentId, item.batchId);
    && item.amount == r.fallback && item.amount > 0 && item.sourceShard == s
    && item.recipient == r.intent.recipient && item.destinationShard == r.intent.destinationShard
  }

  /** A credit given by shard s pays its intent's recipient the matched or the fallback part of the result. */
  ghost predicate CreditOk(batches: map<Hash, Batch>, s: Int64, st: ShardState, c: Credit) {
    && Known(batches, c.intentId, c.batchId)
    && var r := ResultIn(batches, c.intentId, c.batchId);
    && r.intent.destinationShard == s && c.recipient == r.intent.recipient
    && match c.kind
       case MatchedCredit => c.amount == r.matched && ChunkKey(c.batchId, s, 0) in st.executed
       case FallbackCredit => c.amount == r.fallback && FallbackKey(c.intentId, c.batchId) in st.credited
  }

  ghost predicate OutboxOk(batches: map<Hash, Batch>, s: Int64, st: ShardState) {
    && (forall i :: 0 <= i < |st.outbox| ==> ItemOk(batches, s, st.outbox[i]))
    && (forall k :: k in st.status ==> KeyOk(batches, s, k))
  }

  ghost predicate LogOk(batches: map<Hash, Batch>, s: Int64, st: ShardState) {
    && (forall i :: 0 <= i < |st.credits| ==> CreditOk(batches, s, st, st.credits[i]))
    && (forall i, j :: 0 <= i < j < |st.credits| ==> Apart(st.credits[i], st.credits[j]))
  }

  /** The log holds the fallback credit of the key. */
  ghost predicate Logged(st: ShardState, k: FallbackKey) {
    exists i :: 0 <= i < |st.credits| && st.credits[i].kind == FallbackCredit && st.credits[i].intentId == k.intentId && st.credits[i].batchId == k.batchId
  }

  lemma LoggedGrows(st: ShardState, next: ShardState, k: FallbackKey)
    requires Logged(st, k) && st.credits <= next.credits
    ensures Logged(next, k)
  {
    var i :| 0 <= i < |st.credits| && st.credits[i].kind == FallbackCredit && st.credits[i].intentId == k.intentId && st.credits[i].batchId == k.batchId;
    assert next.credits[i] == st.credits[i];
  }

  /** Every key credited at shard s was created by its source shard, and its credit is in the log. */
  ghost predicate CreditedOk(sys: System, s: Int64, st: ShardState) {
    forall k :: k in st.credited ==>
      && Known(sys.batches, k.intentId, k.batchId) && Logged(st, k)
      && var r := ResultIn(sys.batches, k.intentId, k.batchId);
      r.intent.destinationShard == s && r.intent.sourceShard in sys.shards && k in sys.shards[r.intent.sourceShard].status
  }

  /** A fallback completed at its source has been credited at its destination. */
  ghost predicate CompletedOk(sys: System, s: Int64, st: ShardState) {
    forall k :: k in st.status && st.status[k] == Completed ==>
      && KeyOk(sys.batches, s, k)
      && var d := ResultIn(sys.batches, k.intentId, k.batchId).intent.destinationShard;
      d in sys.shards && k in sys.shards[d].credited
  }

  ghost predicate ShardOk(sys: System, s: Int64) {
    s in sys.shards && var st := sys.shards[s];
    ShardInv(st) && OutboxOk(sys.batches, s, st) && LogOk(sys.batches, s, st) && CreditedOk(sys, s, st) && CompletedOk(sys, s, st)
  }

  /** A completion was sent to the source of its fallback after the destination recorded the credit. */
  ghost predicate SentOk(sys: System, m: Completion) {
    && KeyOk(sys.batches, m.sourceShard, m.key)
    && var d := ResultIn(sys.batches, m.key.intentId, m.key.batchId).intent.destinationShard;
    d in sys.shards && m.key in sys.shards[d].credited
  }

  ghost predicate AllSentOk(sys: System) {
    forall m :: m in sys.sent ==> SentOk(sys, m)
  }

  ghost predicate Inv(h: Hasher, sys: System) {
    BatchesOk(h, sys.batches) && AllSentOk(sys) && forall s :: s in sys.shards ==> ShardOk(sys, s)
  }

  /** A shard before any netting: no reservation, empty records, empty escrow. */
  ghost predicate Fresh(st: ShardState) {
    && st.escrow == 0 && st.reservations == map[] && st.outbox == [] && st.status == map[]
    && st.executed == {} && st.credited == {} && st.credits == []
  }

  ghost predicate Init(sys: System) {
    sys.batches == map[] && sys.sent == {} && forall s :: s in sys.shards ==> Fresh(sys.shards[s])
  }

  lemma InitInv(h: Hasher, sys: System)
    requires Init(sys)
    ensures Inv(h, sys)
  {
    forall s | s in sys.shards ensures ShardOk(sys, s) {
      assert ReservedAmounts(sys.shards[s]) == map[];
    }
  }

  // ---- replacing one shard's state ----

  /** Later states of a shard keep every key it created or credited. */
  ghost predicate Extends(st: ShardState, next: ShardState) {
    && st.credited <= next.credited && st.status.Keys <= next.status.Keys
  }

  lemma OthersKeep(sys: System, s: Int64, next: ShardState, t: Int64)
    requires s in sys.shards && ShardOk(sys, t) && t != s && Extends(sys.shards[s], next)
    ensures ShardOk(sys.(shards := sys.shards[s := next]), t)
  {
  }

  lemma ReplaceShard(h: Hasher, sys: System, s: Int64, next: ShardState)
    requires Inv(h, sys) && s in sys.shards && Extends(sys.shards[s], next)
    requires ShardOk(sys.(shards := sys.shards[s := next]), s)
    ensures Inv(h, sys.(shards := sys.shards[s := next]))
  {
    var after := sys.(shards := sys.shards[s := next]);
    forall t | t in after.shards ensures ShardOk(after, t) {
      if t != s {
        OthersKeep(sys, s, next, t);
      }
    }
    SentKeeps(sys, s, next);
  }

  lemma SentKeeps(sys: System, s: Int64, next: ShardState)
    requires AllSentOk(sys) && s in sys.shards && Extends(sys.shards[s], next)
    ensures AllSentOk(sys.(shards := sys.shards[s := next]))
  {
    forall m | m in sys.sent ensures SentOk(sys.(shards := sys.shards[s := next]), m) {
      assert SentOk(sys, m);
    }
  }

  // ---- each event keeps the invariant ----

  lemma SameRecords(sys: System, s: Int64, next: ShardState)
    requires ShardOk(sys, s) && ShardInv(next)
    requires next.outbox == sys.shards[s].outbox && next.status == sys.shards[s].status
    requires next.executed == sys.shards[s].executed
    requires next.credited == sys.shards[s].credited && next.credits == sys.shards[s].credits
    ensures ShardOk(sys.(shards := sys.shards[s := next]), s)
  {
    var st := sys.shards[s];
    forall i | 0 <= i < |next.credits| ensures CreditOk(sys.batches, s, next, next.credits[i]) {
      assert CreditOk(sys.batches, s, st, st.credits[i]);
    }
  }

  lemma SubmitInv(h: Hasher, a: System, s: Int64, p: PaymentIntent, ctx: ValidationContext)
    requires Inv(h, a) && s in a.shards && SubmitResult(h, a.shards[s], p, ctx).Ok?
    ensures Inv(h, a.(shards := a.shards[s := SubmitResult(h, a.shards[s], p, ctx).value]))
  {
    var next := SubmitResult(h, a.shards[s], p, ctx).value;
    SubmitKeeps(h, a.shards[s], p, ctx);
    SameRecords(a, s, next);
    ReplaceShard(h, a, s, next);
  }

  lemma GrowBatches(sys: System, batches: map<Hash, Batch>, s: Int64)
    requires ShardOk(sys, s) && forall x :: x in sys.batches ==> x in batches && batches[x] == sys.batches[x]
    ensures ShardOk(sys.(batches := batches), s)
  {
  }

  lemma ConfirmInv(h: Hasher, a: System, batch: Batch)
    requires Inv(h, a) && WellFormedBatch(h, batch) && batch.header.batchId !in a.batches
    requires forall x :: x in a.batches ==> a.batches[x].results.Keys !! batch.results.Keys
    ensures Inv(h, a.(batches := a.batches[batch.header.batchId := batch]))
  {
    var batches := a.batches[batch.header.batchId := batch];
    forall s | s in a.shards ensures ShardOk(a.(batches := batches), s) {
      GrowBatches(a, batches, s);
    }
    forall m | m in a.sent ensures SentOk(a.(batches := batches), m) {
      assert SentOk(a, m);
    }
  }

  // ---- settlement ----

  lemma {:induction false} FallbacksFrom(
    b: Batch, batches: map<Hash, Batch>, s: Int64, x: Settlement, pack: Package, n: nat)
    requires n <= |x.outgoing| && SettlementFor(b, s, x) && x.batchId in batches && batches[x.batchId] == b
    ensures forall i :: 0 <= i < |FallbacksOf(x.outgoing[..n], x.batchId, pack)| ==> ItemOk(batches, s, FallbacksOf(x.outgoing[..n], x.batchId, pack)[i])
    decreases n
  {
    if n > 0 {
      FallbacksFrom(b, batches, s, x, pack, n - 1);
      assert x.outgoing[..n][..n - 1] == x.outgoing[..n - 1];
      var r := x.outgoing[n - 1];
      assert Listed(b, r);
    }
  }

  lemma SettledOutbox(
    batches: map<Hash, Batch>, s: Int64, st: ShardState, next: ShardState, added: seq<ReservedFallback>)
    requires OutboxOk(batches, s, st) && next.outbox == st.outbox + added && StatusGrows(st, next, added)
    requires forall i :: 0 <= i < |added| ==> ItemOk(batches, s, added[i])
    ensures OutboxOk(batches, s, next)
  {
    forall k | k in next.status ensures KeyOk(batches, s, k) {
      if k !in st.status {
        var item :| item in added && item.Key() == k;
      }
    }
  }

  /** The identifiers of checked incoming results are pairwise distinct. */
  lemma {:induction false} IncomingDistinct(h: Hasher, shardId: Int64, rs: seq<IntentResult>, start: set<Hash>)
    requires CheckIncoming(h, shardId, rs, start).Ok?
    ensures forall i, j :: 0 <= i < j < |rs| ==> rs[i].intentId != rs[j].intentId
    ensures forall i :: 0 <= i < |rs| ==> rs[i].intentId in CheckIncoming(h, shardId, rs, start).value.ids
    decreases |rs|
  {
    if rs != [] {
      var init := rs[..|rs| - 1];
      IncomingDistinct(h, shardId, init, start);
      assert forall i :: 0 <= i < |init| ==> init[i] == rs[i];
    }
  }

  lemma SettledCredits(batches: map<Hash, Batch>, s: Int64, next: ShardState, x: Settlement)
    requires x.batchId in batches && SettlementFor(batches[x.batchId], s, x)
    requires ChunkKey(x.batchId, s, 0) in next.executed
    ensures forall i :: 0 <= i < |x.incoming| ==> CreditOk(batches, s, next, CreditsOf(x.incoming, x.batchId)[i])
  {
    forall i | 0 <= i < |x.incoming| ensures CreditOk(batches, s, next, CreditsOf(x.incoming, x.batchId)[i]) {
      CreditsOfAt(x.incoming, x.batchId, i);
      assert Listed(batches[x.batchId], x.incoming[i]);
    }
  }

  /** An intent belongs to at most one confirmed batch. */
  lemma UniqueBatch(h: Hasher, batches: map<Hash, Batch>, id: Hash, x: Hash, y: Hash)
    requires BatchesOk(h, batches) && Known(batches, id, x) && Known(batches, id, y)
    ensures x == y
  {
    assert id in batches[x].results.Keys && id in batches[y].results.Keys;
  }

  /** A chunk not executed before has credited none of its intents before. */
  lemma NotCreditedBefore(h: Hasher, batches: map<Hash, Batch>, s: Int64, st: ShardState, x: Settlement, i: nat, j: nat)
    requires BatchesOk(h, batches) && LogOk(batches, s, st) && x.batchId in batches
    requires SettlementFor(batches[x.batchId], s, x)
    requires ChunkKey(x.batchId, s, 0) !in st.executed && i < |st.credits| && j < |x.incoming|
    ensures st.credits[i].kind == FallbackCredit || st.credits[i].intentId != x.incoming[j].intentId
  {
    var c := st.credits[i];
    assert CreditOk(batches, s, st, c);
    assert Listed(batches[x.batchId], x.incoming[j]);
    if c.intentId == x.incoming[j].intentId {
      UniqueBatch(h, batches, c.intentId, c.batchId, x.batchId);
    }
  }

  lemma SettledLogEntries(batches: map<Hash, Batch>, s: Int64, st: ShardState, next: ShardState, x: Settlement, i: nat)
    requires LogOk(batches, s, st) && x.batchId in batches && SettlementFor(batches[x.batchId], s, x)
    requires next.executed == st.executed + {ChunkKey(x.batchId, s, 0)} && next.credited == st.credited
    requires next.credits == st.credits + CreditsOf(x.incoming, x.batchId) && i < |next.credits|
    ensures CreditOk(batches, s, next, next.credits[i])
  {
    if i < |st.credits| {
      assert CreditOk(batches, s, st, st.credits[i]);
    } else {
      SettledCredits(batches, s, next, x);
      assert next.credits[i] == CreditsOf(x.incoming, x.batchId)[i - |st.credits|];
    }
  }

  ghost predicate Apart(c: Credit, d: Credit) {
    c.kind != d.kind || c.intentId != d.intentId
  }

  lemma OldAndNewApart(h: Hasher, batches: map<Hash, Batch>, s: Int64, st: ShardState, x: Settlement, i: nat, j: nat)
    requires BatchesOk(h, batches) && LogOk(batches, s, st) && x.batchId in batches
    requires SettlementFor(batches[x.batchId], s, x)
    requires ChunkKey(x.batchId, s, 0) !in st.executed && i < |st.credits| && j < |x.incoming|
    ensures Apart(st.credits[i], CreditsOf(x.incoming, x.batchId)[j])
  {
    NotCreditedBefore(h, batches, s, st, x, i, j);
    CreditsOfAt(x.incoming, x.batchId, j);
  }

  lemma NewApart(x: Settlement, i: nat, j: nat)
    requires i < j < |x.incoming| && x.incoming[i].intentId != x.incoming[j].intentId
    ensures Apart(CreditsOf(x.incoming, x.batchId)[i], CreditsOf(x.incoming, x.batchId)[j])
  {
    CreditsOfAt(x.incoming, x.batchId, i);
    CreditsOfAt(x.incoming, x.batchId, j);
  }

  lemma ApartConcat(old': seq<Credit>, added: seq<Credit>)
    requires forall i, j :: 0 <= i < j < |old'| ==> Apart(old'[i], old'[j])
    requires forall i, j :: 0 <= i < j < |added| ==> Apart(added[i], added[j])
    requires forall i, j :: 0 <= i < |old'| && 0 <= j < |added| ==> Apart(old'[i], added[j])
    ensures forall i, j :: 0 <= i < j < |old' + added| ==> Apart((old' + added)[i], (old' + added)[j])
  {
    var all := old' + added;
    forall i, j | 0 <= i < j < |all| ensures Apart(all[i], all[j]) {
      if i < |old'| <= j {
        assert Apart(old'[i], added[j - |old'|]);
      } else if i >= |old'| {
        assert Apart(added[i - |old'|], added[j - |old'|]);
      }
    }
  }

  lemma SettledLog(h: Hasher, batches: map<Hash, Batch>, s: Int64, st: ShardState, next: ShardState, x: Settlement)
    requires BatchesOk(h, batches) && LogOk(batches, s, st) && x.batchId in batches
    requires SettlementFor(batches[x.batchId], s, x)
    requires ChunkKey(x.batchId, s, 0) !in st.executed && next.executed == st.executed + {ChunkKey(x.batchId, s, 0)}
    requires next.credits == st.credits + CreditsOf(x.incoming, x.batchId) && next.credited == st.credited
    requires forall i, j :: 0 <= i < j < |x.incoming| ==> x.incoming[i].intentId != x.incoming[j].intentId
    ensures LogOk(batches, s, next)
  {
    forall i | 0 <= i < |next.credits| ensures CreditOk(batches, s, next, next.credits[i]) {
      SettledLogEntries(batches, s, st, next, x, i);
    }
    var added := CreditsOf(x.incoming, x.batchId);
    forall i, j | 0 <= i < j < |added| ensures Apart(added[i], added[j]) {
      NewApart(x, i, j);
    }
    forall i, j | 0 <= i < |st.credits| && 0 <= j < |added| ensures Apart(st.credits[i], added[j]) {
      OldAndNewApart(h, batches, s, st, x, i, j);
    }
    ApartConcat(st.credits, added);
  }

  lemma SettledKeys(sys: System, s: Int64, next: ShardState, added: seq<ReservedFallback>)
    requires ShardOk(sys, s) && StatusGrows(sys.shards[s], next, added) && next.credited == sys.shards[s].credited
    requires sys.shards[s].credits <= next.credits
    ensures var after := sys.(shards := sys.shards[s := next]); CreditedOk(after, s, next) && CompletedOk(after, s, next)
  {
    forall k | k in next.credited ensures Logged(next, k) {
      LoggedGrows(sys.shards[s], next, k);
    }
  }

  lemma SameListed(b: Batch, r: IntentResult, q: IntentResult)
    requires Listed(b, q) && SameResult(r, q)
    ensures Listed(b, r) && Unsigned(r.intent) == Unsigned(q.intent)
  {
  }

  lemma SameSettlementFor(b: Batch, x: Settlement, y: Settlement)
    requires SettlementFor(b, y.shardId, y) && SameSettlement(x, y) && x.batchId == b.header.batchId
    ensures SettlementFor(b, x.shardId, x)
  {
    var s := x.shardId;
    forall i | 0 <= i < |x.outgoing| ensures Listed(b, x.outgoing[i]) && x.outgoing[i].intent.sourceShard == s {
      SameListed(b, x.outgoing[i], y.outgoing[i]);
      assert Unsigned(x.outgoing[i].intent).sourceShard == s;
    }
    forall i | 0 <= i < |x.incoming| ensures Listed(b, x.incoming[i]) && x.incoming[i].intent.destinationShard == s {
      SameListed(b, x.incoming[i], y.incoming[i]);
      assert Unsigned(x.incoming[i].intent).destinationShard == s;
    }
  }

  /** Whoever made it, a package that verifies against a confirmed header settles what the batch committed to. */
  lemma VerifiedSettles(h: Hasher, inputs: iset<Bytes>, b: Batch, pack: Package)
    requires CollisionFree(h, inputs) && WellFormedBatch(h, b) && Checkable(h, b, pack, inputs)
    requires pack.header == b.header && VerifyPackage(h, pack).Ok?
    ensures SettlementFor(b, pack.settlement.shardId, pack.settlement)
  {
    PackageSound(h, b.ids, b.settlements, pack, inputs);
    var y :| y in b.settlements && SameSettlement(pack.settlement, y);
    SameSettlementFor(b, pack.settlement, y);
  }

  lemma SettleInv(h: Hasher, a: System, s: Int64, pack: Package)
    requires Inv(h, a) && s in a.shards && pack.header.batchId in a.batches
    requires var batch := a.batches[pack.header.batchId]; pack.header == batch.header && SettlementFor(batch, s, pack.settlement)
    requires ApplySettlement(h, a.shards[s], s, pack).Ok?
    requires ChunkKey(pack.settlement.batchId, s, pack.settlement.chunkIndex) !in a.shards[s].executed
    ensures Inv(h, a.(shards := a.shards[s := ApplySettlement(h, a.shards[s], s, pack).value]))
  {
    var st := a.shards[s];
    var x := pack.settlement;
    var next := ApplySettlement(h, st, s, pack).value;
    var batch := a.batches[pack.header.batchId];
    assert x.batchId == pack.header.batchId;
    ApplySettlementKeeps(h, st, s, pack);
    IncomingDistinct(h, s, x.incoming, CheckOutgoing(h, st, s, x.outgoing).value.ids);
    SettledShard(h, a, s, pack, next);
    ReplaceShard(h, a, s, next);
  }

  lemma SettledShard(h: Hasher, a: System, s: Int64, pack: Package, next: ShardState)
    requires Inv(h, a) && s in a.shards && pack.header.batchId in a.batches && ShardInv(next)
    requires Settled(a.shards[s], next, s, pack)
    requires SettlementFor(a.batches[pack.header.batchId], s, pack.settlement)
    requires a.batches[pack.header.batchId].header.batchId == pack.header.batchId
    requires ChunkKey(pack.settlement.batchId, s, pack.settlement.chunkIndex) !in a.shards[s].executed
    requires forall i, j :: 0 <= i < j < |pack.settlement.incoming| ==> pack.settlement.incoming[i].intentId != pack.settlement.incoming[j].intentId
    ensures ShardOk(a.(shards := a.shards[s := next]), s)
  {
    var st, x, batch := a.shards[s], pack.settlement, a.batches[pack.header.batchId];
    assert ShardOk(a, s);
    assert x.outgoing[..|x.outgoing|] == x.outgoing;
    FallbacksFrom(batch, a.batches, s, x, pack, |x.outgoing|);
    var added := FallbacksOf(x.outgoing, x.batchId, pack);
    SettledOutbox(a.batches, s, st, next, added);
    SettledLog(h, a.batches, s, st, next, x);
    SettledKeys(a, s, next, added);
  }

  // ---- fallback credit and completion ----

  lemma NotFallbackCreditedBefore(
    h: Hasher, batches: map<Hash, Batch>, s: Int64, st: ShardState, item: ReservedFallback, i: nat)
    requires BatchesOk(h, batches) && LogOk(batches, s, st) && Known(batches, item.intentId, item.batchId)
    requires item.Key() !in st.credited && i < |st.credits|
    ensures st.credits[i].kind == MatchedCredit || st.credits[i].intentId != item.intentId
  {
    var c := st.credits[i];
    assert CreditOk(batches, s, st, c);
    if c.intentId == item.intentId {
      UniqueBatch(h, batches, c.intentId, c.batchId, item.batchId);
    }
  }

  lemma CreditedLog(
    h: Hasher, batches: map<Hash, Batch>, s: Int64, st: ShardState, next: ShardState, source: Int64,
    item: ReservedFallback)
    requires BatchesOk(h, batches) && LogOk(batches, s, st) && ItemOk(batches, source, item)
    requires item.destinationShard == s
    requires item.Key() !in st.credited && next.credited == st.credited + {item.Key()} && next.executed == st.executed
    requires next.credits == st.credits + [Credit(FallbackCredit, item.intentId, item.batchId, item.recipient, item.amount)]
    ensures LogOk(batches, s, next)
  {
    var n := |st.credits|;
    forall i | 0 <= i < |next.credits| ensures CreditOk(batches, s, next, next.credits[i]) {
      if i < n {
        assert CreditOk(batches, s, st, st.credits[i]);
      }
    }
    forall i, j | 0 <= i < j < |next.credits|
      ensures next.credits[i].kind != next.credits[j].kind || next.credits[i].intentId != next.credits[j].intentId
    {
      if j == n {
        NotFallbackCreditedBefore(h, batches, s, st, item, i);
      }
    }
  }

  lemma CreditInv(h: Hasher, a: System, s: Int64, source: Int64, item: ReservedFallback)
    requires Inv(h, a) && s in a.shards && source in a.shards && item in a.shards[source].outbox
    requires item.batchId in a.batches
    requires CreditResult(h, a.shards[s], s, item, a.batches[item.batchId].header).Ok?
    requires item.Key() !in a.shards[s].credited
    ensures Inv(h, a.(shards := a.shards[s := CreditResult(h, a.shards[s], s, item, a.batches[item.batchId].header).value]))
  {
    var st := a.shards[s];
    var header := a.batches[item.batchId].header;
    var next := CreditResult(h, st, s, item, header).value;
    CreditKeeps(h, st, s, item, header);
    assert ShardOk(a, source);
    assert ItemOk(a.batches, source, item) && item.Key() in a.shards[source].status;
    CreditedLog(h, a.batches, s, st, next, source, item);
    CreditedKeys(a, s, source, item, next);
    ReplaceShard(h, a, s, next);
  }

  lemma CreditedKeys(a: System, s: Int64, source: Int64, item: ReservedFallback, next: ShardState)
    requires ShardOk(a, s) && source in a.shards && ItemOk(a.batches, source, item)
    requires item.Key() in a.shards[source].status
    requires item.destinationShard == s && next.credited == a.shards[s].credited + {item.Key()}
    requires next.status == a.shards[s].status && next.outbox == a.shards[s].outbox
    requires next.credits == a.shards[s].credits + [Credit(FallbackCredit, item.intentId, item.batchId, item.recipient, item.amount)]
    ensures var after := a.(shards := a.shards[s := next]); CreditedOk(after, s, next) && CompletedOk(after, s, next) && OutboxOk(a.batches, s, next)
  {
    forall k | k in next.credited ensures Logged(next, k) {
      if k == item.Key() {
        assert next.credits[|a.shards[s].credits|].kind == FallbackCredit;
      } else {
        LoggedGrows(a.shards[s], next, k);
      }
    }
  }

  lemma CompleteInv(h: Hasher, a: System, m: Completion)
    requires Inv(h, a) && m in a.sent && m.sourceShard in a.shards && CompleteResult(a.shards[m.sourceShard], m.key).Ok?
    ensures Inv(h, a.(shards := a.shards[m.sourceShard := CompleteResult(a.shards[m.sourceShard], m.key).value]))
  {
    var s := m.sourceShard;
    var st := a.shards[s];
    var next := CompleteResult(st, m.key).value;
    CompleteKeeps(st, m.key);
    assert ShardOk(a, s) && SentOk(a, m);
    CompletedKeys(a, m, next);
    ReplaceShard(h, a, s, next);
  }

  lemma CompletedKeys(a: System, m: Completion, next: ShardState)
    requires ShardOk(a, m.sourceShard) && SentOk(a, m) && ShardInv(next)
    requires var st := a.shards[m.sourceShard]; m.key in st.status && next == st.(status := st.status[m.key := Completed])
    ensures ShardOk(a.(shards := a.shards[m.sourceShard := next]), m.sourceShard)
  {
    var s := m.sourceShard;
    forall i | 0 <= i < |next.credits| ensures CreditOk(a.batches, s, next, next.credits[i]) {
      assert CreditOk(a.batches, s, a.shards[s], a.shards[s].credits[i]);
    }
  }

  lemma Unchanged(a: System, s: Int64)
    requires s in a.shards
    ensures a.(shards := a.shards[s := a.shards[s]]) == a
  {
    assert a.shards[s := a.shards[s]] == a.shards;
  }

  /** A settlement that changes the shard is one the batch committed to. */
  lemma ExecutedSettles(h: Hasher, inputs: iset<Bytes>, a: System, s: Int64, pack: Package)
    requires Inv(h, a) && CollisionFree(h, inputs) && s in a.shards && pack.header.batchId in a.batches
    requires Checkable(h, a.batches[pack.header.batchId], pack, inputs)
    requires ExecuteResult(h, a.shards[s], s, pack, a.batches[pack.header.batchId].header).Ok?
    requires ChunkKey(pack.settlement.batchId, s, pack.settlement.chunkIndex) !in a.shards[s].executed
    ensures var batch := a.batches[pack.header.batchId]; pack.header == batch.header && SettlementFor(batch, s, pack.settlement)
    ensures ApplySettlement(h, a.shards[s], s, pack).Ok?
    ensures ExecuteResult(h, a.shards[s], s, pack, a.batches[pack.header.batchId].header) == ApplySettlement(h, a.shards[s], s, pack)
  {
    var batch := a.batches[pack.header.batchId];
    assert WellFormedBatch(h, batch);
    VerifiedSettles(h, inputs, batch, pack);
  }

  lemma SettleStepInv(h: Hasher, inputs: iset<Bytes>, a: System, s: Int64, pack: Package, b: System)
    requires Inv(h, a) && CollisionFree(h, inputs) && StepTo(h, inputs, a, Settle(s, pack), b)
    ensures Inv(h, b)
  {
    var header := a.batches[pack.header.batchId].header;
    var st := a.shards[s];
    Unchanged(a, s);
    if ExecuteResult(h, st, s, pack, header).Ok? && ChunkKey(pack.settlement.batchId, s, pack.settlement.chunkIndex) !in st.executed {
      ExecutedSettles(h, inputs, a, s, pack);
      SettleInv(h, a, s, pack);
    }
  }

  /** The message of a credit that has just been recorded. */
  lemma SendInv(h: Hasher, a: System, m: Completion)
    requires Inv(h, a) && SentOk(a, m)
    ensures Inv(h, a.(sent := a.sent + {m}))
  {
    var b := a.(sent := a.sent + {m});
    forall x | x in b.sent ensures SentOk(b, x) {
      assert SentOk(a, x);
    }
    forall s | s in b.shards ensures ShardOk(b, s) {
      SameShards(a, b, s);
    }
  }

  lemma SameShards(a: System, b: System, s: Int64)
    requires ShardOk(a, s) && b.shards == a.shards && b.batches == a.batches
    ensures ShardOk(b, s)
  {
  }

  /** Once the destination holds the credit of an outbox entry, its completion may be sent. */
  lemma CreditSent(h: Hasher, a: System, s: Int64, source: Int64, item: ReservedFallback)
    requires Inv(h, a) && s in a.shards && source in a.shards && item in a.shards[source].outbox
    requires item.destinationShard == s && item.Key() in a.shards[s].credited
    ensures SentOk(a, Completion(item.sourceShard, item.Key()))
  {
    assert ShardOk(a, source) && ItemOk(a.batches, source, item);
  }

  /** What every successful credit leaves, whether new or repeated. */
  lemma CreditShape(h: Hasher, st: ShardState, s: Int64, item: ReservedFallback, header: Header)
    requires CreditResult(h, st, s, item, header).Ok?
    ensures var next := CreditResult(h, st, s, item, header).value; next.outbox == st.outbox && item.Key() in next.credited
    ensures item.destinationShard == s && (item.Key() in st.credited ==> CreditResult(h, st, s, item, header).value == st)
  {
  }

  lemma CreditedInv(h: Hasher, a: System, s: Int64, source: Int64, item: ReservedFallback, next: ShardState)
    requires Inv(h, a) && s in a.shards && source in a.shards && item in a.shards[source].outbox
    requires item.batchId in a.batches
    requires CreditResult(h, a.shards[s], s, item, a.batches[item.batchId].header) == Ok(next)
    ensures Inv(h, a.(shards := a.shards[s := next]))
  {
    if item.Key() in a.shards[s].credited {
      CreditShape(h, a.shards[s], s, item, a.batches[item.batchId].header);
      Unchanged(a, s);
    } else {
      CreditInv(h, a, s, source, item);
    }
  }

  lemma CreditedSent(h: Hasher, mid: System, s: Int64, source: Int64, item: ReservedFallback)
    requires Inv(h, mid) && s in mid.shards && source in mid.shards && item in mid.shards[source].outbox
    requires item.destinationShard == s && item.Key() in mid.shards[s].credited
    ensures Inv(h, mid.(sent := mid.sent + {Completion(item.sourceShard, item.Key())}))
  {
    CreditSent(h, mid, s, source, item);
    SendInv(h, mid, Completion(item.sourceShard, item.Key()));
  }

  lemma CreditStepInv(
    h: Hasher, inputs: iset<Bytes>, a: System, s: Int64, source: Int64, item: ReservedFallback, b: System)
    requires Inv(h, a) && StepTo(h, inputs, a, CreditFallback(s, source, item), b)
    ensures Inv(h, b)
  {
    var header := a.batches[item.batchId].header;
    var r := CreditResult(h, a.shards[s], s, item, header);
    if r.Ok? {
      CreditedInv(h, a, s, source, item, r.value);
      CreditShape(h, a.shards[s], s, item, header);
      SendAfter(h, a, s, source, item, r.value);
    }
  }

  lemma SendAfter(h: Hasher, a: System, s: Int64, source: Int64, item: ReservedFallback, next: ShardState)
    requires s in a.shards && source in a.shards && item in a.shards[source].outbox && next.outbox == a.shards[s].outbox
    requires item.destinationShard == s && item.Key() in next.credited && Inv(h, a.(shards := a.shards[s := next]))
    ensures Inv(h, a.(shards := a.shards[s := next], sent := a.sent + {Completion(item.sourceShard, item.Key())}))
  {
    var mid := a.(shards := a.shards[s := next]);
    assert mid.shards[source].outbox == a.shards[source].outbox;
    CreditedSent(h, mid, s, source, item);
  }

  lemma CompleteStepInv(h: Hasher, inputs: iset<Bytes>, a: System, m: Completion, b: System)
    requires Inv(h, a) && StepTo(h, inputs, a, CompleteFallback(m), b)
    ensures Inv(h, b)
  {
    Unchanged(a, m.sourceShard);
    if CompleteResult(a.shards[m.sourceShard], m.key).Ok? {
      CompleteInv(h, a, m);
    }
  }

  lemma SubmitStepInv(
    h: Hasher, inputs: iset<Bytes>, a: System, s: Int64, p: PaymentIntent, ctx: ValidationContext, b: System)
    requires Inv(h, a) && StepTo(h, inputs, a, Submit(s, p, ctx), b)
    ensures Inv(h, b)
  {
    Unchanged(a, s);
    if SubmitResult(h, a.shards[s], p, ctx).Ok? {
      SubmitInv(h, a, s, p, ctx);
    }
  }

  /** Every event keeps the invariant. */
  lemma StepInv(h: Hasher, inputs: iset<Bytes>, a: System, e: Event, b: System)
    requires Inv(h, a) && CollisionFree(h, inputs) && StepTo(h, inputs, a, e, b)
    ensures Inv(h, b)
  {
    match e
    case Submit(s, p, ctx) => SubmitStepInv(h, inputs, a, s, p, ctx, b);
    case Confirm(batch) => ConfirmInv(h, a, batch);
    case Settle(s, pack) => SettleStepInv(h, inputs, a, s, pack, b);
    case CreditFallback(s, source, item) => CreditStepInv(h, inputs, a, s, source, item, b);
    case CompleteFallback(m) => CompleteStepInv(h, inputs, a, m, b);
    case Idle =>
  }

  // ---- conservation ----

  /** The part of an outbox already credited at its destinations. */
  ghost function CreditedPart(outbox: seq<ReservedFallback>, shards: map<Int64, ShardState>): int {
    if outbox == [] then 0 else
      var item := outbox[|outbox| - 1];
      CreditedPart(outbox[..|outbox| - 1], shards) + (if IsCredited(item, shards) then item.amount else 0)
  }

  ghost predicate IsCredited(item: ReservedFallback, shards: map<Int64, ShardState>) {
    item.destinationShard in shards && item.Key() in shards[item.destinationShard].credited
  }

  /** The created-but-uncredited part of an outbox. */
  ghost function InFlightPart(outbox: seq<ReservedFallback>, shards: map<Int64, ShardState>): int {
    if outbox == [] then 0 else
      var item := outbox[|outbox| - 1];
      InFlightPart(outbox[..|outbox| - 1], shards) + (if IsCredited(item, shards) then 0 else item.amount)
  }

  lemma {:induction false} Parts(outbox: seq<ReservedFallback>, shards: map<Int64, ShardState>)
    ensures CreditedPart(outbox, shards) + InFlightPart(outbox, shards) == OutboxTotal(outbox)
    decreases |outbox|
  {
    if outbox != [] {
      Parts(outbox[..|outbox| - 1], shards);
    }
  }

  ghost function Values(sys: System): map<Int64, int> {
    map s | s in sys.shards :: Value(sys.shards[s])
  }

  ghost function CreditedParts(sys: System): map<Int64, int> {
    map s | s in sys.shards :: CreditedPart(sys.shards[s].outbox, sys.shards)
  }

  /** User balances and escrow of every shard. */
  ghost function Holdings(sys: System): map<Int64, int> {
    map s | s in sys.shards :: Wealth(sys.shards[s])
  }

  /** Fallbacks created and not yet credited, by creating shard. */
  ghost function InFlight(sys: System): map<Int64, int> {
    map s | s in sys.shards :: InFlightPart(sys.shards[s].outbox, sys.shards)
  }

  ghost function Minted(sys: System): map<Int64, int> {
    map s | s in sys.shards :: sys.shards[s].minted
  }

  /** Everything the system owns. */
  ghost function Assets(sys: System): int {
    Sum(Holdings(sys)) + Sum(InFlight(sys))
  }

  ghost function Net(sys: System): int {
    Sum(Values(sys)) - Sum(CreditedParts(sys))
  }

  /** Net is the assets without the minted initial balances. */
  lemma AssetsAreNet(sys: System)
    ensures Assets(sys) - Sum(Minted(sys)) == Net(sys)
  {
    var both := map s | s in sys.shards :: Holdings(sys)[s] + InFlight(sys)[s];
    SumAdd(Holdings(sys), InFlight(sys), both);
    var rest := map s | s in sys.shards :: Values(sys)[s] - CreditedParts(sys)[s];
    SumAdd(rest, CreditedParts(sys), Values(sys));
    forall s | s in sys.shards ensures both[s] == rest[s] + Minted(sys)[s] {
      Parts(sys.shards[s].outbox, sys.shards);
    }
    SumAdd(rest, Minted(sys), both);
  }

  /** The credited sets of all shards are the same. */
  ghost predicate SameCredited(x: map<Int64, ShardState>, y: map<Int64, ShardState>) {
    x.Keys == y.Keys && forall s :: s in x ==> x[s].credited == y[s].credited
  }

  lemma {:induction false} CreditedPartSame(
    outbox: seq<ReservedFallback>, x: map<Int64, ShardState>, y: map<Int64, ShardState>)
    requires SameCredited(x, y)
    ensures CreditedPart(outbox, x) == CreditedPart(outbox, y)
    decreases |outbox|
  {
    if outbox != [] {
      CreditedPartSame(outbox[..|outbox| - 1], x, y);
    }
  }

  lemma {:induction false} CreditedPartConcat(
    xs: seq<ReservedFallback>, ys: seq<ReservedFallback>, shards: map<Int64, ShardState>)
    requires forall i :: 0 <= i < |ys| ==> !IsCredited(ys[i], shards)
    ensures CreditedPart(xs + ys, shards) == CreditedPart(xs, shards)
    decreases |ys|
  {
    if ys == [] {
      assert xs + ys == xs;
    } else {
      var init := ys[..|ys| - 1];
      CreditedPartConcat(xs, init, shards);
      assert (xs + ys)[..|xs + ys| - 1] == xs + init;
    }
  }

  /** A step that changes one shard's state, keeping its value, its credited set and adding only uncredited outbox items. */
  lemma NetUnchanged(a: System, s: Int64, next: ShardState, added: seq<ReservedFallback>)
    requires s in a.shards && Value(next) == Value(a.shards[s]) && next.credited == a.shards[s].credited
    requires next.outbox == a.shards[s].outbox + added
    requires forall i :: 0 <= i < |added| ==> !IsCredited(added[i], a.shards)
    ensures Net(a.(shards := a.shards[s := next])) == Net(a)
  {
    var b := a.(shards := a.shards[s := next]);
    assert Values(b) == Values(a);
    assert SameCredited(a.shards, b.shards);
    forall t | t in a.shards ensures CreditedParts(b)[t] == CreditedParts(a)[t] {
      CreditedPartSame(a.shards[t].outbox, a.shards, b.shards);
      if t == s {
        CreditedPartConcat(a.shards[s].outbox, added, a.shards);
        CreditedPartSame(next.outbox, a.shards, b.shards);
      }
    }
    assert CreditedParts(b) == CreditedParts(a);
  }

  // ---- one credit ----

  /** The amounts of the outbox items with the key and destination. */
  ghost function Matching(outbox: seq<ReservedFallback>, k: FallbackKey, d: Int64): int {
    if outbox == [] then 0 else
      var item := outbox[|outbox| - 1];
      Matching(outbox[..|outbox| - 1], k, d) + (if item.Key() == k && item.destinationShard == d then item.amount else 0)
  }

  lemma {:induction false} MatchingNone(outbox: seq<ReservedFallback>, k: FallbackKey, d: Int64)
    requires forall i :: 0 <= i < |outbox| ==> outbox[i].Key() != k
    ensures Matching(outbox, k, d) == 0
    decreases |outbox|
  {
    if outbox != [] {
      MatchingNone(outbox[..|outbox| - 1], k, d);
    }
  }

  lemma {:induction false} MatchingOne(outbox: seq<ReservedFallback>, i: nat)
    requires i < |outbox| && forall x, y :: 0 <= x < y < |outbox| ==> outbox[x].Key() != outbox[y].Key()
    ensures Matching(outbox, outbox[i].Key(), outbox[i].destinationShard) == outbox[i].amount
    decreases |outbox|
  {
    var n := |outbox| - 1;
    if i == n {
      MatchingNone(outbox[..n], outbox[n].Key(), outbox[n].destinationShard);
    } else {
      MatchingOne(outbox[..n], i);
    }
  }

  lemma {:induction false} CreditedPartAfter(
    outbox: seq<ReservedFallback>, x: map<Int64, ShardState>, d: Int64, next: ShardState, k: FallbackKey)
    requires d in x && k !in x[d].credited && next.credited == x[d].credited + {k}
    ensures CreditedPart(outbox, x[d := next]) == CreditedPart(outbox, x) + Matching(outbox, k, d)
    decreases |outbox|
  {
    if outbox != [] {
      CreditedPartAfter(outbox[..|outbox| - 1], x, d, next, k);
    }
  }

  lemma MatchingOf(h: Hasher, a: System, source: Int64, item: ReservedFallback, t: Int64)
    requires Inv(h, a) && source in a.shards && item in a.shards[source].outbox && t in a.shards
    ensures Matching(a.shards[t].outbox, item.Key(), item.destinationShard) == if t == source then item.amount else 0
  {
    var outbox, home := a.shards[t].outbox, a.shards[source].outbox;
    OutboxFacts(h, a, source);
    OutboxFacts(h, a, t);
    if t == source {
      MatchingHere(outbox, item);
    } else {
      ItemIn(a.batches, source, home, item);
      MatchingElsewhere(a.batches, source, item, t, outbox);
    }
  }

  lemma ItemIn(batches: map<Hash, Batch>, source: Int64, outbox: seq<ReservedFallback>, item: ReservedFallback)
    requires OutboxIs(batches, source, outbox) && item in outbox
    ensures ItemOk(batches, source, item)
  {
  }

  lemma MatchingHere(outbox: seq<ReservedFallback>, item: ReservedFallback)
    requires item in outbox && KeysOnce(outbox)
    ensures Matching(outbox, item.Key(), item.destinationShard) == item.amount
  {
    var i :| 0 <= i < |outbox| && outbox[i] == item;
    MatchingOne(outbox, i);
  }

  ghost predicate OutboxIs(batches: map<Hash, Batch>, t: Int64, outbox: seq<ReservedFallback>) {
    forall i :: 0 <= i < |outbox| ==> ItemOk(batches, t, outbox[i])
  }

  ghost predicate KeysOnce(outbox: seq<ReservedFallback>) {
    forall x, y :: 0 <= x < y < |outbox| ==> outbox[x].Key() != outbox[y].Key()
  }

  lemma OutboxFacts(h: Hasher, a: System, t: Int64)
    requires Inv(h, a) && t in a.shards
    ensures OutboxIs(a.batches, t, a.shards[t].outbox) && KeysOnce(a.shards[t].outbox)
  {
    assert ShardOk(a, t);
  }

  /** The outbox of another shard holds nothing under the item's key. */
  lemma MatchingElsewhere(
    batches: map<Hash, Batch>, source: Int64, item: ReservedFallback, t: Int64, outbox: seq<ReservedFallback>)
    requires ItemOk(batches, source, item) && t != source && OutboxIs(batches, t, outbox)
    ensures Matching(outbox, item.Key(), item.destinationShard) == 0
  {
    forall i | 0 <= i < |outbox| ensures outbox[i].Key() != item.Key() {
      assert ItemOk(batches, t, outbox[i]);
    }
    MatchingNone(outbox, item.Key(), item.destinationShard);
  }

  lemma CreditedPartAt(
    h: Hasher, a: System, s: Int64, source: Int64, item: ReservedFallback, next: ShardState, t: Int64)
    requires Inv(h, a) && s in a.shards && source in a.shards && item in a.shards[source].outbox
    requires item.destinationShard == s
    requires item.Key() !in a.shards[s].credited && next.credited == a.shards[s].credited + {item.Key()}
    requires t in a.shards
    ensures CreditedPart(a.shards[t].outbox, a.shards[s := next]) ==
      CreditedPart(a.shards[t].outbox, a.shards) + (if t == source then item.amount else 0)
  {
    MatchingOf(h, a, source, item, t);
    CreditedPartAfter(a.shards[t].outbox, a.shards, s, next, item.Key());
  }

  /** One value of a map raised by an amount. */
  ghost predicate Raised(x: map<Int64, int>, y: map<Int64, int>, k: Int64, amount: int) {
    k in x && y.Keys == x.Keys && forall t :: t in x ==> y[t] == x[t] + (if t == k then amount else 0)
  }

  lemma RaisedSum(x: map<Int64, int>, y: map<Int64, int>, k: Int64, amount: int)
    requires Raised(x, y, k, amount)
    ensures Sum(y) == Sum(x) + amount
  {
    assert y == x[k := x[k] + amount];
    SumUpdate(x, k, x[k] + amount);
  }

  lemma PartsRaised(a: System, s: Int64, next: ShardState, source: Int64, amount: int)
    requires s in a.shards && source in a.shards && next.outbox == a.shards[s].outbox
    requires forall t :: t in a.shards ==>
      CreditedPart(a.shards[t].outbox, a.shards[s := next]) == CreditedPart(a.shards[t].outbox, a.shards) + (if t == source then amount else 0)
    ensures Raised(CreditedParts(a), CreditedParts(a.(shards := a.shards[s := next])), source, amount)
  {
    var b := a.(shards := a.shards[s := next]);
    forall t | t in a.shards ensures b.shards[t].outbox == a.shards[t].outbox {
    }
  }

  lemma ValuesAfter(a: System, s: Int64, next: ShardState, amount: int)
    requires s in a.shards && Value(next) == Value(a.shards[s]) + amount
    ensures Raised(Values(a), Values(a.(shards := a.shards[s := next])), s, amount)
  {
  }

  lemma CreditNet(h: Hasher, a: System, s: Int64, source: Int64, item: ReservedFallback, next: ShardState)
    requires Inv(h, a) && s in a.shards && source in a.shards && item in a.shards[source].outbox
    requires item.destinationShard == s
    requires item.Key() !in a.shards[s].credited && next.credited == a.shards[s].credited + {item.Key()}
    requires next.outbox == a.shards[s].outbox
    requires Value(next) == Value(a.shards[s]) + item.amount
    ensures Net(a.(shards := a.shards[s := next])) == Net(a)
  {
    var b := a.(shards := a.shards[s := next]);
    CreditParts(h, a, s, source, item, next);
    ValuesAfter(a, s, next, item.amount);
    RaisedNet(a, b, s, source, item.amount);
  }

  /** What one shard gains is what another shard's outbox has credited more. */
  lemma RaisedNet(a: System, b: System, s: Int64, source: Int64, amount: int)
    requires Raised(CreditedParts(a), CreditedParts(b), source, amount) && Raised(Values(a), Values(b), s, amount)
    ensures Net(b) == Net(a)
  {
    RaisedSum(CreditedParts(a), CreditedParts(b), source, amount);
    RaisedSum(Values(a), Values(b), s, amount);
  }

  lemma CreditParts(h: Hasher, a: System, s: Int64, source: Int64, item: ReservedFallback, next: ShardState)
    requires Inv(h, a) && s in a.shards && source in a.shards && item in a.shards[source].outbox
    requires item.destinationShard == s
    requires item.Key() !in a.shards[s].credited && next.credited == a.shards[s].credited + {item.Key()}
    requires next.outbox == a.shards[s].outbox
    ensures Raised(CreditedParts(a), CreditedParts(a.(shards := a.shards[s := next])), source, item.amount)
  {
    forall t | t in a.shards
      ensures CreditedPart(a.shards[t].outbox, a.shards[s := next]) ==
        CreditedPart(a.shards[t].outbox, a.shards) + (if t == source then item.amount else 0)
    {
      CreditedPartAt(h, a, s, source, item, next, t);
    }
    PartsRaised(a, s, next, source, item.amount);
  }

  // ---- conservation over every event ----

  /** The fallbacks a settlement adds have not been credited anywhere. */
  lemma AddedUncredited(h: Hasher, a: System, s: Int64, next: ShardState, added: seq<ReservedFallback>)
    requires Inv(h, a) && s in a.shards && StatusGrows(a.shards[s], next, added)
    requires forall i :: 0 <= i < |added| ==> ItemOk(a.batches, s, added[i])
    ensures forall i :: 0 <= i < |added| ==> !IsCredited(added[i], a.shards)
  {
    forall i | 0 <= i < |added| ensures !IsCredited(added[i], a.shards) {
      var item := added[i];
      assert item in added && item.Key() in KeysOf(added);
      if item.destinationShard in a.shards {
        assert ShardOk(a, item.destinationShard);
      }
    }
  }

  lemma SettleNet(h: Hasher, inputs: iset<Bytes>, a: System, s: Int64, pack: Package, b: System)
    requires Inv(h, a) && CollisionFree(h, inputs) && StepTo(h, inputs, a, Settle(s, pack), b)
    ensures Net(b) == Net(a)
  {
    var st := a.shards[s];
    var x := pack.settlement;
    var batch := a.batches[pack.header.batchId];
    Unchanged(a, s);
    if ExecuteResult(h, st, s, pack, batch.header).Ok? && ChunkKey(x.batchId, s, x.chunkIndex) !in st.executed {
      ExecutedSettles(h, inputs, a, s, pack);
      var next := ApplySettlement(h, st, s, pack).value;
      assert ShardOk(a, s);
      ApplySettlementKeeps(h, st, s, pack);
      SettledNet(h, a, s, pack, next);
    }
  }

  lemma SettledNet(h: Hasher, a: System, s: Int64, pack: Package, next: ShardState)
    requires Inv(h, a) && s in a.shards && pack.header.batchId in a.batches && Settled(a.shards[s], next, s, pack)
    requires Value(next) == Value(a.shards[s])
    requires SettlementFor(a.batches[pack.header.batchId], s, pack.settlement)
    requires a.batches[pack.header.batchId].header.batchId == pack.header.batchId
    ensures Net(a.(shards := a.shards[s := next])) == Net(a)
  {
    var x, batch := pack.settlement, a.batches[pack.header.batchId];
    var added := FallbacksOf(x.outgoing, x.batchId, pack);
    assert x.outgoing[..|x.outgoing|] == x.outgoing;
    FallbacksFrom(batch, a.batches, s, x, pack, |x.outgoing|);
    AddedUncredited(h, a, s, next, added);
    NetUnchanged(a, s, next, added);
  }

  lemma CreditFallbackNet(
    h: Hasher, inputs: iset<Bytes>, a: System, s: Int64, source: Int64, item: ReservedFallback, b: System)
    requires Inv(h, a) && StepTo(h, inputs, a, CreditFallback(s, source, item), b)
    ensures Net(b) == Net(a)
  {
    var r := CreditResult(h, a.shards[s], s, item, a.batches[item.batchId].header);
    if r.Ok? {
      CreditedNet(h, a, s, source, item, r.value);
      SentNet(a.(shards := a.shards[s := r.value]), b);
    }
  }

  lemma CreditedNet(h: Hasher, a: System, s: Int64, source: Int64, item: ReservedFallback, next: ShardState)
    requires Inv(h, a) && s in a.shards && source in a.shards && item in a.shards[source].outbox
    requires item.batchId in a.batches
    requires CreditResult(h, a.shards[s], s, item, a.batches[item.batchId].header) == Ok(next)
    ensures Net(a.(shards := a.shards[s := next])) == Net(a)
  {
    var header := a.batches[item.batchId].header;
    CreditShape(h, a.shards[s], s, item, header);
    if item.Key() in a.shards[s].credited {
      Unchanged(a, s);
    } else {
      assert ShardOk(a, s);
      CreditKeeps(h, a.shards[s], s, item, header);
      CreditNet(h, a, s, source, item, next);
    }
  }

  lemma SentNet(a: System, b: System)
    requires a.shards == b.shards
    ensures Net(a) == Net(b)
  {
    assert Values(a) == Values(b) && CreditedParts(a) == CreditedParts(b);
  }

  lemma SubmitNet(
    h: Hasher, inputs: iset<Bytes>, a: System, s: Int64, p: PaymentIntent, ctx: ValidationContext, b: System)
    requires Inv(h, a) && StepTo(h, inputs, a, Submit(s, p, ctx), b)
    ensures Net(b) == Net(a)
  {
    Unchanged(a, s);
    if SubmitResult(h, a.shards[s], p, ctx).Ok? {
      SubmitKeeps(h, a.shards[s], p, ctx);
      NetUnchanged(a, s, SubmitResult(h, a.shards[s], p, ctx).value, []);
    }
  }

  lemma CompleteNet(h: Hasher, inputs: iset<Bytes>, a: System, m: Completion, b: System)
    requires Inv(h, a) && StepTo(h, inputs, a, CompleteFallback(m), b)
    ensures Net(b) == Net(a)
  {
    assert ShardOk(a, m.sourceShard);
    CompletedNet(a, m.sourceShard, m.key);
  }

  lemma CompletedNet(a: System, s: Int64, k: FallbackKey)
    requires s in a.shards && ShardInv(a.shards[s])
    ensures Net(a.(shards := a.shards[s := StateAfter(CompleteResult(a.shards[s], k), a.shards[s])])) == Net(a)
  {
    var st := a.shards[s];
    if CompleteResult(st, k).Ok? {
      CompleteKeeps(st, k);
      NetUnchanged(a, s, CompleteResult(st, k).value, []);
    } else {
      Unchanged(a, s);
    }
  }

  /** Every event changes the total of balances, escrow and uncredited fallbacks only by what it mints. */
  lemma StepConserves(h: Hasher, inputs: iset<Bytes>, a: System, e: Event, b: System)
    requires Inv(h, a) && CollisionFree(h, inputs) && StepTo(h, inputs, a, e, b)
    ensures Assets(b) - Assets(a) == Sum(Minted(b)) - Sum(Minted(a))
  {
    AssetsAreNet(a);
    AssetsAreNet(b);
    match e
    case Submit(s, p, ctx) => SubmitNet(h, inputs, a, s, p, ctx, b);
    case Confirm(batch) => SentNet(a, b);
    case Settle(s, pack) => SettleNet(h, inputs, a, s, pack, b);
    case CreditFallback(s, source, item) => CreditFallbackNet(h, inputs, a, s, source, item, b);
    case CompleteFallback(m) => CompleteNet(h, inputs, a, m, b);
    case Idle =>
  }

  // ---- whole runs ----

  /** A run from fresh shards. */
  ghost predicate Run(h: Hasher, inputs: iset<Bytes>, states: seq<System>, events: seq<Event>) {
    && |states| == |events| + 1 && Init(states[0]) && CollisionFree(h, inputs)
    && forall i :: 0 <= i < |events| ==> StepTo(h, inputs, states[i], events[i], states[i + 1])
  }

  lemma {:induction false} RunInv(h: Hasher, inputs: iset<Bytes>, states: seq<System>, events: seq<Event>, n: nat)
    requires Run(h, inputs, states, events) && n < |states|
    ensures Inv(h, states[n])
    ensures Assets(states[n]) - Assets(states[0]) == Sum(Minted(states[n])) - Sum(Minted(states[0]))
    decreases n
  {
    if n == 0 {
      InitInv(h, states[0]);
    } else {
      RunInv(h, inputs, states, events, n - 1);
      StepInv(h, inputs, states[n - 1], events[n - 1], states[n]);
      StepConserves(h, inputs, states[n - 1], events[n - 1], states[n]);
    }
  }

  /**
   * Conservation over every run: each shard's escrow equals its still reserved amounts, and the total of user balances,
   * escrow and created-but-uncredited fallbacks changes only by counted initial balances.
   */
  lemma RunConserves(h: Hasher, inputs: iset<Bytes>, states: seq<System>, events: seq<Event>, n: nat)
    requires Run(h, inputs, states, events) && n < |states|
    ensures forall s :: s in states[n].shards ==> states[n].shards[s].escrow == SumReserved(states[n].shards[s])
    ensures Assets(states[n]) - Assets(states[0]) == Sum(Minted(states[n])) - Sum(Minted(states[0]))
  {
    RunInv(h, inputs, states, events, n);
    forall s | s in states[n].shards ensures states[n].shards[s].escrow == SumReserved(states[n].shards[s]) {
      assert ShardOk(states[n], s);
    }
  }

  /** A credit of some kind given to an intent somewhere in the system. */
  ghost predicate Gave(sys: System, s: Int64, i: nat, kind: CreditKind, id: Hash) {
    s in sys.shards && i < |sys.shards[s].credits| && sys.shards[s].credits[i].kind == kind && sys.shards[s].credits[i].intentId == id
  }

  /** Exactly once: an intent's recipient is credited the matched part at most once and the fallback part at most once. */
  lemma CreditedAtMostOnce(
    h: Hasher, inputs: iset<Bytes>, states: seq<System>, events: seq<Event>, n: nat, kind: CreditKind, id: Hash,
    s: Int64, i: nat, t: Int64, j: nat)
    requires Run(h, inputs, states, events) && n < |states|
    requires Gave(states[n], s, i, kind, id) && Gave(states[n], t, j, kind, id)
    ensures s == t && i == j
  {
    var sys := states[n];
    RunInv(h, inputs, states, events, n);
    assert ShardOk(sys, s) && ShardOk(sys, t);
    var c, d := sys.shards[s].credits[i], sys.shards[t].credits[j];
    assert CreditOk(sys.batches, s, sys.shards[s], c) && CreditOk(sys.batches, t, sys.shards[t], d);
    UniqueBatch(h, sys.batches, id, c.batchId, d.batchId);
  }

  /** The two credits of an intent of a confirmed batch: both parts, to its recipient on its destination shard. */
  ghost predicate PaidInFull(sys: System, id: Hash, s: Int64, c: Credit, d: Credit) {
    && Known(sys.batches, id, c.batchId) && d.batchId == c.batchId
    && var p := ResultIn(sys.batches, id, c.batchId).intent;
    c.amount + d.amount == p.amount && c.recipient == p.recipient && d.recipient == p.recipient && p.destinationShard == s
  }

  /** Once both parts are credited they sum to the intent's amount and went to its recipient on its destination shard. */
  lemma PartsSumToAmount(
    h: Hasher, inputs: iset<Bytes>, states: seq<System>, events: seq<Event>, n: nat, id: Hash, s: Int64, i: nat, t: Int64, j: nat)
    requires Run(h, inputs, states, events) && n < |states|
    requires Gave(states[n], s, i, MatchedCredit, id) && Gave(states[n], t, j, FallbackCredit, id)
    ensures s == t && PaidInFull(states[n], id, s, states[n].shards[s].credits[i], states[n].shards[t].credits[j])
  {
    RunInv(h, inputs, states, events, n);
    PartsIn(h, states[n], id, s, i, t, j);
  }

  lemma PartsIn(h: Hasher, sys: System, id: Hash, s: Int64, i: nat, t: Int64, j: nat)
    requires Inv(h, sys) && Gave(sys, s, i, MatchedCredit, id) && Gave(sys, t, j, FallbackCredit, id)
    ensures s == t && PaidInFull(sys, id, s, sys.shards[s].credits[i], sys.shards[t].credits[j])
  {
    assert ShardOk(sys, s) && ShardOk(sys, t);
    PartsOf(h, sys.batches, s, sys.shards[s], i, t, sys.shards[t], j, id);
  }

  /** The two parts of one intent, as the credit logs of its shards record them. */
  lemma PartsOf(
    h: Hasher, batches: map<Hash, Batch>, s: Int64, x: ShardState, i: nat, t: Int64, y: ShardState, j: nat,
    id: Hash)
    requires BatchesOk(h, batches) && LogOk(batches, s, x) && LogOk(batches, t, y) && i < |x.credits| && j < |y.credits|
    requires x.credits[i].kind == MatchedCredit && x.credits[i].intentId == id && y.credits[j].kind == FallbackCredit
    requires y.credits[j].intentId == id
    ensures s == t && Known(batches, id, x.credits[i].batchId) && y.credits[j].batchId == x.credits[i].batchId
    ensures var c, d, p := x.credits[i], y.credits[j], ResultIn(batches, id, x.credits[i].batchId).intent;
      c.amount + d.amount == p.amount && c.recipient == p.recipient && d.recipient == p.recipient && p.destinationShard == s
  {
    var c, d := x.credits[i], y.credits[j];
    assert CreditOk(batches, s, x, c) && CreditOk(batches, t, y, d);
    UniqueBatch(h, batches, id, c.batchId, d.batchId);
    assert WellFormedBatch(h, batches[c.batchId]);
    ValidResultSums(h, batches[c.batchId].results[id]);
  }

  lemma ValidResultSums(h: Hasher, r: IntentResult)
    requires ValidateResult(h, r).Ok?
    ensures r.matched + r.fallback == r.intent.amount
  {
  }

  /** A fallback marked completed at its source has been credited at its destination. */
  lemma CompletedIsCredited(
    h: Hasher, inputs: iset<Bytes>, states: seq<System>, events: seq<Event>, n: nat, s: Int64, k: FallbackKey)
    requires Run(h, inputs, states, events) && n < |states|
    requires s in states[n].shards && k in states[n].shards[s].status && states[n].shards[s].status[k] == Completed
    ensures k.batchId in states[n].batches && k.intentId in states[n].batches[k.batchId].results
    ensures var r := states[n].batches[k.batchId].results[k.intentId];
      var d := r.intent.destinationShard;
      d in states[n].shards && Credit(FallbackCredit, k.intentId, k.batchId, r.intent.recipient, r.fallback) in states[n].shards[d].credits
  {
    var sys := states[n];
    RunInv(h, inputs, states, events, n);
    assert ShardOk(sys, s);
    var d := sys.batches[k.batchId].results[k.intentId].intent.destinationShard;
    assert ShardOk(sys, d) && Logged(sys.shards[d], k);
    var st := sys.shards[d];
    var i :| 0 <= i < |st.credits| && st.credits[i].kind == FallbackCredit && st.credits[i].intentId == k.intentId && st.credits[i].batchId == k.batchId;
    assert CreditOk(sys.batches, d, st, st.credits[i]);
  }
}
