/** What every operation on one shard keeps: escrow backing, value, and the append-only records. */
module SettlementProofs {
  import opened Base
  import opened ByteStrings
  import opened Sums
  import opened Model
  import opened Packages
  import opened Settlements

  // ---- quantities ----

  ghost function ReservedAmounts(st: ShardState): map<Hash, int> {
    map i | i in st.reservations && st.reservations[i].status == Reserved :: st.reservations[i].amount
  }

  /** The sum of the amounts still reserved. */
  ghost function SumReserved(st: ShardState): int {
    Sum(ReservedAmounts(st))
  }

  ghost function OutboxTotal(outbox: seq<ReservedFallback>): int {
    if outbox == [] then 0 else OutboxTotal(outbox[..|outbox| - 1]) + outbox[|outbox| - 1].amount
  }

  /** User balances and escrow together. */
  ghost function Wealth(st: ShardState): int {
    Sum(st.balances) + st.escrow
  }

  /** Wealth and everything ever put into the outbox, without the minted initial balances. */
  ghost function Value(st: ShardState): int {
    Wealth(st) + OutboxTotal(st.outbox) - st.minted
  }

  /** A fallback record belongs to a consumed reservation, and the outbox lists each recorded key once. */
  ghost predicate RecordsOk(st: ShardState) {
    && (forall k :: k in st.status ==> k.intentId in st.reservations && st.reservations[k.intentId].status == Consumed)
    && (forall i :: 0 <= i < |st.outbox| ==> st.outbox[i].Key() in st.status)
    && (forall i, j :: 0 <= i < j < |st.outbox| ==> st.outbox[i].Key() != st.outbox[j].Key())
    && (forall i :: i in st.reservations ==> st.reservations[i].amount > 0)
  }

  /** The escrow holds exactly what is still reserved. */
  ghost predicate ShardInv(st: ShardState) {
    st.escrow == SumReserved(st) && RecordsOk(st)
  }

  lemma AddBalanceValue(st: ShardState, a: Address, amount: int)
    ensures Sum(AddBalance(st, a, amount).balances) == Sum(st.balances) + amount
  {
    SumUpdate(st.balances, a, (if a in st.balances then st.balances[a] else 0) + amount);
  }

  lemma EnsureAccountValue(st: ShardState, a: Address)
    ensures Sum(EnsureAccount(st, a).balances) - EnsureAccount(st, a).minted == Sum(st.balances) - st.minted
    ensures a in EnsureAccount(st, a).balances
  {
    SumUpdate(st.balances, a, INITIAL_BALANCE);
  }

  // ---- reservation ----

  lemma ReservedAdd(st: ShardState, next: ShardState, id: Hash, r: Reservation)
    requires id !in st.reservations && next.reservations == st.reservations[id := r] && r.status == Reserved
    ensures SumReserved(next) == SumReserved(st) + r.amount
  {
    assert ReservedAmounts(next) == ReservedAmounts(st)[id := r.amount];
    SumUpdate(ReservedAmounts(st), id, r.amount);
  }

  lemma ReservedRemove(st: ShardState, next: ShardState, id: Hash, r: Reservation)
    requires id in st.reservations && st.reservations[id].status == Reserved
    requires next.reservations == st.reservations[id := r] && r.status == Consumed
    ensures SumReserved(next) == SumReserved(st) - st.reservations[id].amount
  {
    assert ReservedAmounts(next) == ReservedAmounts(st) - {id};
    SumRemove(ReservedAmounts(st), id);
  }

  lemma ReserveShape(h: Hasher, st: ShardState, p: PaymentIntent, ctx: ValidationContext) returns (id: Hash)
    requires ReserveResult(h, st, p, ctx).Ok?
    ensures IntentId(h, p) == Ok(id) && id !in st.reservations && p.amount > 0 && Validate(p, ctx).Ok?
    ensures ReserveResult(h, st, p, ctx).value == AddBalance(st, p.sender, -p.amount).(
          escrow := st.escrow + p.amount,
          reservations := st.reservations[id := Reservation(p.amount, 0, 0, 0, Reserved)],
          nonces := st.nonces[p.sender := p.nonce + 1])
    ensures BalanceOf(st, p.sender) >= p.amount
  {
    id := IntentId(h, p).value;
  }

  lemma RecordsAdd(st: ShardState, next: ShardState, id: Hash, r: Reservation)
    requires RecordsOk(st) && id !in st.reservations && r.amount > 0
    requires next.reservations == st.reservations[id := r] && next.status == st.status && next.outbox == st.outbox
    ensures RecordsOk(next)
  {
  }

  /** Submitting an intent keeps the escrow backed and the shard's value. */
  lemma SubmitKeeps(h: Hasher, st: ShardState, p: PaymentIntent, ctx: ValidationContext)
    requires ShardInv(st) && SubmitResult(h, st, p, ctx).Ok?
    ensures var next := SubmitResult(h, st, p, ctx).value;
      ShardInv(next) && Value(next) == Value(st) && next.outbox == st.outbox && next.status == st.status &&
      next.executed == st.executed && next.credited == st.credited && next.credits == st.credits
  {
    var mid := EnsureAccount(st, p.sender);
    EnsureKeeps(st, p.sender);
    ReserveKeeps(h, mid, p, ctx);
  }

  lemma ReserveKeeps(h: Hasher, st: ShardState, p: PaymentIntent, ctx: ValidationContext)
    requires ShardInv(st) && ReserveResult(h, st, p, ctx).Ok?
    ensures var next := ReserveResult(h, st, p, ctx).value;
      ShardInv(next) && Value(next) == Value(st) && next.outbox == st.outbox && next.status == st.status &&
      next.executed == st.executed && next.credited == st.credited && next.credits == st.credits
  {
    var id := ReserveShape(h, st, p, ctx);
    ReservedKeeps(st, id, p.sender, p.amount, p.nonce + 1);
  }

  lemma EnsureKeeps(st: ShardState, a: Address)
    requires ShardInv(st)
    ensures ShardInv(EnsureAccount(st, a)) && Value(EnsureAccount(st, a)) == Value(st)
  {
    EnsureAccountValue(st, a);
    assert ReservedAmounts(EnsureAccount(st, a)) == ReservedAmounts(st);
  }

  /** Moving an amount from a sender to escrow under a new reservation. */
  lemma ReservedKeeps(st: ShardState, id: Hash, sender: Address, amount: int, nonce: nat)
    requires st.escrow == SumReserved(st) && RecordsOk(st) && id !in st.reservations && amount > 0
    ensures var r := Reservation(amount, 0, 0, 0, Reserved);
      var next := AddBalance(st, sender, -amount).(escrow := st.escrow + amount, reservations := st.reservations[id := r], nonces := st.nonces[sender := nonce]);
      ShardInv(next) && Value(next) == Value(st)
  {
    var r := Reservation(amount, 0, 0, 0, Reserved);
    var next := AddBalance(st, sender, -amount).(escrow := st.escrow + amount, reservations := st.reservations[id := r], nonces := st.nonces[sender := nonce]);
    AddBalanceValue(st, sender, -amount);
    ReservedAdd(st, next, id, r);
    RecordsAdd(st, next, id, r);
  }

  // ---- settlement: the outgoing side ----

  lemma OutboxTotalSnoc(outbox: seq<ReservedFallback>, item: ReservedFallback)
    ensures OutboxTotal(outbox + [item]) == OutboxTotal(outbox) + item.amount
  {
    assert (outbox + [item])[..|outbox|] == outbox;
  }

  lemma ConsumeShape(h: Hasher, st: ShardState, r: IntentResult, batchId: Hash)
    requires ConsumeResult(h, st, r, batchId).Ok?
    ensures ValidateResult(h, r).Ok? && r.intentId in st.reservations
    ensures st.reservations[r.intentId].status == Reserved && st.reservations[r.intentId].amount == r.intent.amount
    ensures r.matched >= 0 && r.fallback >= 0 && r.matched + r.fallback == r.intent.amount && r.intent.amount > 0
    ensures ConsumeResult(h, st, r, batchId).value ==
      st.(reservations := st.reservations[r.intentId := Reservation(r.intent.amount, r.matched, r.fallback, batchId, Consumed)])
  {
  }

  /** The fallback records a settlement adds for its outgoing results. */
  ghost function FallbacksOf(rs: seq<IntentResult>, batchId: Hash, pack: Package): seq<ReservedFallback> {
    if rs == [] then [] else
      FallbacksOf(rs[..|rs| - 1], batchId, pack) +
      (if rs[|rs| - 1].fallback > 0 then [FallbackOf(rs[|rs| - 1], batchId, pack)] else [])
  }

  ghost function KeysOf(items: seq<ReservedFallback>): set<FallbackKey> {
    set x | x in items :: x.Key()
  }

  lemma KeysOfConcat(x: seq<ReservedFallback>, y: seq<ReservedFallback>)
    ensures KeysOf(x + y) == KeysOf(x) + KeysOf(y)
  {
    forall k | k in KeysOf(x) + KeysOf(y) ensures k in KeysOf(x + y) {
      if k in KeysOf(x) {
        var item :| item in x && item.Key() == k;
        assert item in x + y;
      } else {
        var item :| item in y && item.Key() == k;
        assert item in x + y;
      }
    }
    forall k | k in KeysOf(x + y) ensures k in KeysOf(x) + KeysOf(y) {
      var item :| item in x + y && item.Key() == k;
      if item in x {
        assert item.Key() in KeysOf(x);
      } else {
        assert item.Key() in KeysOf(y);
      }
    }
  }

  /** The keys of the added items are recorded as pending; nothing else about the records changes. */
  ghost predicate StatusGrows(st: ShardState, next: ShardState, added: seq<ReservedFallback>) {
    && next.status.Keys == st.status.Keys + KeysOf(added) && KeysOf(added) !! st.status.Keys
    && (forall k :: k in st.status ==> next.status[k] == st.status[k])
    && (forall k :: k in next.status && k !in st.status ==> next.status[k] == Pending)
  }

  /** How consuming outgoing results changes a shard. */
  ghost predicate ConsumedStep(
    st: ShardState, next: ShardState, matched: int, fallback: int, added: seq<ReservedFallback>) {
    && next.balances == st.balances && next.minted == st.minted && next.credits == st.credits
    && next.executed == st.executed && next.credited == st.credited
    && next.escrow == st.escrow - fallback && SumReserved(next) == SumReserved(st) - matched - fallback
    && next.outbox == st.outbox + added && OutboxTotal(next.outbox) == OutboxTotal(st.outbox) + fallback
    && StatusGrows(st, next, added)
    && (forall i :: i in st.reservations ==> i in next.reservations && (st.reservations[i].status == Consumed ==> next.reservations[i] == st.reservations[i]))
  }

  lemma ConsumeOnly(h: Hasher, st: ShardState, r: IntentResult, batchId: Hash)
    requires RecordsOk(st) && ConsumeResult(h, st, r, batchId).Ok?
    ensures var next := ConsumeResult(h, st, r, batchId).value;
      && RecordsOk(next) && next == st.(reservations := next.reservations)
      && SumReserved(next) == SumReserved(st) - r.matched - r.fallback
      && r.intentId in next.reservations && next.reservations[r.intentId].status == Consumed
      && (forall k :: k in st.status ==> k.intentId != r.intentId)
      && (forall i :: i in st.reservations ==> i in next.reservations && (i != r.intentId ==> next.reservations[i] == st.reservations[i]))
  {
    ConsumeShape(h, st, r, batchId);
    ReservedRemove(st, ConsumeResult(h, st, r, batchId).value, r.intentId, Reservation(r.intent.amount, r.matched, r.fallback, batchId, Consumed));
  }

  lemma CreateRecords(st: ShardState, item: ReservedFallback)
    requires RecordsOk(st) && item.Key() !in st.status && CreateResult(st, item).Ok?
    requires item.intentId in st.reservations && st.reservations[item.intentId].status == Consumed
    ensures RecordsOk(CreateResult(st, item).value)
  {
    forall i | 0 <= i < |st.outbox| ensures st.outbox[i].Key() != item.Key() {
      assert st.outbox[i].Key() in st.status;
    }
  }

  lemma SameReserved(a: ShardState, b: ShardState)
    requires a.reservations == b.reservations
    ensures SumReserved(a) == SumReserved(b)
  {
    assert ReservedAmounts(a) == ReservedAmounts(b);
  }

  lemma CreateStep(st: ShardState, item: ReservedFallback)
    requires item.Key() !in st.status && CreateResult(st, item).Ok?
    ensures ConsumedStep(st, CreateResult(st, item).value, -item.amount, item.amount, [item])
  {
    CreatedStep(st, CreateResult(st, item).value, item);
  }

  lemma CreatedStep(st: ShardState, next: ShardState, item: ReservedFallback)
    requires item.Key() !in st.status
    requires next == st.(escrow := st.escrow - item.amount, outbox := st.outbox + [item], status := st.status[item.Key() := Pending])
    ensures ConsumedStep(st, next, -item.amount, item.amount, [item])
  {
    OutboxTotalSnoc(st.outbox, item);
    SameReserved(st, next);
    CreateStatus(st, next, item);
  }

  lemma CreateStatus(st: ShardState, next: ShardState, item: ReservedFallback)
    requires item.Key() !in st.status && next.status == st.status[item.Key() := Pending]
    ensures StatusGrows(st, next, [item])
  {
    assert KeysOf([item]) == {item.Key()} by {
      assert item in [item];
    }
  }

  /** Consuming a reservation is a step that creates no fallback record. */
  lemma ConsumeStep(h: Hasher, st: ShardState, r: IntentResult, batchId: Hash)
    requires RecordsOk(st) && ConsumeResult(h, st, r, batchId).Ok?
    ensures ConsumedStep(st, ConsumeResult(h, st, r, batchId).value, r.matched + r.fallback, 0, [])
  {
    ConsumeShape(h, st, r, batchId);
    ConsumeOnly(h, st, r, batchId);
    assert st.outbox + [] == st.outbox && KeysOf([]) == {};
  }

  lemma ConsumeOneKeeps(h: Hasher, st: ShardState, r: IntentResult, batchId: Hash, pack: Package)
    requires RecordsOk(st) && ConsumeOne(h, st, r, batchId, pack).Ok?
    ensures var next := ConsumeOne(h, st, r, batchId, pack).value;
      RecordsOk(next) && ConsumedStep(st, next, r.matched, r.fallback, if r.fallback > 0 then [FallbackOf(r, batchId, pack)] else [])
    ensures r.intentId in st.reservations && st.reservations[r.intentId].status == Reserved
  {
    ConsumeShape(h, st, r, batchId);
    ConsumeOnly(h, st, r, batchId);
    ConsumeStep(h, st, r, batchId);
    if r.fallback > 0 {
      var mid := ConsumeResult(h, st, r, batchId).value;
      CreatedAfter(st, mid, r, FallbackOf(r, batchId, pack));
    }
  }

  lemma CreatedAfter(st: ShardState, mid: ShardState, r: IntentResult, item: ReservedFallback)
    requires ConsumedStep(st, mid, r.matched + r.fallback, 0, []) && RecordsOk(mid) && CreateResult(mid, item).Ok?
    requires item.amount == r.fallback && item.intentId == r.intentId && mid.status == st.status
    requires item.intentId in mid.reservations && mid.reservations[item.intentId].status == Consumed
    requires forall k :: k in st.status ==> k.intentId != r.intentId
    ensures RecordsOk(CreateResult(mid, item).value) && ConsumedStep(st, CreateResult(mid, item).value, r.matched, r.fallback, [item])
  {
    assert item.Key().intentId == r.intentId;
    CreateRecords(mid, item);
    CreateStep(mid, item);
    ConsumedCompose(st, mid, CreateResult(mid, item).value, r.matched + r.fallback, 0, [], -item.amount, item.amount, [item]);
    assert [] + [item] == [item];
  }

  lemma ConsumedCompose(
    a: ShardState, b: ShardState, c: ShardState, m1: int, f1: int, x: seq<ReservedFallback>, m2: int, f2: int,
    y: seq<ReservedFallback>)
    requires ConsumedStep(a, b, m1, f1, x) && ConsumedStep(b, c, m2, f2, y)
    ensures ConsumedStep(a, c, m1 + m2, f1 + f2, x + y)
  {
    assert a.outbox + (x + y) == a.outbox + x + y;
    KeysOfConcat(x, y);
    forall i | i in a.reservations
      ensures i in c.reservations && (a.reservations[i].status == Consumed ==> c.reservations[i] == a.reservations[i])
    {
      assert i in b.reservations;
    }
  }

  lemma {:induction false} ConsumeAllKeeps(
    h: Hasher, st: ShardState, rs: seq<IntentResult>, batchId: Hash, pack: Package)
    requires RecordsOk(st) && ConsumeAll(h, st, rs, batchId, pack).Ok?
    ensures var next := ConsumeAll(h, st, rs, batchId, pack).value;
      RecordsOk(next) && ConsumedStep(st, next, TotalMatched(rs), TotalFallback(rs), FallbacksOf(rs, batchId, pack))
    decreases |rs|
  {
    if rs == [] {
      assert st.outbox + [] == st.outbox;
    } else {
      var init, last := rs[..|rs| - 1], rs[|rs| - 1];
      ConsumeAllKeeps(h, st, init, batchId, pack);
      var mid := ConsumeAll(h, st, init, batchId, pack).value;
      ConsumeOneKeeps(h, mid, last, batchId, pack);
      ConsumedCompose(st, mid, ConsumeAll(h, st, rs, batchId, pack).value,
                      TotalMatched(init), TotalFallback(init), FallbacksOf(init, batchId, pack),
                      last.matched, last.fallback, if last.fallback > 0 then [FallbackOf(last, batchId, pack)] else []);
    }
  }

  // ---- settlement: the incoming side ----

  ghost function CreditsOf(rs: seq<IntentResult>, batchId: Hash): (r: seq<Credit>)
    ensures |r| == |rs|
  {
    if rs == [] then [] else
      CreditsOf(rs[..|rs| - 1], batchId) +
      [Credit(MatchedCredit, rs[|rs| - 1].intentId, batchId, rs[|rs| - 1].intent.recipient, rs[|rs| - 1].matched)]
  }

  lemma {:induction false} CreditsOfAt(rs: seq<IntentResult>, batchId: Hash, i: nat)
    requires i < |rs|
    ensures CreditsOf(rs, batchId)[i] == Credit(MatchedCredit, rs[i].intentId, batchId, rs[i].intent.recipient, rs[i].matched)
    decreases |rs|
  {
    if i < |rs| - 1 {
      CreditsOfAt(rs[..|rs| - 1], batchId, i);
    }
  }

  /** How crediting incoming results changes a shard. */
  ghost predicate CreditedStep(st: ShardState, next: ShardState, matched: int, added: seq<Credit>) {
    && next == st.(balances := next.balances, minted := next.minted, escrow := st.escrow - matched, credits := st.credits + added)
    && Sum(next.balances) - next.minted == Sum(st.balances) - st.minted + matched
  }

  lemma CreditOneKeeps(st: ShardState, r: IntentResult, batchId: Hash)
    ensures CreditedStep(st, CreditOne(st, r, batchId), r.matched, [Credit(MatchedCredit, r.intentId, batchId, r.intent.recipient, r.matched)])
  {
    var mid := EnsureAccount(st, r.intent.recipient);
    EnsureAccountValue(st, r.intent.recipient);
    AddBalanceValue(mid.(escrow := mid.escrow - r.matched), r.intent.recipient, r.matched);
  }

  lemma {:induction false} CreditAllKeeps(st: ShardState, rs: seq<IntentResult>, batchId: Hash)
    ensures CreditedStep(st, CreditAll(st, rs, batchId), TotalMatched(rs), CreditsOf(rs, batchId))
    decreases |rs|
  {
    if rs == [] {
      assert st.credits + [] == st.credits;
    } else {
      var init, last := rs[..|rs| - 1], rs[|rs| - 1];
      var mid := CreditAll(st, init, batchId);
      CreditAllKeeps(st, init, batchId);
      CreditOneKeeps(mid, last, batchId);
      assert st.credits + CreditsOf(rs, batchId) == mid.credits + [Credit(MatchedCredit, last.intentId, batchId, last.intent.recipient, last.matched)];
    }
  }

  // ---- the conservation check ----

  lemma AddAmountSum(sheet: Sheet, key: BalanceKey, amount: int)
    ensures Sum(AddAmount(sheet, key, amount)) == Sum(sheet) + amount
  {
    SumUpdate(sheet, key, (if key in sheet then sheet[key] else 0) + amount);
  }

  lemma {:induction false} OutgoingSum(h: Hasher, st: ShardState, shardId: Int64, rs: seq<IntentResult>)
    requires CheckOutgoing(h, st, shardId, rs).Ok?
    ensures Sum(CheckOutgoing(h, st, shardId, rs).value.sheet) == TotalMatched(rs)
    decreases |rs|
  {
    if rs != [] {
      var last := rs[|rs| - 1];
      OutgoingSum(h, st, shardId, rs[..|rs| - 1]);
      var seen := CheckOutgoing(h, st, shardId, rs[..|rs| - 1]).value;
      AddAmountSum(seen.sheet, BalanceKey(last.intent.destinationShard, last.intent.assetId), last.matched);
    }
  }

  lemma {:induction false} IncomingSum(h: Hasher, shardId: Int64, rs: seq<IntentResult>, start: set<Hash>)
    requires CheckIncoming(h, shardId, rs, start).Ok?
    ensures Sum(CheckIncoming(h, shardId, rs, start).value.sheet) == TotalMatched(rs)
    decreases |rs|
  {
    if rs != [] {
      var last := rs[|rs| - 1];
      IncomingSum(h, shardId, rs[..|rs| - 1], start);
      var seen := CheckIncoming(h, shardId, rs[..|rs| - 1], start).value;
      AddAmountSum(seen.sheet, BalanceKey(last.intent.sourceShard, last.intent.assetId), last.matched);
    }
  }

  /** Passing the per-counterparty check means equal totals in both directions. */
  lemma CheckBalances(h: Hasher, st: ShardState, shardId: Int64, s: Settlement)
    requires CheckInstructions(h, st, shardId, s).Ok?
    ensures TotalMatched(s.outgoing) == TotalMatched(s.incoming)
  {
    var out := CheckOutgoing(h, st, shardId, s.outgoing).value;
    var inc := CheckIncoming(h, shardId, s.incoming, out.ids).value;
    OutgoingSum(h, st, shardId, s.outgoing);
    IncomingSum(h, shardId, s.incoming, out.ids);
    assert out.sheet == inc.sheet;
  }

  // ---- whole operations ----

  /** What one executed settlement does to a shard. */
  ghost predicate Settled(st: ShardState, next: ShardState, shardId: Int64, pack: Package) {
    var s := pack.settlement;
    && next.outbox == st.outbox + FallbacksOf(s.outgoing, s.batchId, pack)
    && next.credits == st.credits + CreditsOf(s.incoming, s.batchId)
    && next.executed == st.executed + {ChunkKey(s.batchId, shardId, s.chunkIndex)}
    && next.credited == st.credited
    && StatusGrows(st, next, FallbacksOf(s.outgoing, s.batchId, pack))
  }

  /** An executed settlement keeps the escrow backed and the shard's value, whatever package passed the checks. */
  lemma ApplySettlementKeeps(h: Hasher, st: ShardState, shardId: Int64, pack: Package)
    requires ShardInv(st) && ApplySettlement(h, st, shardId, pack).Ok?
    ensures var next := ApplySettlement(h, st, shardId, pack).value;
      ShardInv(next) && Value(next) == Value(st) && Settled(st, next, shardId, pack)
  {
    var s := pack.settlement;
    CheckBalances(h, st, shardId, s);
    ConsumeAllKeeps(h, st, s.outgoing, s.batchId, pack);
    var mid := ConsumeAll(h, st, s.outgoing, s.batchId, pack).value;
    CreditAllKeeps(mid, s.incoming, s.batchId);
    var next := ApplySettlement(h, st, shardId, pack).value;
    assert ReservedAmounts(next) == ReservedAmounts(mid);
  }

  /** A fallback credit adds its amount to the shard's wealth and nothing else. */
  lemma CreditKeeps(h: Hasher, st: ShardState, shardId: Int64, item: ReservedFallback, confirmed: Header)
    requires ShardInv(st) && CreditResult(h, st, shardId, item, confirmed).Ok? && item.Key() !in st.credited
    ensures var next := CreditResult(h, st, shardId, item, confirmed).value;
      && ShardInv(next) && Value(next) == Value(st) + item.amount
      && next.outbox == st.outbox && next.status == st.status && next.executed == st.executed
      && next.credited == st.credited + {item.Key()}
      && next.credits == st.credits + [Credit(FallbackCredit, item.intentId, item.batchId, item.recipient, item.amount)]
  {
    var mid := EnsureAccount(st, item.recipient);
    EnsureAccountValue(st, item.recipient);
    AddBalanceValue(mid, item.recipient, item.amount);
    var next := CreditResult(h, st, shardId, item, confirmed).value;
    assert ReservedAmounts(next) == ReservedAmounts(st);
  }

  lemma CompleteKeeps(st: ShardState, key: FallbackKey)
    requires ShardInv(st) && CompleteResult(st, key).Ok?
    ensures ShardInv(CompleteResult(st, key).value) && Value(CompleteResult(st, key).value) == Value(st)
  {
    assert ReservedAmounts(CompleteResult(st, key).value) == ReservedAmounts(st);
  }
}
