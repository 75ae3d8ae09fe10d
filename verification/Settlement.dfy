/**
 * One shard's netting state and the operations on it: intent reservations (pkg/netting/registry), the fallback
 * outbox and credits (pkg/netting/fallback), and settlement execution (pkg/netting/settlement/executor.go).
 */
module Settlements {
  import opened Base
  import opened ByteStrings
  import opened Model
  import opened Packages

  const INITIAL_BALANCE: nat := 1_000_000_000_000_000_000_000_000_000_000_000_000

  datatype ReservationStatus = Reserved | Consumed
  datatype Reservation = Reservation(amount: int, matched: int, fallback: int, batchId: Hash, status: ReservationStatus)

  datatype FallbackKey = FallbackKey(intentId: Hash, batchId: Hash)
  datatype FallbackStatus = Pending | Completed

  datatype ReservedFallback = ReservedFallback(
    intentId: Hash, batchId: Hash, sender: Address, recipient: Address,
    sourceShard: Int64, destinationShard: Int64, amount: int, proof: Package)
  {
    function Key(): FallbackKey {
      FallbackKey(intentId, batchId)
    }
  }

  datatype ChunkKey = ChunkKey(batchId: Hash, shardId: Int64, chunkIndex: Uint32)

  datatype CreditKind = MatchedCredit | FallbackCredit
  datatype Credit = Credit(kind: CreditKind, intentId: Hash, batchId: Hash, recipient: Address, amount: int)

  /**
   * The part of a shard's StateDB that netting uses. Balances list the existing user accounts; escrow is the balance of
   * the escrow account. `minted` counts initial balances given to absent accounts and `credits` records every
   * credit in order: both only observe what the operations do.
   */
  datatype ShardState = ShardState(
    balances: map<Address, int>, escrow: int,
    reservations: map<Hash, Reservation>, nonces: map<Address, nat>,
    outbox: seq<ReservedFallback>, status: map<FallbackKey, FallbackStatus>,
    executed: set<ChunkKey>, credited: set<FallbackKey>,
    minted: int, credits: seq<Credit>)

  // ---- accounts ----

  function EnsureAccount(st: ShardState, a: Address): ShardState {
    if a in st.balances then st else st.(balances := st.balances[a := INITIAL_BALANCE], minted := st.minted + INITIAL_BALANCE)
  }

  function AddBalance(st: ShardState, a: Address, amount: int): ShardState {
    st.(balances := st.balances[a := (if a in st.balances then st.balances[a] else 0) + amount])
  }

  function BalanceOf(st: ShardState, a: Address): int {
    if a in st.balances then st.balances[a] else 0
  }

  // ---- registry ----

  function NextNonce(st: ShardState, sender: Address): nat {
    if sender in st.nonces then st.nonces[sender] else 0
  }

  function ReserveResult(h: Hasher, st: ShardState, p: PaymentIntent, ctx: ValidationContext): Result<ShardState> {
    match Validate(p, ctx)
    case Err(e) => Err(e)
    case Ok(_) =>
      match IntentId(h, p)
      case Err(e) => Err(e)
      case Ok(id) =>
        if id in st.reservations then Err(ReservationExists)
        else if p.nonce != NextNonce(st, p.sender) then Err(NonceMismatch)
        else if p.nonce == TWO_64 - 1 then Err(NonceExhausted)
        else if p.amount >= TWO_256 then Err(InvalidAmount)
        else if BalanceOf(st, p.sender) < p.amount then Err(InsufficientBalance)
        else Ok(AddBalance(st, p.sender, -p.amount).(
          escrow := st.escrow + p.amount,
          reservations := st.reservations[id := Reservation(p.amount, 0, 0, 0, Reserved)],
          nonces := st.nonces[p.sender := p.nonce + 1]))
  }

  /** An intent transaction: an absent sender account first receives the initial balance; any error reverts. */
  function SubmitResult(h: Hasher, st: ShardState, p: PaymentIntent, ctx: ValidationContext): Result<ShardState> {
    ReserveResult(h, EnsureAccount(st, p.sender), p, ctx)
  }

  function ConsumeResult(h: Hasher, st: ShardState, r: IntentResult, batchId: Hash): Result<ShardState> {
    match ValidateResult(h, r)
    case Err(e) => Err(e)
    case Ok(_) =>
      if r.intentId !in st.reservations then Err(ReservationNotFound) else
        var old' := st.reservations[r.intentId];
        if old'.status != Reserved then Err(InvalidStatus)
        else if old'.amount != r.intent.amount then Err(InvalidStatus)
        else Ok(st.(reservations := st.reservations[r.intentId := Reservation(old'.amount, r.matched, r.fallback, batchId, Consumed)]))
  }

  // ---- fallback outbox and credit ----

  function CreateResult(st: ShardState, item: ReservedFallback): Result<ShardState> {
    if item.amount <= 0 || item.intentId == 0 || item.batchId == 0 then Err(InvalidFallback)
    else if item.Key() in st.status then Ok(st)
    else if item.amount >= TWO_256 || st.escrow < item.amount then Err(InsufficientBalance)
    else Ok(st.(escrow := st.escrow - item.amount, outbox := st.outbox + [item], status := st.status[item.Key() := Pending]))
  }

  function CompleteResult(st: ShardState, key: FallbackKey): Result<ShardState> {
    if key !in st.status then Err(FallbackNotFound)
    else Ok(st.(status := st.status[key := Completed]))
  }

  /** The first outgoing result with the item's identifier must agree with the item. */
  function ProvenBy(item: ReservedFallback, outgoing: seq<IntentResult>): bool {
    if outgoing == [] then false
    else if outgoing[0].intentId != item.intentId then ProvenBy(item, outgoing[1..])
    else
      var r := outgoing[0];
      && r.fallback == item.amount && r.intent.sender == item.sender && r.intent.recipient == item.recipient
      && r.intent.sourceShard == item.sourceShard && r.intent.destinationShard == item.destinationShard
  }

  function CreditResult(
    h: Hasher, st: ShardState, shardId: Int64, item: ReservedFallback, confirmed: Header): Result<ShardState> {
    if item.destinationShard != shardId then Err(FallbackWrongShard)
    else if item.proof.header != confirmed || item.batchId != confirmed.batchId then Err(FallbackProof)
    else if VerifyPackage(h, item.proof).Err? then Err(FallbackProof)
    else if !ProvenBy(item, item.proof.settlement.outgoing) || item.amount <= 0 then Err(FallbackProof)
    else if item.Key() in st.credited then Ok(st)
    else if item.amount >= TWO_256 then Err(InvalidFallback)
    else
      var next := AddBalance(EnsureAccount(st, item.recipient), item.recipient, item.amount);
      Ok(next.(
        credited := st.credited + {item.Key()},
        credits := st.credits + [Credit(FallbackCredit, item.intentId, item.batchId, item.recipient, item.amount)]))
  }

  // ---- settlement execution ----

  datatype BalanceKey = BalanceKey(counterparty: Int64, asset: Hash)
  type Sheet = map<BalanceKey, int>

  function AddAmount(sheet: Sheet, key: BalanceKey, amount: int): Sheet {
    if amount == 0 then sheet else sheet[key := (if key in sheet then sheet[key] else 0) + amount]
  }

  datatype Seen = Seen(ids: set<Hash>, sheet: Sheet)

  function CheckOutgoing(h: Hasher, st: ShardState, shardId: Int64, rs: seq<IntentResult>): Result<Seen> {
    if rs == [] then Ok(Seen({}, map[])) else
      match CheckOutgoing(h, st, shardId, rs[..|rs| - 1])
      case Err(e) => Err(e)
      case Ok(seen) => CheckOneOutgoing(h, st, shardId, rs[|rs| - 1], seen)
  }

  function CheckOneOutgoing(h: Hasher, st: ShardState, shardId: Int64, r: IntentResult, seen: Seen): Result<Seen> {
    match ValidateResult(h, r)
    case Err(e) => Err(e)
    case Ok(_) =>
      if r.intent.sourceShard != shardId then Err(WrongShard)
      else if r.intentId in seen.ids then Err(DuplicateIntent)
      else if r.intentId !in st.reservations then Err(ReservationNotFound)
      else if st.reservations[r.intentId].status != Reserved || st.reservations[r.intentId].amount != r.intent.amount then Err(InvalidStatus)
      else Ok(Seen(seen.ids + {r.intentId}, AddAmount(seen.sheet, BalanceKey(r.intent.destinationShard, r.intent.assetId), r.matched)))
  }

  function CheckIncoming(h: Hasher, shardId: Int64, rs: seq<IntentResult>, start: set<Hash>): Result<Seen> {
    if rs == [] then Ok(Seen(start, map[])) else
      match CheckIncoming(h, shardId, rs[..|rs| - 1], start)
      case Err(e) => Err(e)
      case Ok(seen) => CheckOneIncoming(h, shardId, rs[|rs| - 1], seen)
  }

  function CheckOneIncoming(h: Hasher, shardId: Int64, r: IntentResult, seen: Seen): Result<Seen> {
    match ValidateResult(h, r)
    case Err(e) => Err(e)
    case Ok(_) =>
      if r.intent.destinationShard != shardId || r.matched <= 0 then Err(WrongShard)
      else if r.intentId in seen.ids then Err(DuplicateIntent)
      else Ok(Seen(seen.ids + {r.intentId}, AddAmount(seen.sheet, BalanceKey(r.intent.sourceShard, r.intent.assetId), r.matched)))
  }

  /** equalBalances: neither sheet has an entry the other lacks or disagrees with. */
  predicate EqualSheets(left: Sheet, right: Sheet) {
    && (forall k :: k in left ==> k in right && left[k] == right[k])
    && (forall k :: k in right ==> k in left && right[k] == left[k])
  }

  function CheckInstructions(h: Hasher, st: ShardState, shardId: Int64, s: Settlement): Result<()> {
    match CheckOutgoing(h, st, shardId, s.outgoing)
    case Err(e) => Err(e)
    case Ok(out) =>
      match CheckIncoming(h, shardId, s.incoming, out.ids)
      case Err(e) => Err(e)
      case Ok(inc) => if EqualSheets(out.sheet, inc.sheet) then Ok(()) else Err(SettlementConservation)
  }

  function FallbackOf(r: IntentResult, batchId: Hash, pack: Package): ReservedFallback {
    ReservedFallback(r.intentId, batchId, r.intent.sender, r.intent.recipient,
                     r.intent.sourceShard, r.intent.destinationShard, r.fallback, pack)
  }

  function ConsumeOne(h: Hasher, st: ShardState, r: IntentResult, batchId: Hash, pack: Package): Result<ShardState> {
    match ConsumeResult(h, st, r, batchId)
    case Err(e) => Err(e)
    case Ok(next) => if r.fallback > 0 then CreateResult(next, FallbackOf(r, batchId, pack)) else Ok(next)
  }

  function ConsumeAll(
    h: Hasher, st: ShardState, rs: seq<IntentResult>, batchId: Hash, pack: Package): Result<ShardState> {
    if rs == [] then Ok(st) else
      match ConsumeAll(h, st, rs[..|rs| - 1], batchId, pack)
      case Err(e) => Err(e)
      case Ok(next) => ConsumeOne(h, next, rs[|rs| - 1], batchId, pack)
  }

  function CreditOne(st: ShardState, r: IntentResult, batchId: Hash): ShardState {
    var next := EnsureAccount(st, r.intent.recipient);
    AddBalance(next.(escrow := next.escrow - r.matched), r.intent.recipient, r.matched).(
      credits := st.credits + [Credit(MatchedCredit, r.intentId, batchId, r.intent.recipient, r.matched)])
  }

  function CreditAll(st: ShardState, rs: seq<IntentResult>, batchId: Hash): ShardState {
    if rs == [] then st else CreditOne(CreditAll(st, rs[..|rs| - 1], batchId), rs[|rs| - 1], batchId)
  }

  function TotalMatched(rs: seq<IntentResult>): int {
    if rs == [] then 0 else TotalMatched(rs[..|rs| - 1]) + rs[|rs| - 1].matched
  }

  function TotalFallback(rs: seq<IntentResult>): int {
    if rs == [] then 0 else TotalFallback(rs[..|rs| - 1]) + rs[|rs| - 1].fallback
  }

  predicate AllBelow256(rs: seq<IntentResult>) {
    forall i :: 0 <= i < |rs| ==> rs[i].matched < TWO_256
  }

  /** The checks Execute makes before it touches balances, in order. */
  function ExecuteChecks(h: Hasher, st: ShardState, shardId: Int64, pack: Package, confirmed: Header): Result<()> {
    var s := pack.settlement;
    if pack.header != confirmed then Err(UnknownMatchRoot)
    else if s.shardId != shardId || pack.commitment.shardId != shardId then Err(WrongShard)
    else if s.batchId != confirmed.batchId || s.windowId != confirmed.windowId || s.chunkCount != pack.commitment.chunkCount
    then Err(InvalidProof)
    else Ok(())
  }

  function ApplySettlement(h: Hasher, st: ShardState, shardId: Int64, pack: Package): Result<ShardState> {
    var s := pack.settlement;
    match CheckInstructions(h, st, shardId, s)
    case Err(e) => Err(e)
    case Ok(_) =>
      var required := TotalMatched(s.incoming) + TotalFallback(s.outgoing);
      if required >= TWO_256 || st.escrow < required then Err(InsufficientBalance) else
        match ConsumeAll(h, st, s.outgoing, s.batchId, pack)
        case Err(e) => Err(e)
        case Ok(next) =>
          if !AllBelow256(s.incoming) then Err(SettlementConservation) else
            var last := CreditAll(next, s.incoming, s.batchId);
            Ok(last.(executed := last.executed + {ChunkKey(s.batchId, shardId, s.chunkIndex)}))
  }

  /** Execute as a function: the new state, or an error that leaves the state as it was. */
  function ExecuteResult(
    h: Hasher, st: ShardState, shardId: Int64, pack: Package, confirmed: Header): Result<ShardState> {
    match ExecuteChecks(h, st, shardId, pack, confirmed)
    case Err(e) => Err(e)
    case Ok(_) =>
      if ChunkKey(pack.settlement.batchId, shardId, pack.settlement.chunkIndex) in st.executed then Ok(st)
      else if VerifyPackage(h, pack).Err? then Err(InvalidProof)
      else ApplySettlement(h, st, shardId, pack)
  }

  // ---- the operations as they update the state ----

  /** The error of an operation, or none. */
  function ErrorOf(r: Result<ShardState>): Option<Error> {
    match r case Ok(_) => None case Err(e) => Some(e)
  }

  /** A failed operation leaves the state as it was. */
  function StateAfter(r: Result<ShardState>, before: ShardState): ShardState {
    match r case Ok(next) => next case Err(_) => before
  }

  class StateDB {
    var st: ShardState

    constructor (initial: ShardState)
      ensures st == initial
    {
      st := initial;
    }

    method Reserve(h: Hasher, p: PaymentIntent, ctx: ValidationContext) returns (err: Option<Error>)
      modifies this
      ensures err == ErrorOf(ReserveResult(h, old(st), p, ctx)) && st == StateAfter(ReserveResult(h, old(st), p, ctx), old(st))
    {
      var valid := Validate(p, ctx);
      if valid.Err? {
        return Some(valid.error);
      }
      var id := IntentId(h, p);
      if id.Err? {
        return Some(id.error);
      }
      if id.value in st.reservations {
        return Some(ReservationExists);
      }
      var next := NextNonce(st, p.sender);
      if p.nonce != next {
        return Some(NonceMismatch);
      }
      if next == TWO_64 - 1 {
        return Some(NonceExhausted);
      }
      if p.amount >= TWO_256 {
        return Some(InvalidAmount);
      }
      if BalanceOf(st, p.sender) < p.amount {
        return Some(InsufficientBalance);
      }
      st := AddBalance(st, p.sender, -p.amount);
      st := st.(escrow := st.escrow + p.amount);
      st := st.(reservations := st.reservations[id.value := Reservation(p.amount, 0, 0, 0, Reserved)]);
      st := st.(nonces := st.nonces[p.sender := next + 1]);
      err := None;
    }

    /** An intent transaction, with the snapshot the chain takes around it. */
    method Submit(h: Hasher, p: PaymentIntent, ctx: ValidationContext) returns (err: Option<Error>)
      modifies this
      ensures err == ErrorOf(SubmitResult(h, old(st), p, ctx)) && st == StateAfter(SubmitResult(h, old(st), p, ctx), old(st))
    {
      var snapshot := st;
      st := EnsureAccount(st, p.sender);
      err := Reserve(h, p, ctx);
      if err.Some? {
        st := snapshot;
      }
    }

    method Consume(h: Hasher, r: IntentResult, batchId: Hash) returns (err: Option<Error>)
      modifies this
      ensures err == ErrorOf(ConsumeResult(h, old(st), r, batchId)) && st == StateAfter(ConsumeResult(h, old(st), r, batchId), old(st))
    {
      var valid := ValidateResult(h, r);
      if valid.Err? {
        return Some(valid.error);
      }
      if r.intentId !in st.reservations {
        return Some(ReservationNotFound);
      }
      var reservation := st.reservations[r.intentId];
      if reservation.status != Reserved || reservation.amount != r.intent.amount {
        return Some(InvalidStatus);
      }
      st := st.(reservations := st.reservations[r.intentId := Reservation(reservation.amount, r.matched, r.fallback, batchId, Consumed)]);
      err := None;
    }

    method CreateFallback(item: ReservedFallback) returns (err: Option<Error>)
      modifies this
      ensures err == ErrorOf(CreateResult(old(st), item)) && st == StateAfter(CreateResult(old(st), item), old(st))
    {
      if item.amount <= 0 || item.intentId == 0 || item.batchId == 0 {
        return Some(InvalidFallback);
      }
      if item.Key() in st.status {
        return None;
      }
      if item.amount >= TWO_256 || st.escrow < item.amount {
        return Some(InsufficientBalance);
      }
      st := st.(escrow := st.escrow - item.amount);
      st := st.(outbox := st.outbox + [item]);
      st := st.(status := st.status[item.Key() := Pending]);
      err := None;
    }

    method Complete(key: FallbackKey) returns (err: Option<Error>)
      modifies this
      ensures err == ErrorOf(CompleteResult(old(st), key)) && st == StateAfter(CompleteResult(old(st), key), old(st))
    {
      if key !in st.status {
        return Some(FallbackNotFound);
      }
      if st.status[key] == Pending {
        st := st.(status := st.status[key := Completed]);
      } else {
        assert st.status == st.status[key := Completed];
      }
      err := None;
    }

    /** The search for the item's result in its proof. */
    method FindProof(item: ReservedFallback, outgoing: seq<IntentResult>) returns (ok: bool)
      ensures ok == ProvenBy(item, outgoing)
    {
      assert outgoing[0..] == outgoing;
      for i := 0 to |outgoing|
        invariant ProvenBy(item, outgoing) == ProvenBy(item, outgoing[i..])
      {
        assert outgoing[i..][1..] == outgoing[i + 1..];
        var r := outgoing[i];
        if r.intentId == item.intentId {
          return r.fallback == item.amount && r.intent.sender == item.sender && r.intent.recipient == item.recipient &&
            r.intent.sourceShard == item.sourceShard && r.intent.destinationShard == item.destinationShard;
        }
      }
      ok := false;
    }

    method ExecuteCredit(
      h: Hasher, shardId: Int64, item: ReservedFallback, confirmed: Header) returns (err: Option<Error>)
      modifies this
      ensures err == ErrorOf(CreditResult(h, old(st), shardId, item, confirmed))
      ensures st == StateAfter(CreditResult(h, old(st), shardId, item, confirmed), old(st))
    {
      if item.destinationShard != shardId {
        return Some(FallbackWrongShard);
      }
      if item.proof.header != confirmed || item.batchId != confirmed.batchId || VerifyPackage(h, item.proof).Err? {
        return Some(FallbackProof);
      }
      var matched := FindProof(item, item.proof.settlement.outgoing);
      if !matched || item.amount <= 0 {
        return Some(FallbackProof);
      }
      if item.Key() in st.credited {
        return None;
      }
      if item.amount >= TWO_256 {
        return Some(InvalidFallback);
      }
      ghost var before := st;
      st := EnsureAccount(st, item.recipient);
      st := AddBalance(st, item.recipient, item.amount);
      st := st.(credited := st.credited + {item.Key()});
      st := st.(credits := st.credits + [Credit(FallbackCredit, item.intentId, item.batchId, item.recipient, item.amount)]);
      err := None;
    }

    /** validateInstructions: the two loops with their accumulator sheets. */
    method ValidateInstructions(h: Hasher, shardId: Int64, s: Settlement) returns (r: Result<()>)
      ensures r == CheckInstructions(h, st, shardId, s)
    {
      var out := ValidateOutgoing(h, shardId, s.outgoing);
      if out.Err? {
        return Err(out.error);
      }
      var inc := ValidateIncoming(h, shardId, s.incoming, out.value.ids);
      if inc.Err? {
        return Err(inc.error);
      }
      r := if EqualSheets(out.value.sheet, inc.value.sheet) then Ok(()) else Err(SettlementConservation);
    }

    method ValidateOutgoing(h: Hasher, shardId: Int64, rs: seq<IntentResult>) returns (r: Result<Seen>)
      ensures r == CheckOutgoing(h, st, shardId, rs)
    {
      var out := Seen({}, map[]);
      for i := 0 to |rs|
        invariant CheckOutgoing(h, st, shardId, rs[..i]) == Ok(out)
      {
        assert rs[..i + 1][..i] == rs[..i];
        var next := CheckOneOutgoing(h, st, shardId, rs[i], out);
        if next.Err? {
          OutgoingErrorSticks(h, st, shardId, rs, i + 1);
          return next;
        }
        out := next.value;
      }
      assert rs[..|rs|] == rs;
      r := Ok(out);
    }

    method ValidateIncoming(h: Hasher, shardId: Int64, rs: seq<IntentResult>, start: set<Hash>) returns (r: Result<Seen>)
      ensures r == CheckIncoming(h, shardId, rs, start)
    {
      var inc := Seen(start, map[]);
      for i := 0 to |rs|
        invariant CheckIncoming(h, shardId, rs[..i], start) == Ok(inc)
      {
        assert rs[..i + 1][..i] == rs[..i];
        var next := CheckOneIncoming(h, shardId, rs[i], inc);
        if next.Err? {
          IncomingErrorSticks(h, shardId, rs, start, i + 1);
          return next;
        }
        inc := next.value;
      }
      assert rs[..|rs|] == rs;
      r := Ok(inc);
    }

    /** The loop that consumes reservations and creates fallbacks. */
    method ConsumeOutgoing(h: Hasher, rs: seq<IntentResult>, batchId: Hash, pack: Package) returns (err: Option<Error>)
      modifies this
      ensures err == ErrorOf(ConsumeAll(h, old(st), rs, batchId, pack))
      ensures err.None? ==> Ok(st) == ConsumeAll(h, old(st), rs, batchId, pack)
    {
      for i := 0 to |rs|
        invariant ConsumeAll(h, old(st), rs[..i], batchId, pack) == Ok(st)
      {
        assert rs[..i + 1][..i] == rs[..i];
        var failed := Consume(h, rs[i], batchId);
        if failed.Some? {
          ConsumeErrorSticks(h, old(st), rs, batchId, pack, i + 1);
          return failed;
        }
        if rs[i].fallback > 0 {
          failed := CreateFallback(FallbackOf(rs[i], batchId, pack));
          if failed.Some? {
            ConsumeErrorSticks(h, old(st), rs, batchId, pack, i + 1);
            return failed;
          }
        }
      }
      assert rs[..|rs|] == rs;
      err := None;
    }

    /** The loop that credits recipients from the escrow. */
    method CreditIncoming(rs: seq<IntentResult>, batchId: Hash) returns (err: Option<Error>)
      modifies this
      ensures err.None? <==> AllBelow256(rs)
      ensures err.Some? ==> err == Some(SettlementConservation)
      ensures err.None? ==> st == CreditAll(old(st), rs, batchId)
    {
      for i := 0 to |rs|
        invariant AllBelow256(rs[..i]) && st == CreditAll(old(st), rs[..i], batchId)
      {
        assert rs[..i + 1][..i] == rs[..i];
        var r := rs[i];
        if r.matched >= TWO_256 {
          return Some(SettlementConservation);
        }
        st := EnsureAccount(st, r.intent.recipient);
        st := st.(escrow := st.escrow - r.matched);
        st := AddBalance(st, r.intent.recipient, r.matched);
        st := st.(credits := st.credits + [Credit(MatchedCredit, r.intentId, batchId, r.intent.recipient, r.matched)]);
      }
      assert rs[..|rs|] == rs;
      err := None;
    }

    /** Execute, with the snapshot taken before the first balance changes. */
    method Execute(h: Hasher, shardId: Int64, pack: Package, confirmed: Header) returns (err: Option<Error>)
      modifies this
      ensures err == ErrorOf(ExecuteResult(h, old(st), shardId, pack, confirmed))
      ensures st == StateAfter(ExecuteResult(h, old(st), shardId, pack, confirmed), old(st))
    {
      var checks := ExecuteChecks(h, st, shardId, pack, confirmed);
      if checks.Err? {
        return Some(checks.error);
      }
      var s := pack.settlement;
      if ChunkKey(s.batchId, shardId, s.chunkIndex) in st.executed {
        return None;
      }
      if VerifyPackage(h, pack).Err? {
        return Some(InvalidProof);
      }
      var valid := ValidateInstructions(h, shardId, s);
      if valid.Err? {
        return Some(valid.error);
      }
      var totalIncoming := SumMatched(s.incoming);
      var totalFallback := SumFallback(s.outgoing);
      if totalIncoming + totalFallback >= TWO_256 || st.escrow < totalIncoming + totalFallback {
        return Some(InsufficientBalance);
      }
      var snapshot := st;
      err := ConsumeOutgoing(h, s.outgoing, s.batchId, pack);
      if err.Some? {
        st := snapshot;
        return;
      }
      err := CreditIncoming(s.incoming, s.batchId);
      if err.Some? {
        st := snapshot;
        return;
      }
      st := st.(executed := st.executed + {ChunkKey(s.batchId, shardId, s.chunkIndex)});
    }
  }

  method SumMatched(rs: seq<IntentResult>) returns (total: int)
    ensures total == TotalMatched(rs)
  {
    total := 0;
    for i := 0 to |rs|
      invariant total == TotalMatched(rs[..i])
    {
      assert rs[..i + 1][..i] == rs[..i];
      total := total + rs[i].matched;
    }
    assert rs[..|rs|] == rs;
  }

  method SumFallback(rs: seq<IntentResult>) returns (total: int)
    ensures total == TotalFallback(rs)
  {
    total := 0;
    for i := 0 to |rs|
      invariant total == TotalFallback(rs[..i])
    {
      assert rs[..i + 1][..i] == rs[..i];
      total := total + rs[i].fallback;
    }
    assert rs[..|rs|] == rs;
  }

  lemma {:induction false} OutgoingErrorSticks(h: Hasher, st: ShardState, shardId: Int64, rs: seq<IntentResult>, i: nat)
    requires i <= |rs| && CheckOutgoing(h, st, shardId, rs[..i]).Err?
    ensures CheckOutgoing(h, st, shardId, rs) == CheckOutgoing(h, st, shardId, rs[..i])
    decreases |rs|
  {
    if i == |rs| {
      assert rs[..i] == rs;
    } else {
      assert rs[..|rs| - 1][..i] == rs[..i];
      OutgoingErrorSticks(h, st, shardId, rs[..|rs| - 1], i);
    }
  }

  lemma {:induction false} IncomingErrorSticks(
    h: Hasher, shardId: Int64, rs: seq<IntentResult>, start: set<Hash>, i: nat)
    requires i <= |rs| && CheckIncoming(h, shardId, rs[..i], start).Err?
    ensures CheckIncoming(h, shardId, rs, start) == CheckIncoming(h, shardId, rs[..i], start)
    decreases |rs|
  {
    if i == |rs| {
      assert rs[..i] == rs;
    } else {
      assert rs[..|rs| - 1][..i] == rs[..i];
      IncomingErrorSticks(h, shardId, rs[..|rs| - 1], start, i);
    }
  }

  lemma {:induction false} ConsumeErrorSticks(
    h: Hasher, st: ShardState, rs: seq<IntentResult>, batchId: Hash, pack: Package, i: nat)
    requires i <= |rs| && ConsumeAll(h, st, rs[..i], batchId, pack).Err?
    ensures ConsumeAll(h, st, rs, batchId, pack) == ConsumeAll(h, st, rs[..i], batchId, pack)
    decreases |rs|
  {
    if i == |rs| {
      assert rs[..i] == rs;
    } else {
      assert rs[..|rs| - 1][..i] == rs[..i];
      ConsumeErrorSticks(h, st, rs[..|rs| - 1], batchId, pack, i);
    }
  }
}
