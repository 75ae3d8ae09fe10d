/**
 * The registry account: reservations, nonces, settlement and credit marks and the fallback outbox in the words of one
 * account, each operation proved against the shard state it stands for.
 */
module RegistryAccount {
  import opened Base
  import opened ByteStrings
  import opened Model
  import opened Packages
  import opened Slots
  import opened SlotStorage
  import R = RegistrySlots
  import S = Settlements

  // ---- marks ----

  ghost predicate ChunkMarked(u: Universe, w: Words, executed: set<S.ChunkKey>, c: S.ChunkKey) {
    Get(u.h, w, ChunkSlot(c)) != ZERO <==> c in executed
  }

  ghost predicate CreditMarked(u: Universe, w: Words, credited: set<S.FallbackKey>, k: S.FallbackKey) {
    Get(u.h, w, CreditDone(RecordKey(u.h, k))) != ZERO <==> k in credited
  }

  /** The words mark exactly the executed chunks and the credited fallbacks, among those in use. */
  ghost predicate Marks(u: Universe, w: Words, executed: set<S.ChunkKey>, credited: set<S.FallbackKey>) {
    && Sound(u) && (forall c :: c in u.chunks ==> ChunkMarked(u, w, executed, c))
    && (forall k :: k in u.keys ==> CreditMarked(u, w, credited, k))
  }

  ghost function MarkSlots(): iset<Slot> {
    iset s: Slot | s.SettlementDone? || s.CreditDone?
  }

  lemma EmptyMarks(u: Universe)
    requires Sound(u)
    ensures Marks(u, map[], {}, {})
  {
  }

  /** Writes elsewhere in the account keep the marks. */
  lemma MarksKept(
    u: Universe, a: Words, b: Words, changed: iset<Slot>, executed: set<S.ChunkKey>,
    credited: set<S.FallbackKey>)
    requires Marks(u, a, executed, credited) && SameBut(u, a, b, changed) && changed !! MarkSlots()
    ensures Marks(u, b, executed, credited)
  {
    forall c | c in u.chunks ensures ChunkMarked(u, b, executed, c) {
      assert ChunkMarked(u, a, executed, c) && ChunkSlot(c) in u.slots && ChunkSlot(c) in MarkSlots();
    }
    forall k | k in u.keys ensures CreditMarked(u, b, credited, k) {
      assert CreditMarked(u, a, credited, k) && RecordSlots(u, RecordKey(u.h, k)) && CreditDone(RecordKey(u.h, k)) in MarkSlots();
    }
  }

  lemma OneIsNotZero()
    ensures WordOf(1) != ZERO
  {
    NumOfWord(1);
    NumOfWord(0);
    ZeroWord();
  }

  lemma ChunkMarks(u: Universe, w: Words, executed: set<S.ChunkKey>, credited: set<S.FallbackKey>, c: S.ChunkKey)
    requires Marks(u, w, executed, credited) && c in u.chunks
    ensures Marks(u, Set(u.h, w, ChunkSlot(c), WordOf(1)), executed + {c}, credited)
  {
    var b := Set(u.h, w, ChunkSlot(c), WordOf(1));
    OneIsNotZero();
    forall x | x in u.chunks ensures ChunkMarked(u, b, executed + {c}, x) {
      assert ChunkMarked(u, w, executed, x);
      GetSet(u.h, u.slots, w, ChunkSlot(c), WordOf(1), ChunkSlot(x));
    }
    forall k | k in u.keys ensures CreditMarked(u, b, credited, k) {
      assert CreditMarked(u, w, credited, k) && RecordSlots(u, RecordKey(u.h, k));
      GetSet(u.h, u.slots, w, ChunkSlot(c), WordOf(1), CreditDone(RecordKey(u.h, k)));
    }
  }

  lemma CreditMarks(u: Universe, w: Words, executed: set<S.ChunkKey>, credited: set<S.FallbackKey>, k: S.FallbackKey)
    requires Marks(u, w, executed, credited) && k in u.keys
    ensures Marks(u, Set(u.h, w, CreditDone(RecordKey(u.h, k)), WordOf(1)), executed, credited + {k})
  {
    var slot := CreditDone(RecordKey(u.h, k));
    var b := Set(u.h, w, slot, WordOf(1));
    OneIsNotZero();
    assert RecordSlots(u, RecordKey(u.h, k));
    forall c | c in u.chunks ensures ChunkMarked(u, b, executed, c) {
      assert ChunkMarked(u, w, executed, c);
      GetSet(u.h, u.slots, w, slot, WordOf(1), ChunkSlot(c));
    }
    forall x | x in u.keys ensures CreditMarked(u, b, credited + {k}, x) {
      assert CreditMarked(u, w, credited, x) && RecordSlots(u, RecordKey(u.h, x));
      GetSet(u.h, u.slots, w, slot, WordOf(1), CreditDone(RecordKey(u.h, x)));
    }
  }

  // ---- the whole account ----

  /** The words stand for everything a shard state keeps in storage. */
  ghost predicate Holds(u: Universe, w: Words, st: S.ShardState) {
    && Represents(u, w, st.outbox, st.status) && R.Represents(u, w, st.reservations, st.nonces) && Marks(u, w, st.executed, st.credited)
  }

  /** The shard states the words stand for. */
  ghost function Held(u: Universe, w: Words): iset<S.ShardState> {
    iset st | Holds(u, w, st)
  }

  /** What is not in storage does not matter. */
  ghost predicate SameStorage(a: S.ShardState, b: S.ShardState) {
    && a.outbox == b.outbox && a.status == b.status && a.reservations == b.reservations && a.nonces == b.nonces
    && a.executed == b.executed && a.credited == b.credited
  }

  lemma SameHeld(u: Universe, w: Words, a: S.ShardState, b: S.ShardState)
    requires a in Held(u, w) && SameStorage(a, b)
    ensures b in Held(u, w)
  {
  }

  /** Storage without any word stands for a shard before any netting. */
  lemma EmptyHolds(u: Universe, st: S.ShardState)
    requires Sound(u) && st.outbox == [] && st.status == map[] && st.reservations == map[] && st.nonces == map[]
    requires st.executed == {} && st.credited == {}
    ensures st in Held(u, map[])
  {
    EmptyOutbox(u);
    R.EmptyRegistry(u);
    EmptyMarks(u);
  }

  /** Writes to intents' and senders' slots keep outbox and marks. */
  lemma RegistryWrites(u: Universe, a: Words, b: Words, st: S.ShardState)
    requires Holds(u, a, st) && SameBut(u, a, b, R.IntentsSlots())
    ensures Represents(u, b, st.outbox, st.status) && Marks(u, b, st.executed, st.credited)
  {
    OutboxKept(u, a, b, R.IntentsSlots(), st.outbox, st.status);
    MarksKept(u, a, b, R.IntentsSlots(), st.executed, st.credited);
  }

  /** Writes to the outbox's slots keep reservations, nonces and marks. */
  lemma OutboxWrites(u: Universe, a: Words, b: Words, changed: iset<Slot>, st: S.ShardState)
    requires Holds(u, a, st) && SameBut(u, a, b, changed) && changed <= OutboxSlots()
    ensures R.Represents(u, b, st.reservations, st.nonces) && Marks(u, b, st.executed, st.credited)
  {
    R.RegistryKept(u, a, b, changed, st.reservations, st.nonces);
    MarksKept(u, a, b, changed, st.executed, st.credited);
  }

  /** Writes to a mark keep reservations, nonces and the outbox. */
  lemma MarkWrites(u: Universe, a: Words, s: Slot, value: Word, st: S.ShardState)
    requires Holds(u, a, st) && s in u.slots && s in MarkSlots()
    ensures var b := Set(u.h, a, s, value); R.Represents(u, b, st.reservations, st.nonces) && Represents(u, b, st.outbox, st.status)
  {
    var b := Set(u.h, a, s, value);
    SetSame(u, a, s, value);
    OutboxKept(u, a, b, iset{s}, st.outbox, st.status);
    R.RegistryKept(u, a, b, iset{s}, st.reservations, st.nonces);
  }

  /** Reserving keeps everything else the account holds. */
  lemma ReserveHeld(u: Universe, w: Words, st: S.ShardState, sender: Address, id: Hash, amount: nat, nonce: Uint64)
    requires st in Held(u, w) && sender in u.senders && id in u.ids && id !in st.reservations && amount < TWO_256
    ensures AfterReserve(st, sender, id, amount, nonce) in Held(u, R.Reserved(u.h, w, id, amount, sender, nonce))
  {
    R.ReserveRefines(u, w, st.reservations, st.nonces, id, amount, sender, nonce);
    RegistryWrites(u, w, R.Reserved(u.h, w, id, amount, sender, nonce), st);
  }

  function AfterReserve(st: S.ShardState, sender: Address, id: Hash, amount: nat, nonce: Uint64): S.ShardState {
    S.AddBalance(st, sender, -(amount as int)).(
      escrow := st.escrow + amount,
      reservations := st.reservations[id := S.Reservation(amount, 0, 0, 0, S.Reserved)],
      nonces := st.nonces[sender := nonce])
  }

  lemma ReserveOk(h: Hasher, st: S.ShardState, p: PaymentIntent, ctx: ValidationContext, id: Hash)
    requires Validate(p, ctx).Ok? && IntentId(h, p) == Ok(id) && id !in st.reservations
    requires p.nonce == S.NextNonce(st, p.sender) && p.nonce < TWO_64 - 1 && p.amount < TWO_256
    requires p.sender in st.balances && st.balances[p.sender] >= p.amount
    ensures 0 < p.amount && S.ReserveResult(h, st, p, ctx) == Ok(AfterReserve(st, p.sender, id, p.amount, p.nonce + 1))
  {
  }

  lemma ConsumeHeld(u: Universe, w: Words, st: S.ShardState, r: IntentResult, batchId: Hash)
    requires st in Held(u, w) && r.intentId in u.ids && S.ConsumeResult(u.h, st, r, batchId).Ok?
    ensures 0 <= r.matched && 0 <= r.fallback
    ensures S.ConsumeResult(u.h, st, r, batchId).value in Held(u, R.ConsumedWords(u.h, w, r.intentId, r.matched, r.fallback, batchId))
  {
    assert R.EntryOk(u.h, w, st.reservations, r.intentId);
    R.ConsumeRefines(u, w, st.reservations, st.nonces, r.intentId, r.matched, r.fallback, batchId);
    RegistryWrites(u, w, R.ConsumedWords(u.h, w, r.intentId, r.matched, r.fallback, batchId), st);
  }

  lemma ChunkHeld(u: Universe, w: Words, st: S.ShardState, c: S.ChunkKey)
    requires st in Held(u, w) && c in u.chunks
    ensures st.(executed := st.executed + {c}) in Held(u, Set(u.h, w, ChunkSlot(c), WordOf(1)))
  {
    ChunkMarks(u, w, st.executed, st.credited, c);
    MarkWrites(u, w, ChunkSlot(c), WordOf(1), st);
  }

  lemma CreditHeld(u: Universe, w: Words, st: S.ShardState, k: S.FallbackKey)
    requires st in Held(u, w) && k in u.keys
    ensures st.(credited := st.credited + {k}) in Held(u, Set(u.h, w, CreditDone(RecordKey(u.h, k)), WordOf(1)))
  {
    CreditMarks(u, w, st.executed, st.credited, k);
    assert RecordSlots(u, RecordKey(u.h, k));
    MarkWrites(u, w, CreditDone(RecordKey(u.h, k)), WordOf(1), st);
  }

  /** What Create's writes leave of the words. */
  ghost predicate Written(u: Universe, a: Words, b: Words, n: Uint64, item: S.ReservedFallback)
    requires |u.codec.encode(item)| < TWO_32
  {
    var record := RecordKey(u.h, item.Key());
    && SameBut(u, a, b, Touched(u, n, item.Key())) && n + 1 < TWO_64 && Get(u.h, b, Count) == WordOf(n + 1)
    && Get(u.h, b, Index(n)) == WordOf(record) && Get(u.h, b, Status(record)) == WordOf(1)
    && Stored(u.h, u.slots, b, record, u.codec.encode(item))
  }

  function AfterAppend(st: S.ShardState, item: S.ReservedFallback): S.ShardState {
    st.(outbox := st.outbox + [item], status := st.status[item.Key() := S.Pending])
  }

  lemma AppendHeld(u: Universe, a: Words, b: Words, st: S.ShardState, item: S.ReservedFallback)
    requires st in Held(u, a) && Room(u, |st.outbox|, item) && item.Key() !in st.status
    requires |u.codec.encode(item)| < TWO_32 && Written(u, a, b, |st.outbox|, item)
    ensures AfterAppend(st, item) in Held(u, b)
  {
    CreateRepresents(u, a, b, st.outbox, st.status, item);
    OutboxWrites(u, a, b, Touched(u, |st.outbox|, item.Key()), st);
  }

  lemma CompleteHeld(u: Universe, w: Words, st: S.ShardState, k: S.FallbackKey)
    requires st in Held(u, w) && k in u.keys && k in st.status
    ensures st.(status := st.status[k := S.Completed]) in Held(u, Set(u.h, w, Status(RecordKey(u.h, k)), WordOf(2)))
  {
    var slot := Status(RecordKey(u.h, k));
    var b := Set(u.h, w, slot, WordOf(2));
    assert RecordSlots(u, RecordKey(u.h, k));
    CompleteRepresents(u, w, st.outbox, st.status, k);
    SetSame(u, w, slot, WordOf(2));
    OutboxWrites(u, w, b, iset{slot}, st);
  }

  // ---- what the words say of a state they stand for ----

  lemma HeldSound(u: Universe, w: Words, st: S.ShardState)
    requires st in Held(u, w)
    ensures Sound(u) && |st.outbox| < TWO_64 && Get(u.h, w, Count) == WordOf(|st.outbox|)
  {
  }

  lemma HeldEntry(u: Universe, w: Words, st: S.ShardState, id: Hash)
    requires st in Held(u, w) && id in u.ids
    ensures R.EntryOk(u.h, w, st.reservations, id)
  {
  }

  lemma HeldNonce(u: Universe, w: Words, st: S.ShardState, sender: Address)
    requires st in Held(u, w) && sender in u.senders
    ensures R.NonceOk(u.h, w, st.nonces, sender)
  {
  }

  lemma HeldMarks(u: Universe, w: Words, st: S.ShardState)
    requires st in Held(u, w)
    ensures Marks(u, w, st.executed, st.credited)
  {
  }

  lemma HeldStatus(u: Universe, w: Words, st: S.ShardState, k: S.FallbackKey)
    requires st in Held(u, w) && k in u.keys
    ensures Marked(u, w, st.status, k)
  {
  }

  lemma HeldItem(u: Universe, w: Words, st: S.ShardState, i: Uint64)
    requires st in Held(u, w) && i < |st.outbox|
    ensures Lossless(u.codec, u.items) && ItemStored(u, w, st.outbox, i)
  {
  }

  /** The status word of a reservation, unless it is out of range. */
  function CodeIn(word: Word): Option<nat> {
    if Num(word) > 3 then None else Some(Num(word))
  }

  lemma CodeRead(reservations: map<Hash, S.Reservation>, id: Hash)
    ensures CodeIn(WordOf(R.Code(reservations, id))) == Some(R.Code(reservations, id))
  {
    NumOfWord(R.Code(reservations, id));
  }

  class Account {
    const u: Universe
    var words: Words
    var balances: map<Address, int>
    var escrow: int
    ghost var st: S.ShardState

    ghost predicate Valid()
      reads this
    {
      st in Held(u, words) && balances == st.balances && escrow == st.escrow
    }

    /** An account nothing was written to. */
    constructor (universe: Universe, initial: map<Address, int>)
      requires Sound(universe)
      ensures Valid() && u == universe && st == S.ShardState(initial, 0, map[], map[], [], map[], {}, {}, 0, [])
    {
      u, words, balances, escrow := universe, map[], initial, 0;
      st := S.ShardState(initial, 0, map[], map[], [], map[], {}, {}, 0, []);
      new;
      EmptyHolds(u, st);
    }

    // ---- registry ----

    method ReservationCode(id: Hash) returns (code: Option<nat>)
      requires Valid() && id in u.ids
      ensures code == Some(R.Code(st.reservations, id))
    {
      HeldEntry(u, words, st, id);
      CodeRead(st.reservations, id);
      code := CodeIn(Get(u.h, words, Reservation(id)));
    }

    method NextNonce(sender: Address) returns (n: Uint64)
      requires Valid() && sender in u.senders
      ensures n == S.NextNonce(st, sender)
    {
      HeldNonce(u, words, st, sender);
      SmallWord(S.NextNonce(st, sender));
      n := Num(Get(u.h, words, Nonce(sender))) % TWO_64;
    }

    /** Get: a reservation read back from its words. */
    method Lookup(id: Hash) returns (r: Result<S.Reservation>)
      requires Valid() && id in u.ids
      ensures r == if id in st.reservations then Ok(st.reservations[id]) else Err(ReservationNotFound)
    {
      HeldEntry(u, words, st, id);
      R.ReadsBack(u.h, words, st.reservations, id);
      r := R.ReadWords(u.h, words, id);
    }

    method Reserve(p: PaymentIntent, ctx: ValidationContext) returns (err: Option<Error>)
      requires Valid() && p.sender in u.senders && (IntentId(u.h, p).Ok? ==> IntentId(u.h, p).value in u.ids)
      modifies this
      ensures Valid() && err == S.ErrorOf(S.ReserveResult(u.h, old(st), p, ctx))
      ensures st == S.StateAfter(S.ReserveResult(u.h, old(st), p, ctx), old(st))
    {
      var valid := Validate(p, ctx);
      if valid.Err? {
        return Some(valid.error);
      }
      var id := IntentId(u.h, p);
      if id.Err? {
        return Some(id.error);
      }
      var code := ReservationCode(id.value);
      if code.None? {
        return Some(InvalidStatus);
      }
      if code.value != 0 {
        return Some(ReservationExists);
      }
      var next := NextNonce(p.sender);
      if p.nonce != next {
        return Some(NonceMismatch);
      }
      if next == TWO_64 - 1 {
        return Some(NonceExhausted);
      }
      if p.amount >= TWO_256 {
        return Some(InvalidAmount);
      }
      if p.sender !in balances || balances[p.sender] < p.amount {
        return Some(InsufficientBalance);
      }
      ReserveOk(u.h, st, p, ctx, id.value);
      WriteReservation(p.sender, id.value, p.amount, next + 1);
      err := None;
    }

    method WriteReservation(sender: Address, id: Hash, amount: nat, nonce: Uint64)
      requires Valid() && sender in u.senders && id in u.ids && id !in st.reservations && amount < TWO_256
      requires sender in balances
      modifies this
      ensures Valid() && st == AfterReserve(old(st), sender, id, amount, nonce)
    {
      ReserveHeld(u, words, st, sender, id, amount, nonce);
      balances := balances[sender := balances[sender] - amount];
      escrow := escrow + amount;
      WriteEntry(sender, id, amount, nonce);
      st := AfterReserve(st, sender, id, amount, nonce);
    }

    method WriteEntry(sender: Address, id: Hash, amount: nat, nonce: Uint64)
      modifies this`words
      ensures words == R.Reserved(u.h, old(words), id, amount, sender, nonce)
    {
      words := Set(u.h, words, Amount(id), WordOf(amount));
      words := Set(u.h, words, Reservation(id), WordOf(1));
      words := Set(u.h, words, Nonce(sender), WordOf(nonce));
    }

    method Consume(r: IntentResult, batchId: Hash) returns (err: Option<Error>)
      requires Valid() && r.intentId in u.ids
      modifies this`words, this`st
      ensures Valid() && err == S.ErrorOf(S.ConsumeResult(u.h, old(st), r, batchId))
      ensures st == S.StateAfter(S.ConsumeResult(u.h, old(st), r, batchId), old(st))
    {
      var valid := ValidateResult(u.h, r);
      if valid.Err? {
        return Some(valid.error);
      }
      var found := Lookup(r.intentId);
      if found.Err? {
        return Some(ReservationNotFound);
      }
      if found.value.status != S.Reserved || found.value.amount != r.intent.amount {
        return Some(InvalidStatus);
      }
      ConsumeHeld(u, words, st, r, batchId);
      words := Set(u.h, words, Matched(r.intentId), WordOf(r.matched));
      words := Set(u.h, words, Fallback(r.intentId), WordOf(r.fallback));
      words := Set(u.h, words, Batch(r.intentId), WordOf(batchId));
      words := Set(u.h, words, Reservation(r.intentId), WordOf(2));
      st := S.ConsumeResult(u.h, st, r, batchId).value;
      err := None;
    }

    // ---- marks ----

    method IsExecuted(c: S.ChunkKey) returns (done: bool)
      requires Valid() && c in u.chunks
      ensures done <==> c in st.executed
    {
      HeldMarks(u, words, st);
      assert ChunkMarked(u, words, st.executed, c);
      done := Get(u.h, words, ChunkSlot(c)) != ZERO;
    }

    method MarkExecuted(c: S.ChunkKey)
      requires Valid() && c in u.chunks
      modifies this`words, this`st
      ensures Valid() && st == old(st).(executed := old(st).executed + {c})
    {
      ChunkHeld(u, words, st, c);
      words := Set(u.h, words, ChunkSlot(c), WordOf(1));
      st := st.(executed := st.executed + {c});
    }

    method IsCredited(k: S.FallbackKey) returns (done: bool)
      requires Valid() && k in u.keys
      ensures done <==> k in st.credited
    {
      HeldMarks(u, words, st);
      assert CreditMarked(u, words, st.credited, k);
      done := Get(u.h, words, CreditDone(RecordKey(u.h, k))) != ZERO;
    }

    method MarkCredited(k: S.FallbackKey)
      requires Valid() && k in u.keys
      modifies this`words, this`st
      ensures Valid() && st == old(st).(credited := old(st).credited + {k})
    {
      CreditHeld(u, words, st, k);
      words := Set(u.h, words, CreditDone(RecordKey(u.h, k)), WordOf(1));
      st := st.(credited := st.credited + {k});
    }

    // ---- outbox ----

    method StatusOf(record: Hash) returns (value: nat)
      ensures value == StatusIn(Get(u.h, words, Status(record)))
    {
      value := StatusIn(Get(u.h, words, Status(record)));
    }

    method RecordStatus(record: Hash, ghost key: S.FallbackKey) returns (value: nat)
      requires Valid() && key in u.keys && record == RecordKey(u.h, key)
      ensures value == StatusCode(st.status, key)
    {
      HeldStatus(u, words, st, key);
      StatusRead(st.status, key);
      value := StatusOf(record);
    }

    /** The status of a key in use. */
    method KeyStatus(key: S.FallbackKey) returns (value: nat)
      requires Valid() && key in u.keys
      ensures value == StatusCode(st.status, key)
    {
      value := RecordStatus(RecordKey(u.h, key), key);
    }

    method CountItems() returns (n: Uint64)
      requires Valid()
      ensures n == |st.outbox|
    {
      HeldSound(u, words, st);
      SmallWord(|st.outbox|);
      n := Num(Get(u.h, words, Count)) % TWO_64;
    }

    method WriteHead(n: Uint64, record: Hash, length: nat)
      requires Apart(u.h, u.slots) && Index(n) in u.slots && Count in u.slots && Length(record) in u.slots
      modifies this`words
      ensures Get(u.h, words, Index(n)) == WordOf(record) && Get(u.h, words, Count) == WordOf(n + 1)
      ensures Get(u.h, words, Length(record)) == WordOf(length)
      ensures SameBut(u, old(words), words, iset{Index(n), Count, Length(record)})
    {
      HeadWritten(u, words, n, record, length);
      words := Set(u.h, words, Index(n), WordOf(record));
      words := Set(u.h, words, Count, WordOf(n + 1));
      words := Set(u.h, words, Length(record), WordOf(length));
    }

    /** The chunk loop of Create. */
    method WriteData(record: Hash, encoded: Bytes)
      requires Apart(u.h, u.slots) && |encoded| < TWO_32 && forall j: Uint64 :: Data(record, j) in u.slots
      modifies this`words
      ensures forall j: Uint64 :: j < ChunkCount(|encoded|) ==> Get(u.h, words, Data(record, j)) == Chunk(encoded, j)
      ensures SameBut(u, old(words), words, DataOf(record))
    {
      var offset := 0;
      while offset < |encoded|
        invariant offset % 32 == 0 && offset / 32 <= ChunkCount(|encoded|)
        invariant offset >= |encoded| ==> offset / 32 == ChunkCount(|encoded|)
        invariant forall j: Uint64 :: j < offset / 32 ==> Get(u.h, words, Data(record, j)) == Chunk(encoded, j)
        invariant SameBut(u, old(words), words, DataOf(record))
        decreases |encoded| - offset
      {
        ghost var before := words;
        var j: Uint64 := offset / 32;
        var word := Chunk(encoded, j);
        words := Set(u.h, words, Data(record, j), word);
        DataWritten(u, old(words), before, record, encoded, j);
        offset := offset + 32;
      }
    }

    /** The words a new item is written to. */
    method WriteWords(n: Uint64, key: S.FallbackKey, encoded: Bytes)
      requires Apart(u.h, u.slots) && Index(n) in u.slots && Count in u.slots && RecordSlots(u, RecordKey(u.h, key))
      requires |encoded| < TWO_32
      modifies this`words
      ensures SameBut(u, old(words), words, Touched(u, n, key)) && Get(u.h, words, Count) == WordOf(n + 1)
      ensures Get(u.h, words, Index(n)) == WordOf(RecordKey(u.h, key)) && Get(u.h, words, Status(RecordKey(u.h, key))) == WordOf(1)
      ensures Stored(u.h, u.slots, words, RecordKey(u.h, key), encoded)
    {
      var record := RecordKey(u.h, key);
      ghost var w0 := words;
      WriteHead(n, record, |encoded|);
      ghost var w1 := words;
      WriteData(record, encoded);
      TailWritten(u, w0, w1, words, n, key, encoded);
      words := Set(u.h, words, Status(record), WordOf(1));
    }

    /** Create: the amount leaves the escrow and the item joins the outbox, once per key. */
    method Create(item: S.ReservedFallback) returns (err: Option<Error>)
      requires Valid() && Room(u, |st.outbox|, item)
      modifies this
      ensures Valid() && err == S.ErrorOf(S.CreateResult(old(st), item)) && st == S.StateAfter(S.CreateResult(old(st), item), old(st))
    {
      if item.amount <= 0 || item.intentId == 0 || item.batchId == 0 {
        return Some(InvalidFallback);
      }
      var current := KeyStatus(item.Key());
      if current != 0 {
        return None;
      }
      if item.amount >= TWO_256 || escrow < item.amount {
        return Some(InsufficientBalance);
      }
      Append(item);
      escrow := escrow - item.amount;
      SameHeld(u, words, st, st.(escrow := escrow));
      st := st.(escrow := escrow);
      err := None;
    }

    method Append(item: S.ReservedFallback)
      requires Valid() && Room(u, |st.outbox|, item) && item.Key() !in st.status
      modifies this`words, this`st
      ensures Valid() && st == AfterAppend(old(st), item)
    {
      HeldSound(u, words, st);
      var n := CountItems();
      ghost var before := words;
      WriteWords(n, item.Key(), u.codec.encode(item));
      AppendHeld(u, before, words, st, item);
      st := AfterAppend(st, item);
    }

    /** Complete: idempotent, and an error for a key that was never created. */
    method Complete(key: S.FallbackKey) returns (err: Option<Error>)
      requires Valid() && key in u.keys
      modifies this`words, this`st
      ensures Valid() && err == S.ErrorOf(S.CompleteResult(old(st), key)) && st == S.StateAfter(S.CompleteResult(old(st), key), old(st))
    {
      var current := KeyStatus(key);
      if current == 0 {
        return Some(FallbackNotFound);
      }
      if current == 1 {
        WriteCompleted(key);
      } else {
        assert st.status[key := S.Completed] == st.status;
      }
      err := None;
    }

    method WriteCompleted(key: S.FallbackKey)
      requires Valid() && key in u.keys && key in st.status
      modifies this`words, this`st
      ensures Valid() && st == old(st).(status := old(st).status[key := S.Completed])
    {
      CompleteHeld(u, words, st, key);
      words := Set(u.h, words, Status(RecordKey(u.h, key)), WordOf(2));
      st := st.(status := st.status[key := S.Completed]);
    }

    /** The chunks of a record one after the other. */
    method ReadData(record: Hash, n: nat, ghost bytes: Bytes) returns (encoded: Bytes)
      requires |bytes| < TWO_32 && n == ChunkCount(|bytes|)
      requires forall j: Uint64 :: j < n ==> Get(u.h, words, Data(record, j)) == Chunk(bytes, j)
      ensures encoded == Joined(bytes, n)
    {
      encoded := [];
      for j := 0 to n
        invariant encoded == Joined(bytes, j)
      {
        var index: Uint64 := j;
        assert Get(u.h, words, Data(record, index)) == Chunk(bytes, index);
        encoded := encoded + Get(u.h, words, Data(record, index));
      }
    }

    /** load: the chunks of a record, joined and cut to its length. */
    method Load(record: Hash, ghost item: S.ReservedFallback) returns (r: Option<S.ReservedFallback>)
      requires Lossless(u.codec, u.items) && item in u.items
      requires Stored(u.h, u.slots, words, record, u.codec.encode(item))
      ensures r == Some(item)
    {
      ghost var bytes := u.codec.encode(item);
      SmallWord(|bytes|);
      var length := Num(Get(u.h, words, Length(record))) % TWO_64;
      if length == 0 {
        return None;
      }
      var encoded := ReadData(record, ChunkCount(length), bytes);
      Reassembles(bytes);
      r := u.codec.decode(encoded[..length]);
    }

    method RecordAt(i: Uint64) returns (record: Hash)
      requires Valid() && i < |st.outbox|
      ensures record == RecordKey(u.h, st.outbox[i].Key()) && st.outbox[i].Key() in u.keys
    {
      HeldItem(u, words, st, i);
      RecordRead(RecordKey(u.h, st.outbox[i].Key()));
      record := RecordIn(Get(u.h, words, Index(i)));
    }

    /** The item at a position, if it is pending. */
    method ReadAt(i: Uint64) returns (r: Option<seq<S.ReservedFallback>>)
      requires Valid() && i < |st.outbox|
      ensures r == Some(if StatusCode(st.status, st.outbox[i].Key()) == 1 then [st.outbox[i]] else [])
    {
      var record := RecordAt(i);
      var current := RecordStatus(record, st.outbox[i].Key());
      HeldItem(u, words, st, i);
      if current != 1 {
        return Some([]);
      }
      var item := Load(record, st.outbox[i]);
      if item.None? {
        return None;
      }
      r := Some([item.value]);
    }

    /** ListPending: exactly the created and uncompleted items, in the order of creation, with their payloads intact. */
    method ListPending() returns (items: Option<seq<S.ReservedFallback>>)
      requires Valid()
      ensures items == Some(PendingItems(st.outbox, st.status))
    {
      var found: seq<S.ReservedFallback> := [];
      var count := CountItems();
      for i := 0 to count
        invariant found == PendingItems(st.outbox[..i], st.status)
      {
        var index: Uint64 := i;
        var some := ReadAt(index);
        if some.None? {
          return None;
        }
        PendingNext(st.outbox, st.status, i);
        found := found + some.value;
      }
      assert st.outbox[..|st.outbox|] == st.outbox;
      items := Some(found);
    }
  }
}
