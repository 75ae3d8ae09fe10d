/** Words of storage, and the fallback outbox kept in them (pkg/netting/fallback/outbox.go). */
module SlotStorage {
  import opened Base
  import opened ByteStrings
  import opened Model
  import opened Slots
  import S = Settlements

  /** 32 bytes of storage. */
  type Word = b: Bytes | |b| == 32 witness [0, 0, 0, 0, 0, 0, 0, 0, 0, 0, 0, 0, 0, 0, 0, 0, 0, 0, 0, 0, 0, 0, 0, 0, 0, 0, 0, 0, 0, 0, 0, 0]
  type Words = map<Hash, Word>

  const ZERO: Word := [0, 0, 0, 0, 0, 0, 0, 0, 0, 0, 0, 0, 0, 0, 0, 0, 0, 0, 0, 0, 0, 0, 0, 0, 0, 0, 0, 0, 0, 0, 0, 0]

  // ---- words ----

  /** GetState: an absent word is zero. */
  function Get(h: Hasher, w: Words, s: Slot): Word {
    if SlotAddress(h, s) in w then w[SlotAddress(h, s)] else ZERO
  }

  function Set(h: Hasher, w: Words, s: Slot, value: Word): Words {
    w[SlotAddress(h, s) := value]
  }

  /** The slots in use do not collide. */
  ghost predicate Apart(h: Hasher, slots: iset<Slot>) {
    forall a, b {:trigger Separate(h, a, b)} :: a in slots && b in slots ==> Separate(h, a, b)
  }

  ghost predicate Separate(h: Hasher, a: Slot, b: Slot) {
    SlotAddress(h, a) == SlotAddress(h, b) ==> a == b
  }

  lemma CollisionFreeApart(h: Hasher, slots: iset<Slot>)
    requires CollisionFree(h, Preimages(slots))
    ensures Apart(h, slots)
  {
    forall a, b | a in slots && b in slots ensures Separate(h, a, b) {
      if SlotAddress(h, a) == SlotAddress(h, b) {
        AddressesDistinct(h, slots, a, b);
      }
    }
  }

  lemma GetSet(h: Hasher, slots: iset<Slot>, w: Words, a: Slot, value: Word, b: Slot)
    requires Apart(h, slots) && a in slots && b in slots
    ensures Get(h, Set(h, w, a, value), b) == if a == b then value else Get(h, w, b)
  {
    assert Separate(h, a, b);
  }

  /** A number as a word, and back. */
  function WordOf(n: nat): Word {
    BigEndian(n, 32)
  }

  function Num(b: Bytes): nat {
    if b == [] then 0 else Num(b[..|b| - 1]) * 256 + b[|b| - 1]
  }

  lemma {:induction false} NumOfBigEndian(n: nat, w: nat)
    requires n < Pow256(w)
    ensures Num(BigEndian(n, w)) == n
  {
    if w > 0 {
      NumOfBigEndian(n / 256, w - 1);
      assert BigEndian(n, w)[..w - 1] == BigEndian(n / 256, w - 1);
    }
  }

  lemma NumOfWord(n: nat)
    requires n < TWO_256
    ensures Num(WordOf(n)) == n
  {
    WidthLimits();
    NumOfBigEndian(n, 32);
  }

  // ---- byte strings in words ----

  function Zeros(n: nat): Bytes {
    seq(n, _ => 0)
  }

  function ChunkCount(n: nat): nat {
    (n + 31) / 32
  }

  /** The j-th 32-byte chunk, padded with zeros. */
  function Chunk(b: Bytes, j: nat): Word
    requires 32 * j < |b|
  {
    var end := if 32 * j + 32 < |b| then 32 * j + 32 else |b|;
    b[32 * j..end] + Zeros(32 - (end - 32 * j))
  }

  /** The first n chunks read back one after the other. */
  function Joined(b: Bytes, n: nat): (r: Bytes)
    requires n <= ChunkCount(|b|)
    ensures |r| == 32 * n
  {
    if n == 0 then [] else Joined(b, n - 1) + Chunk(b, n - 1)
  }

  lemma {:induction false} JoinedIs(b: Bytes, n: nat)
    requires n <= ChunkCount(|b|)
    ensures forall i :: 0 <= i < 32 * n && i < |b| ==> Joined(b, n)[i] == b[i]
    decreases n
  {
    if n > 0 {
      JoinedIs(b, n - 1);
      forall i | 0 <= i < 32 * n && i < |b| ensures Joined(b, n)[i] == b[i] {
        if i >= 32 * (n - 1) {
          assert Joined(b, n)[i] == Chunk(b, n - 1)[i - 32 * (n - 1)];
        }
      }
    }
  }

  /** Reading all chunks and cutting the padding off gives the bytes back. */
  lemma Reassembles(b: Bytes)
    ensures |Joined(b, ChunkCount(|b|))| >= |b| && Joined(b, ChunkCount(|b|))[..|b|] == b
  {
    JoinedIs(b, ChunkCount(|b|));
  }

  // ---- the outbox in words ----

  const RECORD_DOMAIN := "BLOCKEMULATOR_RESERVED_FALLBACK_V1"

  function RecordPreimage(k: S.FallbackKey): Bytes {
    Ascii(RECORD_DOMAIN) + BigEndian(k.intentId, 32) + BigEndian(k.batchId, 32)
  }

  function RecordKey(h: Hasher, k: S.FallbackKey): Hash {
    h(RecordPreimage(k))
  }

  /** The keys in use have distinct records. */
  ghost predicate KeysApart(h: Hasher, keys: iset<S.FallbackKey>) {
    forall a, b :: a in keys && b in keys && RecordKey(h, a) == RecordKey(h, b) ==> a == b
  }

  ghost function RecordPreimages(keys: iset<S.FallbackKey>): iset<Bytes> {
    iset k | k in keys :: RecordPreimage(k)
  }

  /** The encoding a record key is derived from loses nothing. */
  lemma RecordPreimageInjective(a: S.FallbackKey, b: S.FallbackKey)
    requires RecordPreimage(a) == RecordPreimage(b)
    ensures a == b
  {
    WidthLimits();
    var d := Ascii(RECORD_DOMAIN);
    PeelLast(d + BigEndian(a.intentId, 32), BigEndian(a.batchId, 32), d + BigEndian(b.intentId, 32), BigEndian(b.batchId, 32));
    PeelLast(d, BigEndian(a.intentId, 32), d, BigEndian(b.intentId, 32));
    BigEndianInjective(a.intentId, b.intentId, 32);
    BigEndianInjective(a.batchId, b.batchId, 32);
  }

  lemma CollisionFreeKeys(h: Hasher, keys: iset<S.FallbackKey>)
    requires CollisionFree(h, RecordPreimages(keys))
    ensures KeysApart(h, keys)
  {
    forall a, b | a in keys && b in keys && RecordKey(h, a) == RecordKey(h, b) ensures a == b {
      assert RecordPreimage(a) in RecordPreimages(keys) && RecordPreimage(b) in RecordPreimages(keys);
      RecordPreimageInjective(a, b);
    }
  }

  /** The serialisation library: what it encodes it decodes, to a length that fits. */
  datatype Codec = Codec(encode: S.ReservedFallback -> Bytes, decode: Bytes -> Option<S.ReservedFallback>)

  ghost predicate Lossless(c: Codec, items: iset<S.ReservedFallback>) {
    forall x :: x in items ==> c.encode(x) != [] && |c.encode(x)| < TWO_32 && c.decode(c.encode(x)) == Some(x)
  }

  /** A byte string is stored under a record. */
  ghost predicate Stored(h: Hasher, slots: iset<Slot>, w: Words, record: Hash, b: Bytes)
    requires |b| < TWO_32
  {
    && Length(record) in slots && Get(h, w, Length(record)) == WordOf(|b|)
    && forall j: Uint64 :: j < ChunkCount(|b|) ==> Data(record, j) in slots && Get(h, w, Data(record, j)) == Chunk(b, j)
  }

  function StatusCode(status: map<S.FallbackKey, S.FallbackStatus>, k: S.FallbackKey): nat {
    if k !in status then 0 else if status[k] == S.Pending then 1 else 2
  }

  /** The slots, fallback keys, outbox items, intents, senders and settlement chunks in use on one account. */
  datatype Universe = Universe(
    h: Hasher, codec: Codec, slots: iset<Slot>, keys: iset<S.FallbackKey>, items: iset<S.ReservedFallback>,
    ids: iset<Hash>, senders: iset<Address>, chunks: iset<S.ChunkKey>)

  ghost predicate RecordSlots(u: Universe, record: Hash) {
    && Status(record) in u.slots && Length(record) in u.slots && CreditDone(record) in u.slots
    && forall j: Uint64 :: Data(record, j) in u.slots
  }

  /** The slots of an intent. */
  ghost predicate IntentSlots(slots: iset<Slot>, id: Hash) {
    Amount(id) in slots && Matched(id) in slots && Fallback(id) in slots && Batch(id) in slots && Reservation(id) in slots
  }

  function ChunkSlot(c: S.ChunkKey): Slot {
    SettlementDone(c.batchId, c.shardId, c.chunkIndex)
  }

  /** Slots and keys in use do not collide, and the serialisation preserves the items. */
  ghost predicate Sound(u: Universe) {
    && Apart(u.h, u.slots) && KeysApart(u.h, u.keys) && Lossless(u.codec, u.items)
    && Count in u.slots && (forall i: Uint64 :: Index(i) in u.slots)
    && (forall k :: k in u.keys ==> RecordSlots(u, RecordKey(u.h, k)))
    && (forall id :: id in u.ids ==> IntentSlots(u.slots, id)) && (forall a :: a in u.senders ==> Nonce(a) in u.slots)
    && (forall c :: c in u.chunks ==> ChunkSlot(c) in u.slots)
  }

  ghost predicate IsRecord(u: Universe, record: Hash) {
    exists k :: k in u.keys && RecordKey(u.h, k) == record
  }

  /** The slots that the keys, intents, senders and chunks in use need. */
  ghost predicate InUse(u: Universe, s: Slot) {
    match s
    case Amount(id) => id in u.ids
    case Matched(id) => id in u.ids
    case Fallback(id) => id in u.ids
    case Batch(id) => id in u.ids
    case Reservation(id) => id in u.ids
    case Nonce(sender) => sender in u.senders
    case SettlementDone(batch, shard, chunk) => S.ChunkKey(batch, shard, chunk) in u.chunks
    case CreditDone(record) => IsRecord(u, record)
    case Status(record) => IsRecord(u, record)
    case Length(record) => IsRecord(u, record)
    case Data(record, _) => IsRecord(u, record)
    case Index(_) => true
    case Count => true
  }

  /**
   * Collision freedom of the hash on the bytes it is given for the slots and records in use is all the account needs:
   * the encodings themselves never coincide.
   */
  lemma CollisionFreeSound(u: Universe)
    requires forall s :: s in u.slots <==> InUse(u, s)
    requires CollisionFree(u.h, Preimages(u.slots)) && CollisionFree(u.h, RecordPreimages(u.keys))
    requires Lossless(u.codec, u.items)
    ensures Sound(u)
  {
    CollisionFreeApart(u.h, u.slots);
    CollisionFreeKeys(u.h, u.keys);
    forall k | k in u.keys ensures RecordSlots(u, RecordKey(u.h, k)) {
      assert IsRecord(u, RecordKey(u.h, k));
    }
  }

  ghost predicate ItemStored(u: Universe, w: Words, outbox: seq<S.ReservedFallback>, i: Uint64)
    requires Lossless(u.codec, u.items) && i < |outbox|
  {
    && outbox[i] in u.items && outbox[i].Key() in u.keys && Index(i) in u.slots && Get(u.h, w, Index(i)) == WordOf(RecordKey(u.h, outbox[i].Key()))
    && Stored(u.h, u.slots, w, RecordKey(u.h, outbox[i].Key()), u.codec.encode(outbox[i]))
  }

  /** The words hold exactly this outbox and these statuses. */
  ghost predicate Represents(
    u: Universe, w: Words, outbox: seq<S.ReservedFallback>, status: map<S.FallbackKey, S.FallbackStatus>) {
    && Sound(u) && |outbox| < TWO_64 && Get(u.h, w, Count) == WordOf(|outbox|)
    && (forall i: Uint64 :: i < |outbox| ==> ItemStored(u, w, outbox, i))
    && (forall i :: 0 <= i < |outbox| ==> outbox[i].Key() in status) && (forall k :: k in status ==> k in u.keys)
    && (forall k :: k in u.keys ==> Marked(u, w, status, k))
  }

  ghost predicate Marked(u: Universe, w: Words, status: map<S.FallbackKey, S.FallbackStatus>, k: S.FallbackKey) {
    Get(u.h, w, Status(RecordKey(u.h, k))) == WordOf(StatusCode(status, k))
  }

  /** The words of the slots in use are the same but for some. */
  ghost predicate SameBut(u: Universe, a: Words, b: Words, changed: iset<Slot>) {
    forall s :: s in u.slots && s !in changed ==> Get(u.h, b, s) == Get(u.h, a, s)
  }

  lemma StoredStays(u: Universe, a: Words, b: Words, changed: iset<Slot>, record: Hash, bytes: Bytes)
    requires |bytes| < TWO_32 && Stored(u.h, u.slots, a, record, bytes) && SameBut(u, a, b, changed)
    requires Length(record) !in changed && forall j: Uint64 :: Data(record, j) !in changed
    ensures Stored(u.h, u.slots, b, record, bytes)
  {
    forall j: Uint64 | j < ChunkCount(|bytes|) ensures Data(record, j) in u.slots && Get(u.h, b, Data(record, j)) == Chunk(bytes, j) {
      assert Data(record, j) in u.slots;
    }
  }

  lemma ItemStays(u: Universe, a: Words, b: Words, changed: iset<Slot>, outbox: seq<S.ReservedFallback>, i: Uint64)
    requires Lossless(u.codec, u.items) && i < |outbox| && ItemStored(u, a, outbox, i) && SameBut(u, a, b, changed)
    requires forall s :: s in changed ==> s.Status?
    ensures ItemStored(u, b, outbox, i)
  {
    StoredStays(u, a, b, changed, RecordKey(u.h, outbox[i].Key()), u.codec.encode(outbox[i]));
  }

  lemma ItemsStay(u: Universe, a: Words, b: Words, changed: iset<Slot>, outbox: seq<S.ReservedFallback>)
    requires Lossless(u.codec, u.items) && SameBut(u, a, b, changed) && (forall s :: s in changed ==> s.Status?)
    requires forall i: Uint64 :: i < |outbox| ==> ItemStored(u, a, outbox, i)
    ensures forall i: Uint64 :: i < |outbox| ==> ItemStored(u, b, outbox, i)
  {
    forall i: Uint64 | i < |outbox| ensures ItemStored(u, b, outbox, i) {
      ItemStays(u, a, b, changed, outbox, i);
    }
  }

  /** Marking a key completed. */
  lemma CompleteRepresents(
    u: Universe, w: Words, outbox: seq<S.ReservedFallback>, status: map<S.FallbackKey, S.FallbackStatus>,
    k: S.FallbackKey)
    requires Represents(u, w, outbox, status) && k in status
    ensures Represents(u, Set(u.h, w, Status(RecordKey(u.h, k)), WordOf(2)), outbox, status[k := S.Completed])
  {
    var slot := Status(RecordKey(u.h, k));
    var next := Set(u.h, w, slot, WordOf(2));
    SetSame(u, w, slot, WordOf(2));
    ItemsStay(u, w, next, iset{slot}, outbox);
    forall x | x in u.keys ensures Marked(u, next, status[k := S.Completed], x) {
      MarkCompleted(u, w, status, k, x);
    }
  }

  lemma MarkCompleted(
    u: Universe, w: Words, status: map<S.FallbackKey, S.FallbackStatus>, k: S.FallbackKey, x: S.FallbackKey)
    requires Sound(u) && k in u.keys && x in u.keys && Marked(u, w, status, x)
    ensures Marked(u, Set(u.h, w, Status(RecordKey(u.h, k)), WordOf(2)), status[k := S.Completed], x)
  {
    GetSet(u.h, u.slots, w, Status(RecordKey(u.h, k)), WordOf(2), Status(RecordKey(u.h, x)));
  }

  lemma SetSame(u: Universe, w: Words, s: Slot, value: Word)
    requires Apart(u.h, u.slots) && s in u.slots
    ensures SameBut(u, w, Set(u.h, w, s, value), iset{s}) && Get(u.h, Set(u.h, w, s, value), s) == value
  {
    forall x | x in u.slots && x !in iset{s} ensures Get(u.h, Set(u.h, w, s, value), x) == Get(u.h, w, x) {
      GetSet(u.h, u.slots, w, s, value, x);
    }
  }

  /** A new item is in use and the counter does not overflow. */
  ghost predicate Room(u: Universe, n: nat, item: S.ReservedFallback) {
    n + 1 < TWO_64 && item in u.items && item.Key() in u.keys
  }

  /** The slots a new item touches. */
  ghost function Touched(u: Universe, n: Uint64, k: S.FallbackKey): iset<Slot> {
    iset s | s == Index(n) || s == Count || s == Length(RecordKey(u.h, k)) || s == Status(RecordKey(u.h, k)) || (s.Data? && s.record == RecordKey(u.h, k))
  }

  lemma CreateRepresents(
    u: Universe, a: Words, b: Words, outbox: seq<S.ReservedFallback>,
    status: map<S.FallbackKey, S.FallbackStatus>, item: S.ReservedFallback)
    requires Represents(u, a, outbox, status) && Room(u, |outbox|, item) && item.Key() !in status
    requires SameBut(u, a, b, Touched(u, |outbox|, item.Key()))
    requires Get(u.h, b, Count) == WordOf(|outbox| + 1)
    requires Get(u.h, b, Index(|outbox|)) == WordOf(RecordKey(u.h, item.Key()))
    requires Stored(u.h, u.slots, b, RecordKey(u.h, item.Key()), u.codec.encode(item))
    requires Get(u.h, b, Status(RecordKey(u.h, item.Key()))) == WordOf(1)
    ensures Represents(u, b, outbox + [item], status[item.Key() := S.Pending])
  {
    var next, n := outbox + [item], |outbox|;
    forall i: Uint64 | i < |next| ensures ItemStored(u, b, next, i) {
      if i < n {
        OldItemStored(u, a, b, outbox, status, item, i);
      } else {
        NewItemStored(u, b, outbox, item);
      }
    }
    forall x | x in u.keys ensures Marked(u, b, status[item.Key() := S.Pending], x) {
      MarkPending(u, a, b, status, n, item.Key(), x);
    }
  }

  lemma NewItemStored(u: Universe, b: Words, outbox: seq<S.ReservedFallback>, item: S.ReservedFallback)
    requires Sound(u) && Room(u, |outbox|, item) && Get(u.h, b, Index(|outbox|)) == WordOf(RecordKey(u.h, item.Key()))
    requires Stored(u.h, u.slots, b, RecordKey(u.h, item.Key()), u.codec.encode(item))
    ensures ItemStored(u, b, outbox + [item], |outbox|)
  {
  }

  lemma MarkPending(
    u: Universe, a: Words, b: Words, status: map<S.FallbackKey, S.FallbackStatus>, n: Uint64, k: S.FallbackKey,
    x: S.FallbackKey)
    requires Sound(u) && k in u.keys && x in u.keys && Marked(u, a, status, x) && SameBut(u, a, b, Touched(u, n, k))
    requires Get(u.h, b, Status(RecordKey(u.h, k))) == WordOf(1)
    ensures Marked(u, b, status[k := S.Pending], x)
  {
    if x != k {
      assert Status(RecordKey(u.h, x)) !in Touched(u, n, k);
    }
  }

  lemma OldItemStored(
    u: Universe, a: Words, b: Words, outbox: seq<S.ReservedFallback>,
    status: map<S.FallbackKey, S.FallbackStatus>, item: S.ReservedFallback, i: Uint64)
    requires Represents(u, a, outbox, status) && i < |outbox| && item.Key() in u.keys && item.Key() !in status
    requires SameBut(u, a, b, Touched(u, |outbox|, item.Key()))
    ensures ItemStored(u, b, outbox + [item], i)
  {
    assert ItemStored(u, a, outbox, i);
    var k := outbox[i].Key();
    assert k in status && RecordKey(u.h, k) != RecordKey(u.h, item.Key());
    StoredStays(u, a, b, Touched(u, |outbox|, item.Key()), RecordKey(u.h, k), u.codec.encode(outbox[i]));
  }

  /** The items created and not completed, in the order of creation. */
  function PendingItems(
    outbox: seq<S.ReservedFallback>, status: map<S.FallbackKey, S.FallbackStatus>): seq<S.ReservedFallback> {
    if outbox == [] then [] else
      var last := outbox[|outbox| - 1];
      PendingItems(outbox[..|outbox| - 1], status) + if last.Key() in status && status[last.Key()] == S.Pending then [last] else []
  }

  /** A record key read back from its word. */
  function RecordIn(word: Word): Hash {
    Num(word) % TWO_256
  }

  function StatusIn(word: Word): nat {
    var value := Num(word) % TWO_64;
    if value > 2 then 0 else value
  }

  lemma SmallWord(n: nat)
    requires n < TWO_64
    ensures Num(WordOf(n)) % TWO_64 == n
  {
    NumOfWord(n);
  }

  lemma RecordRead(record: Hash)
    ensures RecordIn(WordOf(record)) == record
  {
    NumOfWord(record);
  }

  lemma StatusRead(status: map<S.FallbackKey, S.FallbackStatus>, k: S.FallbackKey)
    ensures StatusIn(WordOf(StatusCode(status, k))) == StatusCode(status, k)
  {
    SmallWord(StatusCode(status, k));
  }

  lemma PendingNext(outbox: seq<S.ReservedFallback>, status: map<S.FallbackKey, S.FallbackStatus>, i: nat)
    requires i < |outbox|
    ensures PendingItems(outbox[..i + 1], status) == PendingItems(outbox[..i], status) + if StatusCode(status, outbox[i].Key()) == 1 then [outbox[i]] else []
  {
    assert outbox[..i + 1][..i] == outbox[..i];
  }

  lemma HeadWritten(u: Universe, w: Words, n: Uint64, record: Hash, length: nat)
    requires Apart(u.h, u.slots) && Index(n) in u.slots && Count in u.slots && Length(record) in u.slots
    ensures var b := Set(u.h, Set(u.h, Set(u.h, w, Index(n), WordOf(record)), Count, WordOf(n + 1)), Length(record), WordOf(length));
      && Get(u.h, b, Index(n)) == WordOf(record) && Get(u.h, b, Count) == WordOf(n + 1) && Get(u.h, b, Length(record)) == WordOf(length)
      && SameBut(u, w, b, iset{Index(n), Count, Length(record)})
  {
    var x := Set(u.h, w, Index(n), WordOf(record));
    var y := Set(u.h, x, Count, WordOf(n + 1));
    SetSame(u, w, Index(n), WordOf(record));
    SetSame(u, x, Count, WordOf(n + 1));
    SetSame(u, y, Length(record), WordOf(length));
  }

  lemma TailWritten(u: Universe, a: Words, b: Words, c: Words, n: Uint64, k: S.FallbackKey, encoded: Bytes)
    requires Apart(u.h, u.slots) && Index(n) in u.slots && Count in u.slots && RecordSlots(u, RecordKey(u.h, k))
    requires |encoded| < TWO_32
    requires Get(u.h, b, Index(n)) == WordOf(RecordKey(u.h, k)) && Get(u.h, b, Count) == WordOf(n + 1)
    requires Get(u.h, b, Length(RecordKey(u.h, k))) == WordOf(|encoded|)
    requires SameBut(u, a, b, iset{Index(n), Count, Length(RecordKey(u.h, k))})
    requires SameBut(u, b, c, DataOf(RecordKey(u.h, k)))
    requires forall j: Uint64 :: j < ChunkCount(|encoded|) ==> Get(u.h, c, Data(RecordKey(u.h, k), j)) == Chunk(encoded, j)
    ensures var d := Set(u.h, c, Status(RecordKey(u.h, k)), WordOf(1));
      && SameBut(u, a, d, Touched(u, n, k)) && Get(u.h, d, Count) == WordOf(n + 1) && Get(u.h, d, Index(n)) == WordOf(RecordKey(u.h, k))
      && Stored(u.h, u.slots, d, RecordKey(u.h, k), encoded) && Get(u.h, d, Status(RecordKey(u.h, k))) == WordOf(1)
  {
    var record := RecordKey(u.h, k);
    var d := Set(u.h, c, Status(record), WordOf(1));
    SetSame(u, c, Status(record), WordOf(1));
    TailSame(u, a, b, c, d, n, k);
    TailStored(u, c, d, record, encoded);
  }

  lemma TailSame(u: Universe, a: Words, b: Words, c: Words, d: Words, n: Uint64, k: S.FallbackKey)
    requires SameBut(u, a, b, iset{Index(n), Count, Length(RecordKey(u.h, k))})
    requires SameBut(u, b, c, DataOf(RecordKey(u.h, k)))
    requires SameBut(u, c, d, iset{Status(RecordKey(u.h, k))})
    ensures SameBut(u, a, d, Touched(u, n, k))
  {
    var record := RecordKey(u.h, k);
    forall s | s in u.slots && s !in Touched(u, n, k) ensures Get(u.h, d, s) == Get(u.h, a, s) {
      assert s !in DataOf(record) && s !in iset{Index(n), Count, Length(record)} && s !in iset{Status(record)};
    }
  }

  lemma TailStored(u: Universe, c: Words, d: Words, record: Hash, encoded: Bytes)
    requires RecordSlots(u, record) && |encoded| < TWO_32 && SameBut(u, c, d, iset{Status(record)})
    requires Get(u.h, c, Length(record)) == WordOf(|encoded|)
    requires forall j: Uint64 :: j < ChunkCount(|encoded|) ==> Get(u.h, c, Data(record, j)) == Chunk(encoded, j)
    ensures Stored(u.h, u.slots, d, record, encoded)
  {
    forall j: Uint64 | j < ChunkCount(|encoded|) ensures Data(record, j) in u.slots && Get(u.h, d, Data(record, j)) == Chunk(encoded, j) {
      assert Data(record, j) !in iset{Status(record)};
    }
  }

  /** The data slots of a record. */
  ghost function DataOf(record: Hash): iset<Slot> {
    iset s: Slot | s.Data? && s.record == record
  }

  lemma DataWritten(u: Universe, a: Words, b: Words, record: Hash, encoded: Bytes, j: Uint64)
    requires Apart(u.h, u.slots) && |encoded| < TWO_32 && j < ChunkCount(|encoded|)
    requires (forall i: Uint64 :: Data(record, i) in u.slots)
    requires forall i: Uint64 :: i < j ==> Get(u.h, b, Data(record, i)) == Chunk(encoded, i)
    requires SameBut(u, a, b, DataOf(record))
    ensures var c := Set(u.h, b, Data(record, j), Chunk(encoded, j));
      && (forall i: Uint64 :: i < j + 1 ==> Get(u.h, c, Data(record, i)) == Chunk(encoded, i))
      && SameBut(u, a, c, DataOf(record))
  {
    var c := Set(u.h, b, Data(record, j), Chunk(encoded, j));
    forall i: Uint64 | i < j + 1 ensures Get(u.h, c, Data(record, i)) == Chunk(encoded, i) {
      GetSet(u.h, u.slots, b, Data(record, j), Chunk(encoded, j), Data(record, i));
    }
    forall s | s in u.slots && s !in DataOf(record) ensures Get(u.h, c, s) == Get(u.h, a, s) {
      GetSet(u.h, u.slots, b, Data(record, j), Chunk(encoded, j), s);
    }
  }

  // ---- the empty outbox, and the outbox among other data ----

  lemma {:induction false} ZeroBytes(w: nat)
    ensures BigEndian(0, w) == Zeros(w)
  {
    if w > 0 {
      ZeroBytes(w - 1);
      assert BigEndian(0, w) == Zeros(w - 1) + [0];
    }
  }

  lemma ZeroWord()
    ensures WordOf(0) == ZERO
  {
    ZeroBytes(32);
  }

  /** Storage without any word holds the empty outbox. */
  lemma EmptyOutbox(u: Universe)
    requires Sound(u)
    ensures Represents(u, map[], [], map[])
  {
    ZeroWord();
  }

  ghost function OutboxSlots(): iset<Slot> {
    iset s: Slot | s.Status? || s.Length? || s.Data? || s.Index? || s.Count?
  }

  /** Writes elsewhere in the account keep the outbox. */
  lemma OutboxKept(
    u: Universe, a: Words, b: Words, changed: iset<Slot>, outbox: seq<S.ReservedFallback>, status: map<S.FallbackKey, S.FallbackStatus>)
    requires Represents(u, a, outbox, status) && SameBut(u, a, b, changed) && changed !! OutboxSlots()
    ensures Represents(u, b, outbox, status)
  {
    assert Count in OutboxSlots();
    forall i: Uint64 | i < |outbox| ensures ItemStored(u, b, outbox, i) {
      assert ItemStored(u, a, outbox, i);
      assert Index(i) in OutboxSlots() && Length(RecordKey(u.h, outbox[i].Key())) in OutboxSlots();
      forall j: Uint64 ensures Data(RecordKey(u.h, outbox[i].Key()), j) !in changed {
        assert Data(RecordKey(u.h, outbox[i].Key()), j) in OutboxSlots();
      }
      StoredStays(u, a, b, changed, RecordKey(u.h, outbox[i].Key()), u.codec.encode(outbox[i]));
    }
    forall k | k in u.keys ensures Marked(u, b, status, k) {
      assert Marked(u, a, status, k) && RecordSlots(u, RecordKey(u.h, k)) && Status(RecordKey(u.h, k)) in OutboxSlots();
    }
  }
}
