/**
 * The storage slots of the registry account, which reservations (pkg/netting/registry), settlement marks
 * (pkg/netting/settlement) and the fallback outbox (pkg/netting/fallback) share.
 */
module Slots {
  import opened ByteStrings
  import opened Model

  /** Everything that has a slot. */
  datatype Slot =
    | Amount(id: Hash) | Matched(id: Hash) | Fallback(id: Hash) | Batch(id: Hash) | Reservation(id: Hash) | Nonce(sender: Address)
    | SettlementDone(batch: Hash, shard: Int64, chunk: Uint32) | CreditDone(record: Hash)
    | Status(record: Hash) | Length(record: Hash) | Data(record: Hash, chunkIndex: Uint64) | Index(position: Uint64) | Count

  function Domain(s: Slot): string {
    match s
    case Amount(_) => "intent:amount"
    case Matched(_) => "intent:matched"
    case Fallback(_) => "intent:fallback"
    case Batch(_) => "intent:batch"
    case Reservation(_) => "intent:status"
    case Nonce(_) => "intent:nonce"
    case SettlementDone(_, _, _) => "settlement:executed"
    case CreditDone(_) => "fallback:executed"
    case Status(_) => "fallback:status"
    case Length(_) => "fallback:length"
    case Data(_, _) => "fallback:data"
    case Index(_) => "fallback:index"
    case Count => "fallback:count"
  }

  function Payload(s: Slot): Bytes {
    match s
    case Amount(id) => BigEndian(id, 32)
    case Matched(id) => BigEndian(id, 32)
    case Fallback(id) => BigEndian(id, 32)
    case Batch(id) => BigEndian(id, 32)
    case Reservation(id) => BigEndian(id, 32)
    case Nonce(sender) => BigEndian(sender, 20)
    case SettlementDone(batch, shard, chunk) => BigEndian(batch, 32) + BigEndian(ToUint64(shard), 8) + BigEndian(chunk, 4)
    case CreditDone(record) => BigEndian(record, 32)
    case Status(record) => BigEndian(record, 32)
    case Length(record) => BigEndian(record, 32)
    case Data(record, i) => BigEndian(record, 32) + BigEndian(i, 8)
    case Index(i) => BigEndian(i, 8)
    case Count => []
  }

  /** What is hashed to the slot's address. */
  function Preimage(s: Slot): Bytes {
    Ascii(Domain(s)) + Payload(s)
  }

  function SlotAddress(h: Hasher, s: Slot): Hash {
    h(Preimage(s))
  }

  /** The kind of a slot: the length of its preimage and the eleventh letter of its domain tell them all apart. */
  function Kind(s: Slot): (int, char) {
    match s
    case Amount(_) => (45, 'u')
    case Matched(_) => (46, 'c')
    case Fallback(_) => (47, 'l')
    case Batch(_) => (44, 'c')
    case Reservation(_) => (45, 't')
    case Nonce(_) => (32, 'c')
    case SettlementDone(_, _, _) => (63, ':')
    case CreditDone(_) => (49, 'x')
    case Status(_) => (47, 't')
    case Length(_) => (47, 'e')
    case Data(_, _) => (53, 'a')
    case Index(_) => (22, 'n')
    case Count => (14, 'o')
  }

  lemma KindShows(s: Slot)
    ensures |Preimage(s)| == Kind(s).0 && Kind(s).0 > 10 && |Domain(s)| > 10 && Domain(s)[10] == Kind(s).1
    ensures Preimage(s)[10] == Kind(s).1 as int
  {
    assert Preimage(s)[10] == Ascii(Domain(s))[10];
  }

  lemma SameKind(a: Slot, b: Slot)
    requires Preimage(a) == Preimage(b)
    ensures Kind(a) == Kind(b) && Domain(a) == Domain(b)
  {
    KindShows(a);
    KindShows(b);
  }

  /** No two slots of the registry account are derived from the same bytes. */
  lemma PreimageInjective(a: Slot, b: Slot)
    requires Preimage(a) == Preimage(b)
    ensures a == b
  {
    SameKind(a, b);
    WidthLimits();
    SplitEqual(Ascii(Domain(a)), Payload(a), Ascii(Domain(b)), Payload(b));
    PayloadInjective(a, b);
  }

  lemma PayloadInjective(a: Slot, b: Slot)
    requires Kind(a) == Kind(b) && Payload(a) == Payload(b)
    ensures a == b
  {
    WidthLimits();
    match a {
      case Amount(x) => BigEndianInjective(x, b.id, 32);
      case Matched(x) => BigEndianInjective(x, b.id, 32);
      case Fallback(x) => BigEndianInjective(x, b.id, 32);
      case Batch(x) => BigEndianInjective(x, b.id, 32);
      case Reservation(x) => BigEndianInjective(x, b.id, 32);
      case Nonce(x) => BigEndianInjective(x, b.sender, 20);
      case SettlementDone(x, y, z) => SettlementInjective(a, b);
      case CreditDone(x) => BigEndianInjective(x, b.record, 32);
      case Status(x) => BigEndianInjective(x, b.record, 32);
      case Length(x) => BigEndianInjective(x, b.record, 32);
      case Data(x, i) =>
        PeelLast(BigEndian(x, 32), BigEndian(i, 8), BigEndian(b.record, 32), BigEndian(b.chunkIndex, 8));
        BigEndianInjective(x, b.record, 32);
        BigEndianInjective(i, b.chunkIndex, 8);
      case Index(i) => BigEndianInjective(i, b.position, 8);
      case Count =>
    }
  }

  lemma SettlementInjective(a: Slot, b: Slot)
    requires a.SettlementDone? && b.SettlementDone? && Payload(a) == Payload(b)
    ensures a == b
  {
    WidthLimits();
    var x, y := BigEndian(a.batch, 32) + BigEndian(ToUint64(a.shard), 8), BigEndian(b.batch, 32) + BigEndian(ToUint64(b.shard), 8);
    PeelLast(x, BigEndian(a.chunk, 4), y, BigEndian(b.chunk, 4));
    PeelLast(BigEndian(a.batch, 32), BigEndian(ToUint64(a.shard), 8), BigEndian(b.batch, 32), BigEndian(ToUint64(b.shard), 8));
    BigEndianInjective(a.batch, b.batch, 32);
    BigEndianInjective(ToUint64(a.shard), ToUint64(b.shard), 8);
    BigEndianInjective(a.chunk, b.chunk, 4);
  }

  // ---- addresses ----

  ghost function Preimages(slots: iset<Slot>): iset<Bytes> {
    iset s | s in slots :: Preimage(s)
  }

  /** Distinct slots in use have distinct addresses, if the hash has no collision on their preimages. */
  lemma AddressesDistinct(h: Hasher, slots: iset<Slot>, a: Slot, b: Slot)
    requires CollisionFree(h, Preimages(slots)) && a in slots && b in slots && SlotAddress(h, a) == SlotAddress(h, b)
    ensures a == b
  {
    PreimageInjective(a, b);
  }
}
