/** Reservations and nonces as words of storage (pkg/netting/registry/registry.go). */
module RegistrySlots {
  import opened Base
  import opened ByteStrings
  import opened Slots
  import opened SlotStorage
  import S = Settlements

  /** The reservation of an identifier as the words say: an absent one has only zero words. */
  function Expected(reservations: map<Hash, S.Reservation>, id: Hash): S.Reservation {
    if id in reservations then reservations[id] else S.Reservation(0, 0, 0, 0, S.Reserved)
  }

  function Code(reservations: map<Hash, S.Reservation>, id: Hash): nat {
    if id !in reservations then 0 else if reservations[id].status == S.Reserved then 1 else 2
  }

  ghost predicate Fits(r: S.Reservation) {
    0 <= r.amount < TWO_256 && 0 <= r.matched < TWO_256 && 0 <= r.fallback < TWO_256
  }

  ghost predicate EntryOk(h: Hasher, w: Words, reservations: map<Hash, S.Reservation>, id: Hash) {
    var r := Expected(reservations, id);
    && Fits(r) && Get(h, w, Amount(id)) == WordOf(r.amount) && Get(h, w, Matched(id)) == WordOf(r.matched)
    && Get(h, w, Fallback(id)) == WordOf(r.fallback) && Get(h, w, Batch(id)) == WordOf(r.batchId)
    && Get(h, w, Reservation(id)) == WordOf(Code(reservations, id))
  }

  ghost predicate NonceOk(h: Hasher, w: Words, nonces: map<Address, nat>, sender: Address) {
    var n := if sender in nonces then nonces[sender] else 0;
    n < TWO_64 && Get(h, w, Nonce(sender)) == WordOf(n)
  }

  /** The words hold exactly these reservations and nonces, for the intents and senders in use. */
  ghost predicate Represents(u: Universe, w: Words, reservations: map<Hash, S.Reservation>, nonces: map<Address, nat>) {
    && Sound(u) && (forall id :: id in u.ids ==> EntryOk(u.h, w, reservations, id))
    && (forall a :: a in u.senders ==> NonceOk(u.h, w, nonces, a))
  }

  lemma EntryStays(
    h: Hasher, slots: iset<Slot>, w: Words, reservations: map<Hash, S.Reservation>, id: Hash, s: Slot,
    value: Word)
    requires Apart(h, slots) && IntentSlots(slots, id) && s in slots && EntryOk(h, w, reservations, id)
    requires s != Amount(id) && s != Matched(id) && s != Fallback(id) && s != Batch(id) && s != Reservation(id)
    ensures EntryOk(h, Set(h, w, s, value), reservations, id)
  {
    GetSet(h, slots, w, s, value, Amount(id));
    GetSet(h, slots, w, s, value, Matched(id));
    GetSet(h, slots, w, s, value, Fallback(id));
    GetSet(h, slots, w, s, value, Batch(id));
    GetSet(h, slots, w, s, value, Reservation(id));
  }

  /** Reserve's writes: amount, status and the sender's next nonce. */
  function Reserved(h: Hasher, w: Words, id: Hash, amount: nat, sender: Address, nonce: nat): Words {
    Set(h, Set(h, Set(h, w, Amount(id), WordOf(amount)), Reservation(id), WordOf(1)), Nonce(sender), WordOf(nonce))
  }

  lemma ReservedEntry(
    h: Hasher, slots: iset<Slot>, w: Words, reservations: map<Hash, S.Reservation>, id: Hash, amount: nat,
    sender: Address, nonce: nat, x: Hash)
    requires Apart(h, slots) && IntentSlots(slots, id) && IntentSlots(slots, x) && Nonce(sender) in slots
    requires EntryOk(h, w, reservations, x) && id !in reservations && amount < TWO_256
    ensures EntryOk(h, Reserved(h, w, id, amount, sender, nonce), reservations[id := S.Reservation(amount, 0, 0, 0, S.Reserved)], x)
  {
    var a := Set(h, w, Amount(id), WordOf(amount));
    var b := Set(h, a, Reservation(id), WordOf(1));
    var next := reservations[id := S.Reservation(amount, 0, 0, 0, S.Reserved)];
    if x != id {
      EntryStays(h, slots, w, reservations, x, Amount(id), WordOf(amount));
      EntryStays(h, slots, a, reservations, x, Reservation(id), WordOf(1));
      OtherEntry(h, b, reservations, id, S.Reservation(amount, 0, 0, 0, S.Reserved), x);
    } else {
      GetSet(h, slots, w, Amount(id), WordOf(amount), Matched(id));
      GetSet(h, slots, w, Amount(id), WordOf(amount), Fallback(id));
      GetSet(h, slots, w, Amount(id), WordOf(amount), Batch(id));
      GetSet(h, slots, a, Reservation(id), WordOf(1), Amount(id));
      GetSet(h, slots, a, Reservation(id), WordOf(1), Matched(id));
      GetSet(h, slots, a, Reservation(id), WordOf(1), Fallback(id));
      GetSet(h, slots, a, Reservation(id), WordOf(1), Batch(id));
    }
    assert EntryOk(h, b, next, x);
    EntryStays(h, slots, b, next, x, Nonce(sender), WordOf(nonce));
  }

  lemma ReservedNonce(
    h: Hasher, slots: iset<Slot>, w: Words, nonces: map<Address, nat>, id: Hash, amount: nat, sender: Address,
    nonce: nat, x: Address)
    requires Apart(h, slots) && IntentSlots(slots, id) && Nonce(sender) in slots && Nonce(x) in slots
    requires NonceOk(h, w, nonces, x) && nonce < TWO_64
    ensures NonceOk(h, Reserved(h, w, id, amount, sender, nonce), nonces[sender := nonce], x)
  {
    var a := Set(h, w, Amount(id), WordOf(amount));
    var b := Set(h, a, Reservation(id), WordOf(1));
    GetSet(h, slots, w, Amount(id), WordOf(amount), Nonce(x));
    GetSet(h, slots, a, Reservation(id), WordOf(1), Nonce(x));
    GetSet(h, slots, b, Nonce(sender), WordOf(nonce), Nonce(x));
  }

  /** Reserving in words is reserving in the maps. */
  lemma ReserveRefines(
    u: Universe, w: Words, reservations: map<Hash, S.Reservation>, nonces: map<Address, nat>, id: Hash, amount: nat, sender: Address, nonce: nat)
    requires Represents(u, w, reservations, nonces) && id in u.ids && sender in u.senders
    requires id !in reservations && amount < TWO_256 && nonce < TWO_64
    ensures Represents(u, Reserved(u.h, w, id, amount, sender, nonce),
      reservations[id := S.Reservation(amount, 0, 0, 0, S.Reserved)], nonces[sender := nonce])
    ensures SameBut(u, w, Reserved(u.h, w, id, amount, sender, nonce), IntentsSlots())
  {
    var next := Reserved(u.h, w, id, amount, sender, nonce);
    forall x | x in u.ids ensures EntryOk(u.h, next, reservations[id := S.Reservation(amount, 0, 0, 0, S.Reserved)], x) {
      ReservedEntry(u.h, u.slots, w, reservations, id, amount, sender, nonce, x);
    }
    forall x | x in u.senders ensures NonceOk(u.h, next, nonces[sender := nonce], x) {
      ReservedNonce(u.h, u.slots, w, nonces, id, amount, sender, nonce, x);
    }
    ReservedSame(u, w, id, amount, sender, nonce);
  }

  lemma ReservedSame(u: Universe, w: Words, id: Hash, amount: nat, sender: Address, nonce: nat)
    requires Apart(u.h, u.slots) && IntentSlots(u.slots, id) && Nonce(sender) in u.slots
    ensures SameBut(u, w, Reserved(u.h, w, id, amount, sender, nonce), IntentsSlots())
  {
    var a := Set(u.h, w, Amount(id), WordOf(amount));
    var b := Set(u.h, a, Reservation(id), WordOf(1));
    forall s | s in u.slots && s !in IntentsSlots() ensures Get(u.h, Reserved(u.h, w, id, amount, sender, nonce), s) == Get(u.h, w, s) {
      GetSet(u.h, u.slots, w, Amount(id), WordOf(amount), s);
      GetSet(u.h, u.slots, a, Reservation(id), WordOf(1), s);
      GetSet(u.h, u.slots, b, Nonce(sender), WordOf(nonce), s);
    }
  }

  /** Consume's writes: what was matched and what falls back, in which batch, and the status. */
  function ConsumedWords(h: Hasher, w: Words, id: Hash, matched: nat, fallback: nat, batch: Hash): Words {
    Set(h, Set(h, Set(h, Set(h, w, Matched(id), WordOf(matched)), Fallback(id), WordOf(fallback)), Batch(id), WordOf(batch)), Reservation(id), WordOf(2))
  }

  lemma ConsumedOther(
    h: Hasher, slots: iset<Slot>, w: Words, reservations: map<Hash, S.Reservation>, id: Hash, matched: nat,
    fallback: nat, batch: Hash, x: Hash)
    requires Apart(h, slots) && IntentSlots(slots, id) && IntentSlots(slots, x) && EntryOk(h, w, reservations, x)
    requires x != id
    ensures EntryOk(h, ConsumedWords(h, w, id, matched, fallback, batch), reservations, x)
  {
    var a := Set(h, w, Matched(id), WordOf(matched));
    var b := Set(h, a, Fallback(id), WordOf(fallback));
    var c := Set(h, b, Batch(id), WordOf(batch));
    EntryStays(h, slots, w, reservations, x, Matched(id), WordOf(matched));
    EntryStays(h, slots, a, reservations, x, Fallback(id), WordOf(fallback));
    EntryStays(h, slots, b, reservations, x, Batch(id), WordOf(batch));
    EntryStays(h, slots, c, reservations, x, Reservation(id), WordOf(2));
  }

  lemma ConsumedSelf(
    h: Hasher, slots: iset<Slot>, w: Words, id: Hash, matched: nat, fallback: nat, batch: Hash, s: Slot)
    requires Apart(h, slots) && IntentSlots(slots, id) && s in slots
    ensures Get(h, ConsumedWords(h, w, id, matched, fallback, batch), s) ==
      if s == Matched(id) then WordOf(matched) else if s == Fallback(id) then WordOf(fallback) else if s == Batch(id) then WordOf(batch)
      else if s == Reservation(id) then WordOf(2) else Get(h, w, s)
  {
    var a := Set(h, w, Matched(id), WordOf(matched));
    var b := Set(h, a, Fallback(id), WordOf(fallback));
    var c := Set(h, b, Batch(id), WordOf(batch));
    GetSet(h, slots, w, Matched(id), WordOf(matched), s);
    GetSet(h, slots, a, Fallback(id), WordOf(fallback), s);
    GetSet(h, slots, b, Batch(id), WordOf(batch), s);
    GetSet(h, slots, c, Reservation(id), WordOf(2), s);
  }

  /** Consuming in words is consuming in the map. */
  lemma ConsumeRefines(
    u: Universe, w: Words, reservations: map<Hash, S.Reservation>, nonces: map<Address, nat>, id: Hash, matched: nat, fallback: nat, batch: Hash)
    requires Represents(u, w, reservations, nonces) && id in u.ids && id in reservations && matched < TWO_256
    requires fallback < TWO_256
    ensures Represents(u, ConsumedWords(u.h, w, id, matched, fallback, batch),
      reservations[id := S.Reservation(reservations[id].amount, matched, fallback, batch, S.Consumed)], nonces)
    ensures SameBut(u, w, ConsumedWords(u.h, w, id, matched, fallback, batch), IntentsSlots())
  {
    var next := ConsumedWords(u.h, w, id, matched, fallback, batch);
    var after := reservations[id := S.Reservation(reservations[id].amount, matched, fallback, batch, S.Consumed)];
    forall x | x in u.ids ensures EntryOk(u.h, next, after, x) {
      ConsumedAny(u.h, u.slots, w, reservations, id, matched, fallback, batch, x);
    }
    forall x | x in u.senders ensures NonceOk(u.h, next, nonces, x) {
      ConsumedNonce(u.h, u.slots, w, nonces, id, matched, fallback, batch, x);
    }
    forall s | s in u.slots && s !in IntentsSlots() ensures Get(u.h, next, s) == Get(u.h, w, s) {
      ConsumedSelf(u.h, u.slots, w, id, matched, fallback, batch, s);
    }
  }

  lemma ConsumedNonce(
    h: Hasher, slots: iset<Slot>, w: Words, nonces: map<Address, nat>, id: Hash, matched: nat, fallback: nat,
    batch: Hash, x: Address)
    requires Apart(h, slots) && IntentSlots(slots, id) && Nonce(x) in slots && NonceOk(h, w, nonces, x)
    ensures NonceOk(h, ConsumedWords(h, w, id, matched, fallback, batch), nonces, x)
  {
    ConsumedSelf(h, slots, w, id, matched, fallback, batch, Nonce(x));
  }

  lemma ConsumedAny(
    h: Hasher, slots: iset<Slot>, w: Words, reservations: map<Hash, S.Reservation>, id: Hash, matched: nat,
    fallback: nat, batch: Hash, x: Hash)
    requires Apart(h, slots) && IntentSlots(slots, id) && IntentSlots(slots, x) && EntryOk(h, w, reservations, x)
    requires id in reservations && matched < TWO_256 && fallback < TWO_256
    ensures EntryOk(h, ConsumedWords(h, w, id, matched, fallback, batch), reservations[id := S.Reservation(reservations[id].amount, matched, fallback, batch, S.Consumed)], x)
  {
    if x != id {
      ConsumedOther(h, slots, w, reservations, id, matched, fallback, batch, x);
      OtherEntry(h, ConsumedWords(h, w, id, matched, fallback, batch), reservations, id, S.Reservation(reservations[id].amount, matched, fallback, batch, S.Consumed), x);
    } else {
      ConsumedEntry(h, slots, w, reservations, id, matched, fallback, batch);
    }
  }

  lemma OtherEntry(h: Hasher, w: Words, reservations: map<Hash, S.Reservation>, id: Hash, r: S.Reservation, x: Hash)
    requires x != id && EntryOk(h, w, reservations, x)
    ensures EntryOk(h, w, reservations[id := r], x)
  {
    assert Expected(reservations[id := r], x) == Expected(reservations, x) && Code(reservations[id := r], x) == Code(reservations, x);
  }

  lemma ConsumedEntry(
    h: Hasher, slots: iset<Slot>, w: Words, reservations: map<Hash, S.Reservation>, id: Hash, matched: nat,
    fallback: nat, batch: Hash)
    requires Apart(h, slots) && IntentSlots(slots, id) && EntryOk(h, w, reservations, id) && id in reservations
    requires matched < TWO_256 && fallback < TWO_256
    ensures EntryOk(h, ConsumedWords(h, w, id, matched, fallback, batch), reservations[id := S.Reservation(reservations[id].amount, matched, fallback, batch, S.Consumed)], id)
  {
    ConsumedSelf(h, slots, w, id, matched, fallback, batch, Amount(id));
    ConsumedSelf(h, slots, w, id, matched, fallback, batch, Matched(id));
    ConsumedSelf(h, slots, w, id, matched, fallback, batch, Fallback(id));
    ConsumedSelf(h, slots, w, id, matched, fallback, batch, Batch(id));
    ConsumedSelf(h, slots, w, id, matched, fallback, batch, Reservation(id));
  }

  // ---- reading back ----

  /** Get: the reservation of an identifier, read from its words. */
  function ReadWords(h: Hasher, w: Words, id: Hash): Result<S.Reservation> {
    var code := Num(Get(h, w, Reservation(id)));
    if code == 0 then Err(ReservationNotFound) else
      Ok(S.Reservation(Num(Get(h, w, Amount(id))), Num(Get(h, w, Matched(id))), Num(Get(h, w, Fallback(id))), RecordIn(Get(h, w, Batch(id))),
                       if code == 1 then S.Reserved else S.Consumed))
  }

  /** Reading the words of a reservation gives it back. */
  lemma ReadsBack(h: Hasher, w: Words, reservations: map<Hash, S.Reservation>, id: Hash)
    requires EntryOk(h, w, reservations, id)
    ensures ReadWords(h, w, id) == if id in reservations then Ok(reservations[id]) else Err(ReservationNotFound)
  {
    var e := Expected(reservations, id);
    NumOfWord(Code(reservations, id));
    NumOfWord(e.amount);
    NumOfWord(e.matched);
    NumOfWord(e.fallback);
    RecordRead(e.batchId);
  }

  // ---- the empty registry, and the registry among other data ----

  /** Storage without any word holds no reservation and no nonce. */
  lemma EmptyRegistry(u: Universe)
    requires Sound(u)
    ensures Represents(u, map[], map[], map[])
  {
    ZeroWord();
  }

  /** The slots of intents and senders. */
  ghost function IntentsSlots(): iset<Slot> {
    iset s: Slot | s.Amount? || s.Matched? || s.Fallback? || s.Batch? || s.Reservation? || s.Nonce?
  }

  /** Writes elsewhere in the account keep the registry. */
  lemma RegistryKept(
    u: Universe, a: Words, b: Words, changed: iset<Slot>, reservations: map<Hash, S.Reservation>,
    nonces: map<Address, nat>)
    requires Represents(u, a, reservations, nonces) && SameBut(u, a, b, changed) && changed !! IntentsSlots()
    ensures Represents(u, b, reservations, nonces)
  {
    forall id | id in u.ids ensures EntryOk(u.h, b, reservations, id) {
      assert EntryOk(u.h, a, reservations, id) && IntentSlots(u.slots, id);
      assert Amount(id) in IntentsSlots() && Matched(id) in IntentsSlots() && Fallback(id) in IntentsSlots();
      assert Batch(id) in IntentsSlots() && Reservation(id) in IntentsSlots();
    }
    forall x | x in u.senders ensures NonceOk(u.h, b, nonces, x) {
      assert NonceOk(u.h, a, nonces, x) && Nonce(x) in IntentsSlots();
    }
  }
}
