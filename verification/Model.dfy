/** Payment intents and their identifiers (pkg/core/intent), and the protocol records of pkg/netting/model. */
module Model {
  import opened Base
  import opened ByteStrings

  const CURRENT_VERSION := 1
  const NATIVE_ASSET: Hash := 0
  const ID_DOMAIN := "BLOCKEMULATOR_NETTING_INTENT_V1"

  /** A nil amount of the source is a negative amount here: both take the same branch of every check. */
  datatype PaymentIntent = PaymentIntent(
    version: Byte, chainId: Uint64, sender: Address, recipient: Address,
    sourceShard: Int64, destinationShard: Int64, assetId: Hash, amount: int,
    nonce: Uint64, expiryEpoch: Uint64, signature: Bytes)

  datatype ValidationContext = ValidationContext(chainId: Uint64, shardId: Int64, shardCount: Int64, currentEpoch: Uint64)

  datatype IntentResult = IntentResult(intent: PaymentIntent, intentId: Hash, matched: int, fallback: int)

  datatype ShardCut = ShardCut(shardId: Int64, previousHeight: Uint64, endHeight: Uint64, endBlockHash: Hash)

  datatype Receipt = Receipt(
    shardId: Int64, height: Uint64, blockHash: Hash, parentHash: Hash, stateRoot: Hash,
    epoch: Int64, intents: seq<PaymentIntent>, commitTime: int)

  datatype Header = Header(
    batchId: Hash, previousBatchId: Hash, windowId: Uint64, matcherMode: string,
    cutRoot: Hash, intentResultRoot: Hash, shardSettlementRoot: Hash, matchRoot: Hash, cuts: seq<ShardCut>)

  datatype Settlement = Settlement(
    batchId: Hash, windowId: Uint64, shardId: Int64, chunkIndex: Uint32, chunkCount: Uint32,
    outgoing: seq<IntentResult>, incoming: seq<IntentResult>)

  datatype Sidecar = Sidecar(
    finalizedBlocks: seq<Receipt>, intentResults: seq<IntentResult>, shardSettlements: seq<Settlement>)

  datatype Proposal = Proposal(header: Header, sidecar: Sidecar)

  /** The intents of a sequence of receipts, in order. */
  function IntentsOf(receipts: seq<Receipt>): seq<PaymentIntent> {
    if receipts == [] then [] else IntentsOf(receipts[..|receipts| - 1]) + receipts[|receipts| - 1].intents
  }

  // ---- intents ----

  function Validate(p: PaymentIntent, ctx: ValidationContext): Result<()> {
    if p.version != CURRENT_VERSION then Err(UnsupportedVersion)
    else if p.chainId != ctx.chainId then Err(WrongChain)
    else if p.amount <= 0 then Err(InvalidAmount)
    else if p.sender == p.recipient then Err(SameParticipant)
    else if p.sourceShard < 0 || p.sourceShard >= ctx.shardCount then Err(InvalidSourceShard)
    else if p.destinationShard < 0 || p.destinationShard >= ctx.shardCount then Err(InvalidDestinationShard)
    else if p.sourceShard != ctx.shardId then Err(WrongSourceShard)
    else if p.sourceShard == p.destinationShard then Err(SameShard)
    else if p.assetId != NATIVE_ASSET then Err(UnsupportedAsset)
    else if p.expiryEpoch <= ctx.currentEpoch then Err(Expired)
    else Ok(())
  }

  /** The fields of the identifier encoding that have one width for every intent. */
  function CanonicalHead(p: PaymentIntent): (r: Bytes) {
    Ascii(ID_DOMAIN) + [p.version] + BigEndian(p.chainId, 8) + BigEndian(p.sender, 20) + BigEndian(p.recipient, 20) +
    BigEndian(ToUint64(p.sourceShard), 8) + BigEndian(ToUint64(p.destinationShard), 8) + BigEndian(p.assetId, 32)
  }

  /** The protocol encoding an identifier is derived from; the signature is left out. */
  function CanonicalBytes(p: PaymentIntent): Result<Bytes> {
    if p.amount <= 0 then Err(InvalidAmount) else
      var amount := Minimal(p.amount);
      if |amount| >= TWO_32 then Err(InvalidAmount) else
        Ok(CanonicalHead(p) + BigEndian(|amount|, 4) + amount + BigEndian(p.nonce, 8) + BigEndian(p.expiryEpoch, 8))
  }

  function IntentId(h: Hasher, p: PaymentIntent): Result<Hash> {
    match CanonicalBytes(p)
    case Ok(encoded) => Ok(h(encoded))
    case Err(e) => Err(e)
  }

  /** The part of an intent its identifier commits to. */
  function Unsigned(p: PaymentIntent): PaymentIntent {
    p.(signature := [])
  }

  lemma PeelLast(a: Bytes, b: Bytes, c: Bytes, d: Bytes)
    requires |b| == |d| && a + b == c + d
    ensures a == c && b == d
  {
    assert |a + b| == |c + d|;
    SplitEqual(a, b, c, d);
  }

  lemma HeadInjective(p: PaymentIntent, q: PaymentIntent)
    requires CanonicalHead(p) == CanonicalHead(q)
    ensures p.version == q.version && p.chainId == q.chainId && p.sender == q.sender && p.recipient == q.recipient
    ensures p.sourceShard == q.sourceShard && p.destinationShard == q.destinationShard && p.assetId == q.assetId
  {
    WidthLimits();
    var p0 := Ascii(ID_DOMAIN) + [p.version];
    var q0 := Ascii(ID_DOMAIN) + [q.version];
    var p1, q1 := p0 + BigEndian(p.chainId, 8), q0 + BigEndian(q.chainId, 8);
    var p2, q2 := p1 + BigEndian(p.sender, 20), q1 + BigEndian(q.sender, 20);
    var p3, q3 := p2 + BigEndian(p.recipient, 20), q2 + BigEndian(q.recipient, 20);
    var p4, q4 := p3 + BigEndian(ToUint64(p.sourceShard), 8), q3 + BigEndian(ToUint64(q.sourceShard), 8);
    var p5, q5 := p4 + BigEndian(ToUint64(p.destinationShard), 8), q4 + BigEndian(ToUint64(q.destinationShard), 8);
    PeelLast(p5, BigEndian(p.assetId, 32), q5, BigEndian(q.assetId, 32));
    PeelLast(p4, BigEndian(ToUint64(p.destinationShard), 8), q4, BigEndian(ToUint64(q.destinationShard), 8));
    PeelLast(p3, BigEndian(ToUint64(p.sourceShard), 8), q3, BigEndian(ToUint64(q.sourceShard), 8));
    PeelLast(p2, BigEndian(p.recipient, 20), q2, BigEndian(q.recipient, 20));
    PeelLast(p1, BigEndian(p.sender, 20), q1, BigEndian(q.sender, 20));
    PeelLast(p0, BigEndian(p.chainId, 8), q0, BigEndian(q.chainId, 8));
    LastByte(Ascii(ID_DOMAIN), Ascii(ID_DOMAIN), p.version, q.version);
    BigEndianInjective(p.assetId, q.assetId, 32);
    BigEndianInjective(ToUint64(p.destinationShard), ToUint64(q.destinationShard), 8);
    BigEndianInjective(ToUint64(p.sourceShard), ToUint64(q.sourceShard), 8);
    BigEndianInjective(p.recipient, q.recipient, 20);
    BigEndianInjective(p.sender, q.sender, 20);
    BigEndianInjective(p.chainId, q.chainId, 8);
  }

  /** The identifier encoding loses nothing but the signature. */
  lemma CanonicalInjective(p: PaymentIntent, q: PaymentIntent)
    requires CanonicalBytes(p).Ok? && CanonicalBytes(p) == CanonicalBytes(q)
    ensures Unsigned(p) == Unsigned(q)
  {
    WidthLimits();
    var a, b := Minimal(p.amount), Minimal(q.amount);
    var pn, qn := BigEndian(p.nonce, 8), BigEndian(q.nonce, 8);
    var pe, qe := BigEndian(p.expiryEpoch, 8), BigEndian(q.expiryEpoch, 8);
    var ph, qh := CanonicalHead(p) + BigEndian(|a|, 4), CanonicalHead(q) + BigEndian(|b|, 4);
    assert |CanonicalHead(p)| == |CanonicalHead(q)|;
    PeelLast(ph + a + pn, pe, qh + b + qn, qe);
    PeelLast(ph + a, pn, qh + b, qn);
    SplitEqual(ph, a, qh, b);
    PeelLast(CanonicalHead(p), BigEndian(|a|, 4), CanonicalHead(q), BigEndian(|b|, 4));
    HeadInjective(p, q);
    MinimalInjective(p.amount, q.amount);
    BigEndianInjective(p.nonce, q.nonce, 8);
    BigEndianInjective(p.expiryEpoch, q.expiryEpoch, 8);
  }

  /** Under a collision-free hash, equal identifiers mean equal intents up to the signature. */
  lemma IntentIdInjective(h: Hasher, p: PaymentIntent, q: PaymentIntent, inputs: iset<Bytes>)
    requires IntentId(h, p).Ok? && IntentId(h, p) == IntentId(h, q)
    requires CollisionFree(h, inputs) && CanonicalBytes(p).value in inputs && CanonicalBytes(q).Ok?
    requires CanonicalBytes(q).value in inputs
    ensures Unsigned(p) == Unsigned(q)
  {
    CanonicalInjective(p, q);
  }

  // ---- results ----

  function NewIntentResult(h: Hasher, p: PaymentIntent, matched: int): Result<IntentResult> {
    if p.amount <= 0 then Err(InvalidOriginalAmount)
    else if matched < 0 || matched > p.amount then Err(InvalidMatchedAmount)
    else match IntentId(h, p)
      case Ok(id) => Ok(IntentResult(p, id, matched, p.amount - matched))
      case Err(e) => Err(e)
  }

  lemma NewIntentResultOk(h: Hasher, p: PaymentIntent, id: Hash, matched: int)
    requires IntentId(h, p) == Ok(id) && p.amount > 0 && 0 <= matched <= p.amount
    ensures NewIntentResult(h, p, matched) == Ok(IntentResult(p, id, matched, p.amount - matched))
  {
  }

  function ValidateResult(h: Hasher, r: IntentResult): Result<()> {
    if r.intent.amount <= 0 then Err(InvalidOriginalAmount)
    else if r.matched < 0 || r.matched > r.intent.amount then Err(InvalidMatchedAmount)
    else if r.fallback < 0 || r.fallback > r.intent.amount then Err(InvalidFallbackAmount)
    else match IntentId(h, r.intent)
      case Err(e) => Err(e)
      case Ok(id) =>
        if id != r.intentId then Err(IntentIdMismatch)
        else if r.matched + r.fallback != r.intent.amount then Err(AmountConservation)
        else Ok(())
  }

  /** A result passes Validate exactly when NewIntentResult could have made it. */
  lemma ResultValidIffConstructed(h: Hasher, r: IntentResult)
    ensures ValidateResult(h, r).Ok? <==> NewIntentResult(h, r.intent, r.matched) == Ok(r)
  {
  }
}
