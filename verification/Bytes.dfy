/** Byte strings, the fixed-width and minimal big-endian encodings, and the hash function as a parameter. */
module ByteStrings {

  type Byte = b: int | 0 <= b < 256
  type Bytes = seq<Byte>

  const TWO_32: nat := 0x1_0000_0000
  const TWO_63: int := 0x8000_0000_0000_0000
  const TWO_64: nat := 0x1_0000_0000_0000_0000
  const TWO_160: nat := 0x1_0000000000_0000000000_0000000000_0000000000
  const TWO_256: nat := 0x1_0000000000000000_0000000000000000_0000000000000000_0000000000000000

  type Uint32 = n: nat | n < TWO_32
  type Uint64 = n: nat | n < TWO_64
  type Int64 = n: int | -TWO_63 <= n < TWO_63

  /** A 20-byte account address and a 32-byte digest, as the big-endian numbers they spell. */
  type Address = n: nat | n < TWO_160
  type Hash = n: nat | n < TWO_256

  /** SHA-256 is a parameter of the model: any function from byte strings to digests. */
  type Hasher = Bytes -> Hash

  /** No two of the given inputs collide. */
  ghost predicate CollisionFree(h: Hasher, inputs: iset<Bytes>) {
    forall x, y :: x in inputs && y in inputs && h(x) == h(y) ==> x == y
  }

  ghost function Pow256(w: nat): nat {
    if w == 0 then 1 else 256 * Pow256(w - 1)
  }

  lemma WidthLimits()
    ensures Pow256(4) == TWO_32 && Pow256(8) == TWO_64 && Pow256(20) == TWO_160 && Pow256(32) == TWO_256
  {
    assert Pow256(4) == TWO_32;
    assert Pow256(8) == TWO_64;
    assert Pow256(12) == 0x1_0000_0000_0000_0000_0000_0000;
    assert Pow256(16) == 0x1_0000_0000_0000_0000_0000_0000_0000_0000;
    assert Pow256(20) == TWO_160;
    assert Pow256(24) == 0x1_0000_0000_0000_0000_0000_0000_0000_0000_0000_0000_0000_0000;
    assert Pow256(28) == 0x1_0000_0000_0000_0000_0000_0000_0000_0000_0000_0000_0000_0000_0000_0000;
    assert Pow256(32) == TWO_256;
  }

  /** The low w bytes of n, most significant first (binary.BigEndian.PutUint64 and its relatives). */
  function BigEndian(n: nat, w: nat): (r: Bytes)
    ensures |r| == w
  {
    if w == 0 then [] else BigEndian(n / 256, w - 1) + [n % 256]
  }

  /** The minimal big-endian encoding of big.Int.Bytes. */
  function Minimal(n: nat): (r: Bytes) {
    if n == 0 then [] else Minimal(n / 256) + [n % 256]
  }

  /** uint64(x) for a signed x. */
  function ToUint64(x: Int64): Uint64 {
    if x < 0 then x + TWO_64 else x
  }

  /** []byte(s) for the ASCII domain strings of the protocol. */
  function Ascii(s: string): (r: Bytes)
    ensures |r| == |s|
  {
    seq(|s|, i requires 0 <= i < |s| => s[i] as int % 256)
  }

  lemma LastByte(a: Bytes, b: Bytes, x: Byte, y: Byte)
    requires a + [x] == b + [y]
    ensures a == b && x == y
  {
    assert (a + [x])[|a|] == x;
    assert (b + [y])[|b|] == y;
    assert a == (a + [x])[..|a|];
    assert b == (b + [y])[..|b|];
  }

  lemma {:induction false} BigEndianInjective(m: nat, n: nat, w: nat)
    requires m < Pow256(w) && n < Pow256(w)
    requires BigEndian(m, w) == BigEndian(n, w)
    ensures m == n
  {
    if w > 0 {
      LastByte(BigEndian(m / 256, w - 1), BigEndian(n / 256, w - 1), m % 256, n % 256);
      BigEndianInjective(m / 256, n / 256, w - 1);
    }
  }

  lemma {:induction false} MinimalInjective(m: nat, n: nat)
    requires Minimal(m) == Minimal(n)
    ensures m == n
  {
    if m > 0 && n > 0 {
      LastByte(Minimal(m / 256), Minimal(n / 256), m % 256, n % 256);
      MinimalInjective(m / 256, n / 256);
    }
  }

  /** bytes.Compare(a, b) < 0. */
  predicate LexLess(a: Bytes, b: Bytes) {
    b != [] && (a == [] || a[0] < b[0] || (a[0] == b[0] && LexLess(a[1..], b[1..])))
  }

  lemma {:induction false} LexLessAppend(a: Bytes, b: Bytes, x: Byte, y: Byte)
    requires |a| == |b|
    ensures LexLess(a + [x], b + [y]) <==> LexLess(a, b) || (a == b && x < y)
  {
    if a == [] {
      assert a + [x] == [x] && b + [y] == [y];
    } else {
      LexLessAppend(a[1..], b[1..], x, y);
      assert (a + [x])[1..] == a[1..] + [x];
      assert (b + [y])[1..] == b[1..] + [y];
      assert a == [a[0]] + a[1..] && b == [b[0]] + b[1..];
    }
  }

  /** Ordering fixed-width identifiers by bytes.Compare is ordering them as numbers. */
  lemma {:induction false} LexIsNumeric(m: nat, n: nat, w: nat)
    requires m < Pow256(w) && n < Pow256(w)
    ensures LexLess(BigEndian(m, w), BigEndian(n, w)) <==> m < n
  {
    if w > 0 {
      LexLessAppend(BigEndian(m / 256, w - 1), BigEndian(n / 256, w - 1), m % 256, n % 256);
      LexIsNumeric(m / 256, n / 256, w - 1);
      if BigEndian(m / 256, w - 1) == BigEndian(n / 256, w - 1) {
        BigEndianInjective(m / 256, n / 256, w - 1);
      }
    }
  }

  /** Concatenations whose first parts have equal length agree part by part. */
  lemma SplitEqual(a: Bytes, b: Bytes, c: Bytes, d: Bytes)
    requires |a| == |c| && a + b == c + d
    ensures a == c && b == d
  {
    assert a == (a + b)[..|a|] && c == (c + d)[..|c|];
    assert b == (a + b)[|a|..] && d == (c + d)[|c|..];
  }
}
