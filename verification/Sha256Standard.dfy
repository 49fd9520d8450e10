/**
 SHA-256 as FIPS 180-4 defines it, over 32-bit words: the functions of section 4.1.2, the constants of
 sections 4.2.2 and 5.3.3, the padding of section 5.1.1 and the computation of section 6.2.2.
 */
module Sha256Standard {
  import opened NumberTheory

  type Byte = n: nat | n < 256

  const WORDS: nat := 0x1_0000_0000

  type Word = n: nat | n < 0x1_0000_0000

  // ---- Bits ----

  /** Bitwise operations, bit by bit from the low end. */
  function And(x: nat, y: nat): nat {
    if x == 0 && y == 0 then 0 else (x % 2) * (y % 2) + 2 * And(x / 2, y / 2)
  }

  function Or(x: nat, y: nat): nat {
    if x == 0 && y == 0 then 0 else (if x % 2 + y % 2 == 0 then 0 else 1) + 2 * Or(x / 2, y / 2)
  }

  function Xor(x: nat, y: nat): nat {
    if x == 0 && y == 0 then 0 else (x % 2 + y % 2) % 2 + 2 * Xor(x / 2, y / 2)
  }

  lemma {:induction false} BitsBelow(x: nat, y: nat, k: nat)
    requires x < Pow(2, k) && y < Pow(2, k)
    ensures And(x, y) < Pow(2, k) && Or(x, y) < Pow(2, k) && Xor(x, y) < Pow(2, k)
  {
    if k > 0 && !(x == 0 && y == 0) { BitsBelow(x / 2, y / 2, k - 1); }
  }

  lemma WordSize()
    ensures Pow(2, 32) == 0x1_0000_0000
  {
    assert Pow(2, 8) == 256;
    PowAdd(2, 8, 8);
    PowAdd(2, 16, 16);
  }

  lemma {:induction false} PowPositive(n: nat)
    ensures Pow(2, n) > 0
  {
    if n > 0 { PowPositive(n - 1); }
  }

  function AndW(x: Word, y: Word): Word {
    WordSize();
    BitsBelow(x, y, 32);
    And(x, y)
  }

  function OrW(x: Word, y: Word): Word {
    WordSize();
    BitsBelow(x, y, 32);
    Or(x, y)
  }

  function XorW(x: Word, y: Word): Word {
    WordSize();
    BitsBelow(x, y, 32);
    Xor(x, y)
  }

  function NotW(x: Word): Word {
    0xFFFF_FFFF - x
  }

  function Shr(n: nat, x: Word): Word {
    PowPositive(n);
    QuotientBelow(x, Pow(2, n));
    x / Pow(2, n)
  }

  lemma QuotientBelow(x: nat, d: int)
    requires d > 0
    ensures 0 <= x / d <= x
  {
    var q := x / d;
    assert x == q * d + x % d;
    if q < 0 { NegativeMultiple(d, q); }
    else if q > 0 {
      MultipleAtLeast(q, d);
      assert d * q == q * d;
    }
  }

  function Shl(n: nat, x: Word): Word {
    (x * Pow(2, n)) % 0x1_0000_0000
  }

  function AddW(x: Word, y: Word): Word {
    (x + y) % 0x1_0000_0000
  }

  /** Section 3.2: rotation to the right. */
  function Rotr(n: nat, x: Word): Word
    requires n <= 32
  {
    OrW(Shr(n, x), Shl(32 - n, x))
  }

  // ---- What the operations mean ----

  /** Bit i, from the low end. */
  function Bit(x: nat, i: nat): nat {
    if i == 0 then x % 2 else Bit(x / 2, i - 1)
  }

  lemma {:induction false} BitsOfZero(i: nat)
    ensures Bit(0, i) == 0
  {
    if i > 0 { BitsOfZero(i - 1); }
  }

  /** Each bit of the result depends on that bit of the operands alone. */
  lemma {:induction false} BitByBit(x: nat, y: nat, i: nat)
    ensures Bit(And(x, y), i) == Bit(x, i) * Bit(y, i)
    ensures Bit(Or(x, y), i) == if Bit(x, i) + Bit(y, i) == 0 then 0 else 1
    ensures Bit(Xor(x, y), i) == (Bit(x, i) + Bit(y, i)) % 2
    ensures Bit(x, i) <= 1
  {
    if x == 0 && y == 0 { BitsOfZero(i); }
    else if i == 0 {
      LowBits(x % 2, y % 2, And(x / 2, y / 2), Or(x / 2, y / 2), Xor(x / 2, y / 2));
    } else {
      BitByBit(x / 2, y / 2, i - 1);
      LowBits(x % 2, y % 2, And(x / 2, y / 2), Or(x / 2, y / 2), Xor(x / 2, y / 2));
    }
  }

  lemma LowBits(a: nat, b: nat, u: nat, v: nat, w: nat)
    requires a <= 1 && b <= 1
    ensures (a * b + 2 * u) % 2 == a * b && (a * b + 2 * u) / 2 == u
    ensures ((if a + b == 0 then 0 else 1) + 2 * v) / 2 == v &&
            ((if a + b == 0 then 0 else 1) + 2 * v) % 2 == if a + b == 0 then 0 else 1
    ensures ((a + b) % 2 + 2 * w) / 2 == w && ((a + b) % 2 + 2 * w) % 2 == (a + b) % 2
  {
    if a == 0 { assert a * b == 0; } else { assert a * b == b; }
  }

  /** Numbers whose bits do not meet are joined by adding. */
  lemma {:induction false} OrIsSum(m: nat, a: nat, b: nat)
    requires a < Pow(2, m)
    ensures b * Pow(2, m) >= 0 && Or(a, b * Pow(2, m)) == a + b * Pow(2, m)
  {
    PowPositive(m);
    ProductNonneg(b, Pow(2, m));
    if m == 0 {
      OrWithZero(b);
    } else {
      var h := b * Pow(2, m - 1);
      PowPositive(m - 1);
      ProductNonneg(b, Pow(2, m - 1));
      MoveTwo(b, Pow(2, m - 1));
      OrIsSum(m - 1, a / 2, b);
      assert b * Pow(2, m) == 2 * h;
      assert (2 * h) % 2 == 0 && (2 * h) / 2 == h;
    }
  }

  lemma MoveTwo(b: int, q: int)
    ensures b * (2 * q) == 2 * (b * q)
  {
  }

  lemma {:induction false} OrWithZero(b: nat)
    ensures Or(0, b) == b
  {
    if b > 0 { OrWithZero(b / 2); }
  }

  lemma ShiftedOut(x: nat, n: nat, k: nat)
    ensures Pow(2, n) > 0 && Pow(2, k) > 0 && Pow(2, n + k) > 0
    ensures (x * Pow(2, k)) % Pow(2, n + k) == (x % Pow(2, n)) * Pow(2, k)
  {
    PowPositive(n);
    PowPositive(k);
    PowPositive(n + k);
    PowAdd(2, n, k);
    var p, q := Pow(2, n), Pow(2, k);
    var high, low := x / p, x % p;
    assert x == high * p + low;
    assert x * q == high * (p * q) + low * q by { assert (high * p + low) * q == high * (p * q) + low * q; }
    LowTimes(low, p, q);
    CongBy(p * q, x * q, low * q, high);
    CongIffRem(p * q, x * q, low * q);
    CongRem(p * q, low * q);
    CongReduced(p * q, (low * q) % (p * q), low * q);
  }

  lemma LowTimes(low: nat, p: int, q: int)
    requires low < p && q > 0
    ensures 0 <= low * q < p * q
  {
    ProductNonneg(low, q);
    MultipleAtLeast(q, p - low);
    assert (p - low) * q == p * q - low * q;
  }

  /** Rotation moves the low n bits to the top. */
  lemma RotrIsRotation(n: nat, x: Word)
    requires n <= 32
    ensures Pow(2, n) > 0 && Rotr(n, x) == x / Pow(2, n) + (x % Pow(2, n)) * Pow(2, 32 - n)
  {
    PowPositive(n);
    PowPositive(32 - n);
    WordSize();
    ShiftedOut(x, n, 32 - n);
    PowAdd(2, n, 32 - n);
    HighBitsBelow(x, Pow(2, n), Pow(2, 32 - n));
    OrIsSum(32 - n, x / Pow(2, n), x % Pow(2, n));
  }

  lemma HighBitsBelow(x: nat, p: int, q: int)
    requires p > 0 && x < p * q
    ensures 0 <= x / p < q
  {
    QuotientBelow(x, p);
    var h := x / p;
    assert x == h * p + x % p;
    if h >= q { HighTimes(h, p, q); }
  }

  lemma HighTimes(h: int, p: int, q: int)
    requires p > 0 && h >= q
    ensures h * p >= p * q
  {
    ProductNonneg(h - q, p);
    assert (h - q) * p == h * p - p * q;
  }

  // ---- Section 4.1.2 ----

  function Ch(x: Word, y: Word, z: Word): Word { XorW(AndW(x, y), AndW(NotW(x), z)) }
  function Maj(x: Word, y: Word, z: Word): Word { XorW(XorW(AndW(x, y), AndW(x, z)), AndW(y, z)) }
  function BigSigma0(x: Word): Word { XorW(XorW(Rotr(2, x), Rotr(13, x)), Rotr(22, x)) }
  function BigSigma1(x: Word): Word { XorW(XorW(Rotr(6, x), Rotr(11, x)), Rotr(25, x)) }
  function SmallSigma0(x: Word): Word { XorW(XorW(Rotr(7, x), Rotr(18, x)), Shr(3, x)) }
  function SmallSigma1(x: Word): Word { XorW(XorW(Rotr(17, x), Rotr(19, x)), Shr(10, x)) }

  // ---- Constants ----

  const K0: seq<Word> := [0x428a2f98, 0x71374491, 0xb5c0fbcf, 0xe9b5dba5, 0x3956c25b, 0x59f111f1, 0x923f82a4,
      0xab1c5ed5]
  const K1: seq<Word> := [0xd807aa98, 0x12835b01, 0x243185be, 0x550c7dc3, 0x72be5d74, 0x80deb1fe, 0x9bdc06a7,
      0xc19bf174]
  const K2: seq<Word> := [0xe49b69c1, 0xefbe4786, 0x0fc19dc6, 0x240ca1cc, 0x2de92c6f, 0x4a7484aa, 0x5cb0a9dc,
      0x76f988da]
  const K3: seq<Word> := [0x983e5152, 0xa831c66d, 0xb00327c8, 0xbf597fc7, 0xc6e00bf3, 0xd5a79147, 0x06ca6351,
      0x14292967]
  const K4: seq<Word> := [0x27b70a85, 0x2e1b2138, 0x4d2c6dfc, 0x53380d13, 0x650a7354, 0x766a0abb, 0x81c2c92e,
      0x92722c85]
  const K5: seq<Word> := [0xa2bfe8a1, 0xa81a664b, 0xc24b8b70, 0xc76c51a3, 0xd192e819, 0xd6990624, 0xf40e3585,
      0x106aa070]
  const K6: seq<Word> := [0x19a4c116, 0x1e376c08, 0x2748774c, 0x34b0bcb5, 0x391c0cb3, 0x4ed8aa4a, 0x5b9cca4f,
      0x682e6ff3]
  const K7: seq<Word> := [0x748f82ee, 0x78a5636f, 0x84c87814, 0x8cc70208, 0x90befffa, 0xa4506ceb, 0xbef9a3f7,
      0xc67178f2]

  const K: seq<Word> := K0 + K1 + K2 + K3 + K4 + K5 + K6 + K7

  datatype Registers = Registers(a: Word, b: Word, c: Word, d: Word, e: Word, f: Word, g: Word, h: Word)

  const H0 := Registers(0x6a09e667, 0xbb67ae85, 0x3c6ef372, 0xa54ff53a, 0x510e527f, 0x9b05688c, 0x1f83d9ab, 0x5be0cd19)

  // ---- Padding, section 5.1.1 ----

  function Zeros(k: nat): (bytes: seq<Byte>)
    ensures |bytes| == k && forall i :: 0 <= i < k ==> bytes[i] == 0
  {
    seq(k, i => 0)
  }

  /** How many zero bytes: the fewest that leave 8 bytes to a multiple of 64. */
  function ZeroCount(n: nat): nat {
    (119 - n % 64) % 64
  }

  function BigEndian(n: nat, k: nat): (bytes: seq<Byte>)
    ensures |bytes| == k
  {
    if k == 0 then [] else BigEndian(n / 256, k - 1) + [n % 256]
  }

  /** The message, a one bit, zeros, and the length in bits as 64 bits. */
  function Padded(m: seq<Byte>): seq<Byte> {
    m + [0x80] + Zeros(ZeroCount(|m|)) + BigEndian(8 * |m|, 8)
  }

  lemma PaddedLength(m: seq<Byte>)
    ensures |Padded(m)| == |m| + 9 + ZeroCount(|m|) && |Padded(m)| % 64 == 0 && |Padded(m)| > 0
  {
    hide BigEndian, Zeros;
  }

  /** No shorter run of zeros will do. */
  lemma PaddingIsShortest(m: seq<Byte>, j: nat)
    requires (|m| + 9 + j) % 64 == 0
    ensures ZeroCount(|m|) <= j
  {
  }

  lemma {:induction false} BigEndianInjective(m: nat, n: nat, k: nat)
    requires m < Pow(256, k) && n < Pow(256, k) && BigEndian(m, k) == BigEndian(n, k)
    ensures m == n
  {
    if k > 0 {
      var a, b := BigEndian(m, k), BigEndian(n, k);
      assert a[k - 1] == m % 256 && b[k - 1] == n % 256;
      assert a[..k - 1] == BigEndian(m / 256, k - 1) && b[..k - 1] == BigEndian(n / 256, k - 1);
      BigEndianInjective(m / 256, n / 256, k - 1);
    }
  }

  lemma LengthSize()
    ensures Pow(256, 8) == 0x1_0000_0000_0000_0000
  {
    assert Pow(256, 2) == 65536;
    PowAdd(256, 2, 2);
    PowAdd(256, 4, 4);
  }

  /** Messages short enough to be hashed at all do not share a padding. */
  lemma PaddingIsInjective(a: seq<Byte>, b: seq<Byte>)
    requires 8 * |a| < 0x1_0000_0000_0000_0000 && 8 * |b| < 0x1_0000_0000_0000_0000 && Padded(a) == Padded(b)
    ensures a == b
  {
    var p, q := Padded(a), Padded(b);
    assert p[|p| - 8..] == BigEndian(8 * |a|, 8) && q[|q| - 8..] == BigEndian(8 * |b|, 8);
    LengthSize();
    BigEndianInjective(8 * |a|, 8 * |b|, 8);
    assert p[..|a|] == a && q[..|b|] == b;
  }

  // ---- Section 6.2.2 ----

  function WordAt(bytes: seq<Byte>, i: nat): Word
    requires i + 4 <= |bytes|
  {
    var high: int, mid: int, low: int := bytes[i], bytes[i + 1], bytes[i + 2];
    ((high * 256 + mid) * 256 + low) * 256 + bytes[i + 3]
  }

  /** The message schedule of the block that starts at `offset`. */
  function Schedule(bytes: seq<Byte>, offset: nat, t: nat): Word
    requires offset + 64 <= |bytes|
  {
    if t < 16 then WordAt(bytes, offset + 4 * t)
    else
      AddW(AddW(AddW(SmallSigma1(Schedule(bytes, offset, t - 2)), Schedule(bytes, offset, t - 7)),
                SmallSigma0(Schedule(bytes, offset, t - 15))), Schedule(bytes, offset, t - 16))
  }

  function Temp1(r: Registers, k: Word, w: Word): Word {
    AddW(AddW(AddW(AddW(r.h, BigSigma1(r.e)), Ch(r.e, r.f, r.g)), k), w)
  }

  function Temp2(r: Registers): Word {
    AddW(BigSigma0(r.a), Maj(r.a, r.b, r.c))
  }

  function Round(r: Registers, k: Word, w: Word): Registers {
    Registers(AddW(Temp1(r, k, w), Temp2(r)), r.a, r.b, r.c, AddW(r.d, Temp1(r, k, w)), r.e, r.f, r.g)
  }

  function Rounds(r: Registers, bytes: seq<Byte>, offset: nat, t: nat): Registers
    requires offset + 64 <= |bytes| && t <= |K|
  {
    if t == 0 then r else Round(Rounds(r, bytes, offset, t - 1), K[t - 1], Schedule(bytes, offset, t - 1))
  }

  function Plus(r: Registers, s: Registers): Registers {
    Registers(AddW(r.a, s.a), AddW(r.b, s.b), AddW(r.c, s.c), AddW(r.d, s.d),
              AddW(r.e, s.e), AddW(r.f, s.f), AddW(r.g, s.g), AddW(r.h, s.h))
  }

  function Compress(r: Registers, bytes: seq<Byte>, offset: nat): Registers
    requires offset + 64 <= |bytes|
  {
    Plus(r, Rounds(r, bytes, offset, 64))
  }

  /** The hash value after the first n blocks. */
  function HashBlocks(bytes: seq<Byte>, n: nat): Registers
    requires 64 * n <= |bytes|
  {
    if n == 0 then H0 else Compress(HashBlocks(bytes, n - 1), bytes, 64 * (n - 1))
  }

  function Bytes(r: Registers): seq<Byte> {
    BigEndian(r.a, 4) + BigEndian(r.b, 4) + BigEndian(r.c, 4) + BigEndian(r.d, 4) +
    BigEndian(r.e, 4) + BigEndian(r.f, 4) + BigEndian(r.g, 4) + BigEndian(r.h, 4)
  }

  function Sha256(m: seq<Byte>): seq<Byte> {
    Bytes(HashBlocks(Padded(m), |Padded(m)| / 64))
  }
}
