/**
 Ed25519 keys as text and as points: key ids, the checks of point and scalar encodings, point decoding and
 the order a key must have to be registered.
 */
module Keys {
  import opened Wrappers
  import opened NumberTheory
  import opened QuadraticResidues
  import opened Base58
  import opened Edwards
  import opened EdwardsGroup
  import opened EdwardsMultiples
  import opened Ed25519Curve

  type Bytes = seq<Byte>

  // ---- Key ids ----

  const PREFIX := "ed25519:"

  function EncodeTagged(bytes: Bytes, length: nat): Option<string> {
    if |bytes| != length then None else Some(PREFIX + Encoded(bytes))
  }

  function DecodeTagged(text: string, length: nat): Option<Bytes> {
    if !(PREFIX <= text) then None
    else
      var bytes := Decoded(text[|PREFIX|..]);
      if bytes.None? || |bytes.value| != length then None else bytes
  }

  function EncodeKeyId(publicKey: Bytes): Option<string> { EncodeTagged(publicKey, 32) }
  function DecodeKeyId(keyId: string): Option<Bytes> { DecodeTagged(keyId, 32) }
  function EncodeSignature(signature: Bytes): Option<string> { EncodeTagged(signature, 64) }
  function DecodeSignature(text: string): Option<Bytes> { DecodeTagged(text, 64) }

  /** The buffer with the bytes written at the offset, or a failure where they do not fit. */
  function Written(buffer: Bytes, bytes: Bytes, offset: nat): Option<Bytes> {
    if offset + |bytes| > |buffer| then None else Some(buffer[..offset] + bytes + buffer[offset + |bytes|..])
  }

  function Zeros(n: nat): (zeros: Bytes)
    ensures |zeros| == n && forall i :: 0 <= i < n ==> zeros[i] == 0
  {
    seq(n, _ => 0)
  }

  /** Seed and public key in a buffer of 64 zero bytes; neither length is checked. */
  function SecretBytes(seed: Bytes, publicKey: Bytes): Option<Bytes> {
    var both := Written(Zeros(64), seed, 0);
    if both.None? then None else Written(both.value, publicKey, 32)
  }

  function EncodeSecretKey(seed: Bytes, publicKey: Bytes): Option<string> {
    var both := SecretBytes(seed, publicKey);
    if both.None? then None else Some(PREFIX + Encoded(both.value))
  }

  function DecodeSecretKey(text: string): Option<(Bytes, Bytes)> {
    match DecodeTagged(text, 64)
    case None => None
    case Some(bytes) => Some((bytes[..32], bytes[32..]))
  }

  /**
   Text decodes to some bytes exactly when it is what those bytes encode to: every key has one id, every id one
   key.
   */
  lemma TaggedIsABijection(bytes: Bytes, text: string, length: nat)
    ensures DecodeTagged(text, length) == Some(bytes) <==> EncodeTagged(bytes, length) == Some(text)
  {
    var rest := if PREFIX <= text then text[|PREFIX|..] else "";
    if DecodeTagged(text, length) == Some(bytes) {
      EncodeDecoded(rest);
      assert text == PREFIX + rest;
    }
    if EncodeTagged(bytes, length) == Some(text) {
      DecodeEncoded(bytes);
      assert rest == Encoded(bytes);
    }
  }

  lemma KeyIdIsABijection(publicKey: Bytes, keyId: string)
    ensures DecodeKeyId(keyId) == Some(publicKey) <==> EncodeKeyId(publicKey) == Some(keyId)
    ensures EncodeKeyId(publicKey) == Some(keyId) ==> |keyId| <= |PREFIX| + 44
  {
    TaggedIsABijection(publicKey, keyId, 32);
    EncodedLength(publicKey);
  }

  lemma SignatureIsABijection(signature: Bytes, text: string)
    ensures DecodeSignature(text) == Some(signature) <==> EncodeSignature(signature) == Some(text)
    ensures EncodeSignature(signature) == Some(text) ==> |text| <= |PREFIX| + 88
  {
    TaggedIsABijection(signature, text, 64);
    EncodedLength(signature);
  }

  /** The first n bytes, with zeros where there are none. */
  function Filled(bytes: Bytes, n: nat): (filled: Bytes)
    ensures |filled| == n
  {
    seq(n, i requires 0 <= i < n => if i < |bytes| then bytes[i] else 0)
  }

  lemma FilledIsWritten(bytes: Bytes, n: nat)
    requires |bytes| <= n
    ensures Written(Zeros(n), bytes, 0) == Some(Filled(bytes, n))
  {
    hide Zeros;
    assert Zeros(n)[..0] + bytes + Zeros(n)[|bytes|..] == Filled(bytes, n);
  }

  /**
   What is encoded is decoded with zeros where bytes were missing, and with what a seed of more than 32 bytes
   had where the public key was short; so exactly keys of 32 and 32 bytes come back.
   */
  lemma SecretKeyRoundTrip(seed: Bytes, publicKey: Bytes)
    ensures EncodeSecretKey(seed, publicKey).None? <==> |seed| > 64 || |publicKey| > 32
    ensures EncodeSecretKey(seed, publicKey).Some? ==>
              var decoded := DecodeSecretKey(EncodeSecretKey(seed, publicKey).value);
              && decoded == Some((Filled(seed, 64)[..32], publicKey + Filled(seed, 64)[32 + |publicKey|..]))
              && (decoded == Some((seed, publicKey)) <==> |seed| == 32 && |publicKey| == 32)
  {
    if |seed| <= 64 && |publicKey| <= 32 {
      var filled := Filled(seed, 64);
      FilledIsWritten(seed, 64);
      var first, rest := filled[..32], publicKey + filled[32 + |publicKey|..];
      var both := first + rest;
      assert filled[..32] + publicKey + filled[32 + |publicKey|..] == both;
      assert SecretBytes(seed, publicKey) == Some(both);
      DecodedHalves(first, rest);
      if |seed| == 32 { assert first == seed; }
      if |publicKey| == 32 { assert rest == publicKey; }
    }
  }

  lemma DecodedHalves(first: Bytes, rest: Bytes)
    requires |first| == 32 && |rest| == 32
    ensures DecodeSecretKey(PREFIX + Encoded(first + rest)) == Some((first, rest))
  {
    var both := first + rest;
    TaggedIsABijection(both, PREFIX + Encoded(both), 64);
    assert both[..32] == first && both[32..] == rest;
  }

  /** Every text that decodes is what its two parts encode to. */
  lemma DecodedSecretKeyEncodes(text: string)
    ensures DecodeSecretKey(text).Some? ==>
              var key := DecodeSecretKey(text).value; EncodeSecretKey(key.0, key.1) == Some(text)
  {
    if DecodeSecretKey(text).Some? {
      var bytes := DecodeTagged(text, 64).value;
      TaggedIsABijection(bytes, text, 64);
      var first, rest := bytes[..32], bytes[32..];
      var half := first + Zeros(64)[32..];
      assert Zeros(64)[..0] + first + Zeros(64)[32..] == half;
      assert half[..32] == first && half[64..] == [];
      assert first + rest + [] == bytes;
      assert SecretBytes(first, rest) == Some(bytes);
    }
  }

  // ---- Little-endian numbers ----

  function LittleEndian(bytes: Bytes): nat {
    if bytes == [] then 0 else bytes[0] + 256 * LittleEndian(bytes[1..])
  }

  method ReadLittleEndian(bytes: Bytes) returns (n: nat)
    ensures n == LittleEndian(bytes)
  {
    n := 0;
    var i := |bytes|;
    while i > 0
      invariant 0 <= i <= |bytes| && n == LittleEndian(bytes[i..])
    {
      i := i - 1;
      assert bytes[i..][1..] == bytes[i + 1..];
      n := n * 256 + bytes[i];
    }
    assert bytes[0..] == bytes;
  }

  /** The number's low bytes, `k` of them. */
  function LowBytes(n: nat, k: nat): (bytes: Bytes)
    ensures |bytes| == k
  {
    if k == 0 then [] else [n % 256] + LowBytes(n / 256, k - 1)
  }

  lemma {:induction false} LowBytesOfNumber(bytes: Bytes)
    ensures LowBytes(LittleEndian(bytes), |bytes|) == bytes
  {
    if bytes != [] {
      var rest := LittleEndian(bytes[1..]);
      assert (bytes[0] + 256 * rest) % 256 == bytes[0] && (bytes[0] + 256 * rest) / 256 == rest;
      LowBytesOfNumber(bytes[1..]);
    }
  }

  lemma {:induction false} LittleEndianBelow(bytes: Bytes)
    ensures LittleEndian(bytes) < Pow(256, |bytes|)
  {
    if bytes != [] { LittleEndianBelow(bytes[1..]); }
  }

  // ---- Canonical encodings ----

  /** Point encodings: y in the low 255 bits, the parity of x in the top bit. */
  function SignBit(bytes: Bytes): nat
    requires |bytes| == 32
  {
    bytes[31] / 128
  }

  function YPart(bytes: Bytes): nat
    requires |bytes| == 32
  {
    LittleEndian(bytes[31 := bytes[31] % 128])
  }

  predicate Canonical(p: nat, bytes: Bytes)
    requires |bytes| == 32
  {
    YPart(bytes) < p && !(SignBit(bytes) == 1 && (YPart(bytes) == 1 || YPart(bytes) == p - 1))
  }

  method CanonicalPoint(p: nat, bytes: Bytes) returns (canonical: bool)
    requires |bytes| == 32
    ensures canonical <==> Canonical(p, bytes)
  {
    var encoded := bytes;
    var sign := encoded[31] / 128;
    encoded := encoded[31 := encoded[31] % 128];
    var y := ReadLittleEndian(encoded);
    canonical := y < p && !(sign == 1 && (y == 1 || y == p - 1));
  }

  /** The whole encoding is y and, in its top bit, the sign. */
  lemma {:induction false} TopBit(bytes: Bytes, i: nat)
    requires i < |bytes| && i == |bytes| - 1
    ensures LittleEndian(bytes) == LittleEndian(bytes[i := bytes[i] % 128]) + (bytes[i] / 128) * (128 * Pow(256, i))
  {
    var cleared := bytes[i := bytes[i] % 128];
    if i == 0 {
      assert bytes[1..] == [] && cleared[1..] == [];
    } else {
      TopBit(bytes[1..], i - 1);
      assert cleared[1..] == bytes[1..][i - 1 := bytes[i] % 128];
      CarryUp(bytes[i] / 128, Pow(256, i - 1));
    }
  }

  lemma CarryUp(s: nat, m: int)
    ensures 256 * (s * (128 * m)) == s * (128 * (256 * m))
  {
  }

  /** The encoding of a point: y, and the parity of x on top. */
  function EncodePoint(a: Point): Bytes
    requires a.x >= 0 && a.y >= 0
  {
    PowNonneg(256, 31);
    LowBytes(a.y + (a.x % 2) * (128 * Pow(256, 31)), 32)
  }

  lemma EncodedFromParts(bytes: Bytes, a: Point)
    requires |bytes| == 32 && a.x >= 0 && a.y == YPart(bytes) && a.x % 2 == SignBit(bytes)
    ensures EncodePoint(a) == bytes
  {
    hide LittleEndian, Pow, LowBytes;
    TopBit(bytes, 31);
    LowBytesOfNumber(bytes);
  }

  // ---- Square and multiply ----

  lemma SquareUnderMod(p: nat, b: int, k: nat)
    requires p > 0
    ensures Cong(p, Pow(b, 2 * k), Pow((b * b) % p, k))
  {
    hide Cong;
    PowOfPow(b, 2, k);
    assert Pow(b, 1) == b * Pow(b, 0) == b && Pow(b, 2) == b * Pow(b, 1);
    CongRem(p, b * b);
    CongPow(p, b * b, (b * b) % p, k);
  }

  lemma ModPowStep(p: nat, result: int, b: int, s: nat, goal: int)
    requires p > 0 && s > 0 && Cong(p, result * Pow(b, s), goal)
    ensures var next := if s % 2 == 1 then (result * b) % p else result;
            Cong(p, next * Pow((b * b) % p, s / 2), goal)
  {
    hide Cong, Pow;
    var k := s / 2;
    SquareUnderMod(p, b, k);
    CongSym(p, Pow(b, 2 * k), Pow((b * b) % p, k));
    if s % 2 == 1 {
      PowOneMore(b, 2 * k);
      CongRem(p, result * b);
      CongMul(p, (result * b) % p, result * b, Pow((b * b) % p, k), Pow(b, 2 * k));
      Associate(result, b, Pow(b, 2 * k));
      CongTrans(p, (result * b) % p * Pow((b * b) % p, k), result * b * Pow(b, 2 * k), goal);
    } else {
      CongScale(p, result, Pow((b * b) % p, k), Pow(b, 2 * k));
      CongTrans(p, result * Pow((b * b) % p, k), result * Pow(b, 2 * k), goal);
    }
  }

  /** Square and multiply computes the power, modulo p. */
  method ModPow(p: nat, base: nat, exp: nat) returns (result: nat)
    requires p > 1
    ensures result == Pow(base, exp) % p
  {
    hide Cong, Pow;
    ghost var goal := Pow(base, exp);
    var b, s := base % p, exp;
    result := 1;
    CongRem(p, base);
    CongPow(p, base % p, base, exp);
    while s > 0
      invariant 0 <= result < p && 0 <= b < p
      invariant Cong(p, result * Pow(b, s), goal)
    {
      ModPowStep(p, result, b, s, goal);
      ProductNonneg(result, b);
      ProductNonneg(b, b);
      if s % 2 == 1 { result := (result * b) % p; }
      s, b := s / 2, (b * b) % p;
    }
    PowNothing(b);
    CongIffRem(p, result, goal);
    CongRem(p, result);
    CongReduced(p, result % p, result);
  }

  // ---- Point decoding ----

  /** x^2, from y: (y^2 - 1) / (d y^2 + 1), dividing by raising to the power p - 2. */
  function XSquared(c: Curve, y: int): int
    requires c.p > 2
  {
    Mod(c.p, Mod(c.p, y * y - 1) * (Pow(Mod(c.p, c.d * y * y + 1), c.p - 2) % c.p))
  }

  function SqrtOfMinusOne(p: nat): int
    requires p > 2
  {
    Pow(2, (p - 1) / 4) % p
  }

  /** The candidate root and, if it is none, that times the root of -1. */
  function RootCandidate(p: nat, x2: int): int
    requires p > 2
  {
    var x := Pow(x2, (p + 3) / 8) % p;
    if Mod(p, x * x - x2) != 0 then Mod(p, x * SqrtOfMinusOne(p)) else x
  }

  function DecodePoint(c: Curve, bytes: Bytes): Option<Point>
    requires c.p > 2
  {
    if |bytes| != 32 || !Canonical(c.p, bytes) then None
    else
      var y := YPart(bytes);
      var x2 := XSquared(c, y);
      var root := RootCandidate(c.p, x2);
      if Mod(c.p, root * root - x2) != 0 then None
      else
        var x := if root % 2 != SignBit(bytes) then Mod(c.p, -root) else root;
        Some(Point(x, y, 1, Mod(c.p, x * y)))
  }

  method DecodePointStep(c: Curve, bytes: Bytes) returns (r: Option<Point>)
    requires c.p > 2
    ensures r == DecodePoint(c, bytes)
  {
    hide Pow, LittleEndian, Mod;
    if |bytes| != 32 { return None; }
    var canonical := CanonicalPoint(c.p, bytes);
    if !canonical { return None; }
    var encoded, sign := bytes, bytes[31] / 128;
    encoded := encoded[31 := encoded[31] % 128];
    var y := ReadLittleEndian(encoded);
    var yy: int := y * y;
    var u, v := Mod(c.p, yy - 1), Mod(c.p, c.d * y * y + 1);
    ModIs(c.p, yy - 1);
    ModIs(c.p, c.d * y * y + 1);
    var inverse := ModPow(c.p, v, c.p - 2);
    var x2 := Mod(c.p, u * inverse);
    ModIs(c.p, u * inverse);
    var x: int := ModPow(c.p, x2, (c.p + 3) / 8);
    if Mod(c.p, x * x - x2) != 0 {
      var root := ModPow(c.p, 2, (c.p - 1) / 4);
      ModIs(c.p, x * root);
      x := Mod(c.p, x * root);
    }
    if Mod(c.p, x * x - x2) != 0 { return None; }
    if x % 2 != sign { x := Mod(c.p, -x); }
    r := Some(Point(x, y, 1, Mod(c.p, x * y)));
  }

  lemma ModZero(p: nat, n: int)
    requires p > 0
    ensures Mod(p, n) == 0 <==> Cong(p, n, 0)
  {
    hide Cong;
    ModIs(p, n);
    if Cong(p, n, 0) {
      CongTrans(p, Mod(p, n), n, 0);
      CongReduced(p, Mod(p, n), 0);
    }
    if Mod(p, n) == 0 { CongSym(p, 0, n); }
  }

  /** d y^2 + 1 is never zero: -1 is a square and d is not. */
  lemma DenominatorNonzero(c: Curve, y: int)
    requires Good(c)
    ensures !Cong(c.p, c.d * y * y + 1, 0)
  {
    OddPrime(c);
    RootSquared(c);
    assert Prime(c.p) && c.p % 2 == 1 && c.p > 1;
    var p, d, i := c.p, c.d, RootOfMinusOne(c);
    hide Cong, Prime, Good, RootOfMinusOne;
    assert c.d * y * y == d * (y * y);
    if Cong(p, d * (y * y) + 1, 0) {
      CongRefl(p, 1);
      CongAdd(p, d * (y * y) + 1, 0, 1, 1);
      CongSym(p, i * i, -1);
      CongTrans(p, d * (y * y), -1, i * i);
      assert Cong(p, Pow(d, (p - 1) / 2), -1) by { EulerOf(c); }
      NoSquareTimesSquare(p, d, y, i);
      ZeroTimes(p, y, y);
      ZeroTimes(p, d, y * y);
      CongSym(p, d * (y * y), 0);
      CongTrans(p, 0, d * (y * y), -1);
      ZeroIsNotMinusOne(p);
    }
  }

  /** x^2 times the denominator is the numerator. */
  lemma XSquaredSolves(c: Curve, y: int)
    requires Good(c)
    ensures c.p > 2 && Cong(c.p, XSquared(c, y) * (c.d * y * y + 1), y * y - 1)
  {
    DenominatorNonzero(c, y);
    assert Prime(c.p) && c.p > 2;
    var p, num, den := c.p, y * y - 1, c.d * y * y + 1;
    var u, v := Mod(p, num), Mod(p, den);
    ModIs(p, num);
    ModIs(p, den);
    var w := Pow(v, p - 2) % p;
    hide Cong, Prime, Good, Mod, Pow;
    ModIs(p, u * w);
    CongRem(p, Pow(v, p - 2));
    if Cong(p, v, 0) { CongTrans(p, den, v, 0); }
    InverseIsPower(p, v);
    QuotientSolves(p, XSquared(c, y), u, w, num, den, v, Pow(v, p - 2));
  }

  lemma QuotientSolves(p: nat, x2: int, u: int, w: int, num: int, den: int, v: int, power: int)
    requires Cong(p, x2, u * w) && Cong(p, u, num) && Cong(p, w, power) && Cong(p, v * power, 1) && Cong(p, den, v)
    ensures Cong(p, x2 * den, num)
  {
    hide Cong;
    CongMul(p, u, num, w, power);
    CongTrans(p, x2, u * w, num * power);
    CongMul(p, x2, num * power, den, v);
    assert num * power * v == num * (v * power);
    CongScale(p, num, v * power, 1);
    CongTrans(p, x2 * den, num * (v * power), num * 1);
  }

  /** A root of x^2 on the curve: the equation of section 5.1.4 of RFC 8032, with Z = 1. */
  lemma RootIsOnCurve(p: nat, d: int, x: int, y: int, t: int, x2: int)
    requires Cong(p, x * x, x2) && Cong(p, x2 * (d * y * y + 1), y * y - 1) && Cong(p, t, x * y)
    ensures Cong(p, y * y - x * x, 1 * 1 + d * (t * t))
  {
    hide Cong;
    var den := d * y * y + 1;
    CongRefl(p, den);
    CongMul(p, x * x, x2, den, den);
    CongTrans(p, x * x * den, x2 * den, y * y - 1);
    CongMul(p, t, x * y, t, x * y);
    SquareOfProduct(x, y);
    CongScale(p, d, t * t, (x * x) * (y * y));
    CongRefl(p, 1);
    CongAdd(p, 1, 1, d * (t * t), d * ((x * x) * (y * y)));
    CongSym(p, 1 + d * (t * t), 1 + d * ((x * x) * (y * y)));
    CongSym(p, x * x * den, y * y - 1);
    CongRefl(p, x * x);
    CongAdd(p, y * y - 1, x * x * den, x * x, x * x);
    CongAdd(p, 1, 1, y * y - 1 - x * x, x * x * den - x * x);
    DenominatorTimes(x * x, y * y, d, y);
    CongTrans(p, y * y - x * x, 1 + d * ((x * x) * (y * y)), 1 + d * (t * t));
  }

  lemma DenominatorTimes(xx: int, yy: int, d: int, y: int)
    requires yy == y * y
    ensures xx * (d * y * y + 1) - xx == d * (xx * yy)
  {
    assert d * y * y == d * yy;
    assert xx * (d * yy + 1) == xx * (d * yy) + xx;
    MoveOut(xx, d, yy);
  }

  /** Choosing the other root where the parity differs gives the sign bit, as zero never needs it. */
  lemma SignChosen(c: Curve, bytes: Bytes, root: int)
    requires Good(c) && |bytes| == 32 && Canonical(c.p, bytes) && 0 <= root < c.p
    requires c.p > 2 && Cong(c.p, root * root, XSquared(c, YPart(bytes)))
    ensures var x := if root % 2 != SignBit(bytes) then Mod(c.p, -root) else root;
            0 <= x < c.p && x % 2 == SignBit(bytes) && Cong(c.p, x * x, root * root)
  {
    assert Prime(c.p) && c.p % 2 == 1 && c.p > 2;
    hide Cong, Prime, Good, XSquared, LittleEndian;
    CongRefl(c.p, root * root);
    if root % 2 != SignBit(bytes) {
      if root == 0 {
        ZeroRoot(c, YPart(bytes));
      } else {
        OtherRoot(c.p, root);
      }
    }
  }

  lemma OtherRoot(p: nat, root: int)
    requires p > 2 && p % 2 == 1 && 0 < root < p
    ensures Mod(p, -root) == p - root && (p - root) % 2 != root % 2
    ensures Cong(p, (p - root) * (p - root), root * root)
  {
    hide Mod;
    ModIs(p, -root);
    CongBy(p, -root, p - root, -1);
    CongTrans(p, Mod(p, -root), -root, p - root);
    CongReduced(p, Mod(p, -root), p - root);
    Opposite(p, root);
  }

  lemma Opposite(p: nat, root: int)
    ensures Cong(p, (p - root) * (p - root), root * root)
  {
    assert (p - root) * (p - root) - root * root == (p - 2 * root) * p;
    CongBy(p, (p - root) * (p - root), root * root, p - 2 * root);
  }

  /** x = 0 only for y = 1 and y = p - 1. */
  lemma ZeroRoot(c: Curve, y: int)
    requires Good(c) && 0 <= y < c.p && c.p > 2 && Cong(c.p, 0 * 0, XSquared(c, y))
    ensures y == 1 || y == c.p - 1
  {
    XSquaredSolves(c, y);
    assert Prime(c.p) && c.p > 2;
    var p, den := c.p, c.d * y * y + 1;
    hide Cong, Prime, Good, XSquared;
    CongSym(p, 0, XSquared(c, y));
    ZeroTimes(p, den, XSquared(c, y));
    CongSym(p, XSquared(c, y) * den, y * y - 1);
    CongTrans(p, y * y - 1, XSquared(c, y) * den, 0);
    assert (y - 1) * (y + 1) == y * y - 1;
    Euclid(p, y - 1, y + 1);
    CongRefl(p, 1);
    if Cong(p, y - 1, 0) {
      CongAdd(p, y - 1, 0, 1, 1);
      CongReduced(p, y, 1);
    } else {
      CongAdd(p, y + 1, 0, 1, 1);
      CongBy(p, -1, p - 1, -1);
      CongTrans(p, y, -1, p - 1);
      CongReduced(p, y, p - 1);
    }
  }

  lemma RootCandidateBelow(p: nat, x2: int)
    requires p > 2
    ensures 0 <= RootCandidate(p, x2) < p
  {
    hide Pow;
    var x := Pow(x2, (p + 3) / 8) % p;
    ModIs(p, x * SqrtOfMinusOne(p));
  }

  /** Whatever decodes is a point of the curve with the parity asked for, and encodes to the same bytes. */
  lemma DecodingIsSound(c: Curve, bytes: Bytes)
    requires Good(c) && c.p > 2 && DecodePoint(c, bytes).Some?
    ensures var a := DecodePoint(c, bytes).value;
            && OnCurve(c, a) && a.z == 1
            && |bytes| == 32 && a.y == YPart(bytes) && a.x % 2 == SignBit(bytes)
            && EncodePoint(a) == bytes
  {
    hide Cong, Prime, Good, XSquared, RootCandidate, LittleEndian, Pow, LowBytes;
    var p, y := c.p, YPart(bytes);
    var x2 := XSquared(c, y);
    var root := RootCandidate(p, x2);
    var a := DecodePoint(c, bytes).value;
    RootCandidateBelow(p, x2);
    ModZero(p, root * root - x2);
    CongRefl(p, x2);
    CongAdd(p, root * root - x2, 0, x2, x2);
    SignChosen(c, bytes, root);
    CongTrans(p, a.x * a.x, root * root, x2);
    XSquaredSolves(c, y);
    ModIs(p, a.x * a.y);
    RootIsOnCurve(p, c.d, a.x, a.y, a.t, x2);
    OneIsNotZero(p);
    EncodedFromParts(bytes, a);
  }

  lemma OneIsNotZero(p: nat)
    requires p > 1
    ensures !Cong(p, 1, 0)
  {
    if Cong(p, 1, 0) { CongReduced(p, 1, 0); }
  }

  /** No two accepted encodings give the same point. */
  lemma DecodingIsUnique(c: Curve, a: Bytes, b: Bytes)
    requires Good(c) && c.p > 2 && DecodePoint(c, a).Some? && DecodePoint(c, a) == DecodePoint(c, b)
    ensures a == b
  {
    hide DecodePoint, EncodePoint, OnCurve, Good;
    DecodingIsSound(c, a);
    DecodingIsSound(c, b);
  }

  // ---- Verification pre-checks ----

  /** What a signature must satisfy before it is verified at all. */
  predicate PreChecks(publicKey: Bytes, signature: Bytes) {
    && |publicKey| == 32 && |signature| == 64
    && Canonical(P, publicKey) && Canonical(P, signature[..32])
    && LittleEndian(signature[32..]) < L
  }

  /** Of all signatures with the same R and with S of one class modulo L, at most one passes. */
  lemma SIsUnique(publicKey: Bytes, a: Bytes, b: Bytes)
    requires PreChecks(publicKey, a) && PreChecks(publicKey, b) && a[..32] == b[..32]
    requires Cong(L, LittleEndian(a[32..]), LittleEndian(b[32..]))
    ensures a == b
  {
    hide LittleEndian, Canonical;
    CongReduced(L, LittleEndian(a[32..]), LittleEndian(b[32..]));
    LowBytesOfNumber(a[32..]);
    LowBytesOfNumber(b[32..]);
    assert a == a[..32] + a[32..] && b == b[..32] + b[32..];
  }

  // ---- The order of a key ----

  datatype KeyClass = Invalid | Small | Mixed | PrimeOrder

  method KeyOrder(publicKey: Bytes) returns (class_: KeyClass)
    ensures class_.Invalid? <==> DecodePoint(Ed25519(), publicKey).None?
    ensures !class_.Invalid? ==>
              var a := DecodePoint(Ed25519(), publicKey).value;
              && (class_.Small? <==> Kills(Ed25519(), 8, a))
              && (class_.PrimeOrder? <==> HasOrder(Ed25519(), L, a))
  {
    hide DecodePoint, Good, Kills, HasOrder, OnCurve, Prime, D;
    Ed25519IsGood();
    BothPrime();
    var c := Ed25519();
    var point := DecodePointStep(c, publicKey);
    if point.None? { return Invalid; }
    var a := point.value;
    var eight := Multiply(c, a, 8);
    KilledIffIdentity(c, publicKey, a, 8, eight);
    if IsIdentity(eight) {
      EightIsNotPrimeOrder(c, a);
      return Small;
    }
    var all := Multiply(c, a, L);
    KilledIffIdentity(c, publicKey, a, L, all);
    OrderIff(c, publicKey, a);
    class_ := if IsIdentity(all) then PrimeOrder else Mixed;
  }

  lemma KilledIffIdentity(c: Curve, bytes: Bytes, a: Point, n: nat, r: Point)
    requires Good(c) && c.p > 2 && DecodePoint(c, bytes) == Some(a)
    requires OnCurve(c, a) ==> OnCurve(c, r) && Same(c, r, Times(c, n, a))
    ensures OnCurve(c, a) && (IsIdentity(r) <==> Kills(c, n, a))
  {
    hide DecodePoint, OnCurve, Same, Times, IsIdentity;
    DecodingIsSound(c, bytes);
    IsIdentityIff(c, r);
    TimesOnCurve(c, n, a);
    if Same(c, r, Identity()) {
      SameSym(c, r, Times(c, n, a));
      Chain(c, Times(c, n, a), r, Identity());
    }
    if Kills(c, n, a) { Chain(c, r, Times(c, n, a), Identity()); }
  }

  lemma EightIsNotPrimeOrder(c: Curve, a: Point)
    requires c.p > 0 && Kills(c, 8, a)
    ensures !HasOrder(c, L, a)
  {
    hide Kills;
    assert 8 % L != 0;
  }

  lemma OrderIff(c: Curve, bytes: Bytes, a: Point)
    requires Good(c) && c.p > 2 && Prime(L) && DecodePoint(c, bytes) == Some(a) && OnCurve(c, a) && !Kills(c, 8, a)
    ensures HasOrder(c, L, a) <==> Kills(c, L, a)
  {
    hide DecodePoint, Kills, OnCurve, Good;
    if Kills(c, L, a) { OrderIs(c, L, a); }
    assert L % L == 0;
  }
}
