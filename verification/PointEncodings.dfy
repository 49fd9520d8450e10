/**
 Decoding a point is complete: on the curve of Ed25519 every point with Z = 1 is what its own encoding decodes
 to, so accepted encodings and points of the curve correspond one to one (section 5.1.3 of RFC 8032).
 */
module PointEncodings {
  import opened Wrappers
  import opened NumberTheory
  import opened QuadraticResidues
  import opened Base58
  import opened Edwards
  import opened EdwardsGroup
  import opened EdwardsMultiples
  import opened Ed25519Curve
  import opened Keys

  // ---- The bytes of an encoding ----

  lemma {:induction false} NumberOfLowBytes(n: nat, k: nat)
    requires n < Pow(256, k)
    ensures LittleEndian(LowBytes(n, k)) == n
  {
    if k > 0 {
      NumberOfLowBytes(n / 256, k - 1);
      assert LowBytes(n, k)[1..] == LowBytes(n / 256, k - 1);
    }
  }

  lemma {:induction false} BelowTopBit(bytes: Bytes, i: nat)
    requires i < |bytes| && i == |bytes| - 1 && bytes[i] < 128
    ensures LittleEndian(bytes) < 128 * Pow(256, i)
  {
    if i == 0 {
      assert bytes[1..] == [];
    } else {
      BelowTopBit(bytes[1..], i - 1);
    }
  }

  lemma Quotients(u: nat, v: nat, s: nat, t: nat, m: nat)
    requires u + s * m == v + t * m && u < m && v < m
    ensures u == v && s == t
  {
    if s < t { MultipleAtLeast(m, t - s); }
    if t < s { MultipleAtLeast(m, s - t); }
    assert (t - s) * m == u - v && (s - t) * m == v - u;
  }

  /** An encoding has the y and the parity of x it was made from. */
  lemma PartsOfEncoded(a: Point)
    requires a.x >= 0 && 0 <= a.y < 128 * Pow(256, 31)
    ensures var bytes := EncodePoint(a); |bytes| == 32 && YPart(bytes) == a.y && SignBit(bytes) == a.x % 2
  {
    hide Pow, LowBytes;
    PowNonneg(256, 31);
    PowOneMore(256, 31);
    var bytes, m := EncodePoint(a), 128 * Pow(256, 31);
    NumberOfLowBytes(a.y + (a.x % 2) * m, 32);
    hide LittleEndian;
    TopBit(bytes, 31);
    BelowTopBit(bytes[31 := bytes[31] % 128], 31);
    Quotients(YPart(bytes), a.y, SignBit(bytes), a.x % 2, m);
  }

  lemma SizeOfP()
    ensures P < 128 * Pow(256, 31)
  {
    assert Pow(256, 3) == 256 * (256 * (256 * Pow(256, 0)));
    PowAdd(256, 3, 3);
    PowAdd(256, 6, 6);
    PowAdd(256, 12, 12);
    PowAdd(256, 24, 6);
    PowAdd(256, 30, 1);
  }

  // ---- The root ----

  /** For a square s^2, the power (p - 1) / 4 of it is 1 or -1. */
  lemma FourthRoot(p: nat, s: int)
    requires Prime(p) && p % 8 == 5 && !Cong(p, s, 0)
    ensures var e := Pow(s * s, (p - 1) / 4); Cong(p, e, 1) || Cong(p, e, -1)
  {
    hide Cong, Prime, Pow;
    var k := (p - 1) / 4;
    PowOfProduct(s, s, k);
    PowAdd(s, k, k);
    PowAdd(s, k + k, k + k);
    Fermat(p, s);
    OneOrMinusOne(p, Pow(s * s, k));
  }

  lemma OneOrMinusOne(p: nat, e: int)
    requires Prime(p) && Cong(p, e * e, 1)
    ensures Cong(p, e, 1) || Cong(p, e, -1)
  {
    hide Cong, Prime;
    CongRefl(p, 1);
    CongAdd(p, e * e, 1, 1, 1);
    assert (e - 1) * (e + 1) == e * e - 1;
    Euclid(p, e - 1, e + 1);
    if Cong(p, e - 1, 0) { CongAdd(p, e - 1, 0, 1, 1); } else { CongAdd(p, e + 1, 0, 1, 1); }
  }

  /** The square of the first candidate is n times that power. */
  lemma FirstCandidate(p: nat, n: int)
    requires p > 0 && p % 8 == 5
    ensures var x := Pow(n, (p + 3) / 8) % p; Cong(p, x * x, n * Pow(n, (p - 1) / 4))
  {
    hide Cong, Pow;
    var k := (p + 3) / 8;
    var x := Pow(n, k) % p;
    CongRem(p, Pow(n, k));
    CongMul(p, x, Pow(n, k), x, Pow(n, k));
    PowAdd(n, k, k);
    PowOneMore(n, (p - 1) / 4);
    assert k + k == (p - 1) / 4 + 1;
  }

  /** The candidate is a root of every square. */
  lemma RootFound(p: nat, n: int, s: int)
    requires Prime(p) && p % 8 == 5 && Cong(p, Pow(2, (p - 1) / 2), -1) && Cong(p, n, s * s)
    ensures p > 2 && Cong(p, RootCandidate(p, n) * RootCandidate(p, n), n)
  {
    assert p > 4;
    hide Cong, Prime, Pow, Mod;
    var k, e := (p - 1) / 4, Pow(n, (p - 1) / 4);
    var x := Pow(n, (p + 3) / 8) % p;
    FirstCandidate(p, n);
    ModZero(p, x * x - n);
    CongRefl(p, n);
    if Mod(p, x * x - n) == 0 {
      CongAdd(p, x * x - n, 0, n, n);
    } else {
      CongPow(p, n, s * s, k);
      SecondCandidate(p, n, s, x, e);
    }
  }

  lemma SecondCandidate(p: nat, n: int, s: int, x: int, e: int)
    requires Prime(p) && p > 2 && p % 8 == 5 && Cong(p, Pow(2, (p - 1) / 2), -1) && Cong(p, n, s * s)
    requires Cong(p, x * x, n * e) && Cong(p, e, Pow(s * s, (p - 1) / 4)) && !Cong(p, x * x - n, 0)
    ensures var root := Mod(p, x * SqrtOfMinusOne(p)); Cong(p, root * root, n)
  {
    hide Cong, Prime, Pow, Mod;
    var i, q := SqrtOfMinusOne(p), Pow(s * s, (p - 1) / 4);
    CongRefl(p, n);
    if Cong(p, s, 0) {
      CongMul(p, s, 0, s, 0);
      CongTrans(p, n, s * s, 0);
      ZeroTimes(p, e, n);
      CongTrans(p, x * x, n * e, 0);
      CongAdd(p, x * x, 0, n, 0);
    } else {
      FourthRoot(p, s);
      if Cong(p, q, 1) {
        CongTrans(p, e, q, 1);
        CongScale(p, n, e, 1);
        CongTrans(p, x * x, n * e, n * 1);
        CongAdd(p, x * x, n, n, n);
      } else {
        CongTrans(p, e, q, -1);
        CongScale(p, n, e, -1);
        CongTrans(p, x * x, n * e, n * -1);
        SqrtSquared(p);
        CongMul(p, x * x, n * -1, i * i, -1);
        Regroup(x, x, i, i);
        assert (n * -1) * -1 == n;
        ModIs(p, x * i);
        var root := Mod(p, x * i);
        CongMul(p, root, x * i, root, x * i);
        CongTrans(p, root * root, (x * i) * (x * i), n);
      }
    }
  }

  lemma SqrtSquared(p: nat)
    requires p > 2 && p % 8 == 5 && Cong(p, Pow(2, (p - 1) / 2), -1)
    ensures Cong(p, SqrtOfMinusOne(p) * SqrtOfMinusOne(p), -1)
  {
    hide Cong, Pow;
    var k := (p - 1) / 4;
    QuarterTwice(p, k);
    SquareOfPower(p, 2, k, -1);
  }

  lemma QuarterTwice(p: nat, k: nat)
    requires p % 8 == 5 && k == (p - 1) / 4
    ensures k + k == (p - 1) / 2
  {
  }

  lemma SquareOfPower(p: nat, a: nat, k: nat, n: int)
    requires p > 0 && Cong(p, Pow(a, k + k), n)
    ensures var i := Pow(a, k) % p; Cong(p, i * i, n)
  {
    hide Cong, Pow;
    var i := Pow(a, k) % p;
    CongRem(p, Pow(a, k));
    CongMul(p, i, Pow(a, k), i, Pow(a, k));
    PowAdd(a, k, k);
    CongTrans(p, i * i, Pow(a, k) * Pow(a, k), n);
  }

  // ---- Decoding is complete ----

  /** On the curve, x^2 is what decoding computes from y. */
  lemma XSquaredIs(c: Curve, a: Point)
    requires Good(c) && OnCurve(c, a) && a.z == 1
    ensures Cong(c.p, XSquared(c, a.y), a.x * a.x)
  {
    XSquaredSolves(c, a.y);
    DenominatorNonzero(c, a.y);
    assert Prime(c.p) && c.p > 2;
    var p, d, xx, yy := c.p, c.d, a.x * a.x, a.y * a.y;
    var den := d * a.y * a.y + 1;
    EquationWithX(p, d, a.x, a.y, a.t);
    hide Cong, Prime, Good, XSquared;
    DenominatorTimes(xx, yy, d, a.y);
    // x^2 (d y^2 + 1) is y^2 - 1
    CongRefl(p, xx);
    CongSym(p, yy - xx, 1 + d * (xx * yy));
    CongAdd(p, 1 + d * (xx * yy), yy - xx, xx, xx);
    CongRefl(p, 1);
    CongAdd(p, 1 + d * (xx * yy) + xx, yy - xx + xx, 1, 1);
    CongSym(p, xx * den, yy - 1);
    CongTrans(p, XSquared(c, a.y) * den, yy - 1, xx * den);
    Cancel(p, XSquared(c, a.y), xx, den);
  }

  lemma EquationWithX(p: nat, d: int, x: int, y: int, t: int)
    requires Cong(p, x * y, 1 * t) && Cong(p, y * y - x * x, 1 * 1 + d * (t * t))
    ensures Cong(p, y * y - x * x, 1 + d * ((x * x) * (y * y)))
  {
    hide Cong;
    CongSym(p, x * y, t);
    CongMul(p, t, x * y, t, x * y);
    SquareOfProduct(x, y);
    CongScale(p, d, t * t, (x * x) * (y * y));
    CongRefl(p, 1);
    CongAdd(p, 1, 1, d * (t * t), d * ((x * x) * (y * y)));
    CongTrans(p, y * y - x * x, 1 + d * (t * t), 1 + d * ((x * x) * (y * y)));
  }

  /** With equal squares, equal or opposite. */
  lemma SameSquares(p: nat, r: int, x: int)
    requires Prime(p) && 0 <= r < p && 0 <= x < p && Cong(p, r * r, x * x)
    ensures r == x || r == p - x
  {
    hide Cong, Prime;
    CongRefl(p, x * x);
    CongAdd(p, r * r, x * x, x * x, x * x);
    assert (r - x) * (r + x) == r * r - x * x;
    Euclid(p, r - x, r + x);
    CongRefl(p, x);
    if Cong(p, r - x, 0) {
      CongAdd(p, r - x, 0, x, x);
      CongReduced(p, r, x);
    } else {
      CongAdd(p, r + x, 0, x, x);
      CongBy(p, -x, p - x, -1);
      CongTrans(p, r, -x, p - x);
      if x > 0 { CongReduced(p, r, p - x); }
    }
  }

  /** The root with the sign asked for is x itself. */
  lemma SignFound(p: nat, root: int, x: int)
    requires p > 2 && p % 2 == 1 && 0 <= root < p && 0 <= x < p && (root == x || root == p - x)
    ensures (if root % 2 != x % 2 then Mod(p, -root) else root) == x
  {
    if root != x {
      OtherRoot(p, root);
    }
  }

  /** Where y is 1 or -1, x is 0: the encoding is canonical. */
  lemma EncodingIsCanonical(c: Curve, a: Point)
    requires Good(c) && OnCurve(c, a) && a.z == 1 && (a.y == 1 || a.y == c.p - 1)
    ensures a.x == 0
  {
    XSquaredIs(c, a);
    XSquaredSolves(c, a.y);
    DenominatorNonzero(c, a.y);
    assert Prime(c.p) && c.p > 2;
    var p, n, den := c.p, XSquared(c, a.y), c.d * a.y * a.y + 1;
    hide Cong, Prime, Good, XSquared;
    OneSquared(p, a.y);
    CongTrans(p, n * den, a.y * a.y - 1, 0);
    Euclid(p, n, den);
    CongSym(p, n, a.x * a.x);
    CongTrans(p, a.x * a.x, n, 0);
    Euclid(p, a.x, a.x);
    CongReduced(p, a.x, 0);
  }

  lemma OneSquared(p: nat, y: int)
    requires y == 1 || y == p - 1
    ensures Cong(p, y * y - 1, 0)
  {
    if y == 1 {
      CongBy(p, y * y - 1, 0, 0);
    } else {
      assert (p - 1) * (p - 1) - 1 == (p - 2) * p;
      CongBy(p, y * y - 1, 0, p - 2);
    }
  }

  /** Every point of the curve with Z = 1 is what its encoding decodes to. */
  lemma DecodingIsComplete(a: Point)
    requires OnCurve(Ed25519(), a) && a.z == 1
    ensures DecodePoint(Ed25519(), EncodePoint(a)) == Some(a)
  {
    var c, bytes := Ed25519(), EncodePoint(a);
    Ed25519IsGood();
    TwoIsNoSquare();
    SizeOfP();
    PartsOfEncoded(a);
    XSquaredIs(c, a);
    assert Prime(c.p) && c.p % 8 == 5;
    var p, n := c.p, XSquared(c, a.y);
    if a.y == 1 || a.y == p - 1 { EncodingIsCanonical(c, a); }
    assert 1 * a.t == a.t;
    hide Cong, Prime, Good, XSquared, RootCandidate, EncodePoint, LittleEndian, Pow, Mod, D;
    RootFound(p, n, a.x);
    RootCandidateBelow(p, n);
    var root := RootCandidate(p, n);
    ModZero(p, root * root - n);
    CongRefl(p, n);
    CongAdd(p, root * root, n, n, n);
    CongTrans(p, root * root, n, a.x * a.x);
    SameSquares(p, root, a.x);
    SignFound(p, root, a.x);
    ModIs(p, a.x * a.y);
    CongTrans(p, Mod(p, a.x * a.y), a.x * a.y, a.t);
    CongReduced(p, Mod(p, a.x * a.y), a.t);
  }

  /** Accepted encodings and points of the curve with Z = 1 correspond one to one. */
  lemma DecodingIsABijection(bytes: Bytes, a: Point)
    ensures DecodePoint(Ed25519(), bytes) == Some(a) <==>
            OnCurve(Ed25519(), a) && a.z == 1 && bytes == EncodePoint(a)
  {
    Ed25519IsGood();
    hide Good, DecodePoint, EncodePoint, D;
    if DecodePoint(Ed25519(), bytes) == Some(a) { DecodingIsSound(Ed25519(), bytes); }
    if OnCurve(Ed25519(), a) && a.z == 1 { DecodingIsComplete(a); }
  }

  /** So a key is of the order L exactly when it encodes a point of the curve that is. */
  lemma KeyIsOfOrderL(bytes: Bytes)
    ensures (DecodePoint(Ed25519(), bytes).Some? && HasOrder(Ed25519(), L, DecodePoint(Ed25519(), bytes).value)) <==>
            exists a :: OnCurve(Ed25519(), a) && a.z == 1 && bytes == EncodePoint(a) && HasOrder(Ed25519(), L, a)
  {
    hide DecodePoint, HasOrder, D;
    var c := Ed25519();
    if DecodePoint(c, bytes).Some? {
      DecodingIsABijection(bytes, DecodePoint(c, bytes).value);
    }
    forall a | OnCurve(c, a) && a.z == 1 && bytes == EncodePoint(a) ensures DecodePoint(c, bytes) == Some(a) {
      DecodingIsABijection(bytes, a);
    }
  }
}
