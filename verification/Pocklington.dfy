/**
 A test for primes, after Pocklington: if a^(n - 1) is 1 modulo n and a^((n - 1) / q) - 1 has an inverse, for a
 prime q, then q divides p - 1 for every prime divisor p of n. Where such q multiply to at least the square
 root of n, there is no room for a divisor.
 */
module Pocklington {
  import opened NumberTheory
  import opened SmallPrimes

  /** F divides p - 1 for every prime divisor p of n. */
  ghost predicate DividesAll(n: nat, f: nat)
    requires f > 0
  {
    forall p: nat :: Prime(p) && n % p == 0 ==> (p - 1) % f == 0
  }

  // ---- The order of a power ----

  lemma CongDown(n: nat, p: nat, a: int, b: int)
    requires p > 0 && n % p == 0 && Cong(n, a, b)
    ensures Cong(p, a, b)
  {
    var k: int :| a - b == k * n;
    assert n == (n / p) * p;
    assert k * ((n / p) * p) == (k * (n / p)) * p;
    CongBy(p, a, b, k * (n / p));
  }

  /** What is 1 to the power q and to the power p - 1, which q does not divide, is 1. */
  lemma OrderOne(p: nat, q: nat, b: int)
    requires Prime(p) && Prime(q) && (p - 1) % q != 0 && Cong(p, Pow(b, q), 1) && !Cong(p, b, 0)
    ensures Cong(p, b, 1)
  {
    assert p > 1 && q > 1;
    hide Cong, Prime, Pow;
    Fermat(p, b);
    CongIffRem(q, p - 1, 0);
    var u := Inverse(q, p - 1);
    var k := MultipleOf(q, (p - 1) * u - 1);
    ProductNonneg(p - 1, u);
    QuotientNonneg(q, (p - 1) * u, k);
    PowIsOne(p, b, p - 1, u);
    PowIsOne(p, b, q, k);
    assert q * k == k * q;
    PowAdd(b, 1, q * k);
    FirstPower(b);
    CongScale(p, b, Pow(b, q * k), 1);
    CongSym(p, b * Pow(b, q * k), b * 1);
    CongTrans(p, b, Pow(b, (p - 1) * u), 1);
  }

  lemma MultipleOf(q: nat, m: int) returns (k: int)
    requires Cong(q, m + 1, 1)
    ensures m == k * q
  {
    k :| m + 1 - 1 == k * q;
  }

  lemma PowIsOne(p: nat, b: int, m: nat, k: nat)
    requires Cong(p, Pow(b, m), 1)
    ensures m * k >= 0 && Cong(p, Pow(b, m * k), 1)
  {
    hide Cong, Pow;
    PowOfPow(b, m, k);
    CongPow(p, Pow(b, m), 1, k);
    PowOfOne(k);
  }

  // ---- The test ----

  /** a^e is x modulo n. */
  ghost predicate Reaches(n: nat, a: int, e: nat, x: int) {
    Cong(n, Pow(a, e), x)
  }

  lemma Divides(n: nat, a: int, q: nat, r: nat, x: int, inverse: int)
    requires Prime(q) && n > 1 && n - 1 == q * r
    requires Reaches(n, a, n - 1, 1) && Reaches(n, a, r, x) && ((x - 1) * inverse) % n == 1
    ensures DividesAll(n, q)
  {
    var b := Pow(a, r);
    PowOfPow(a, r, q);
    assert r * q == q * r;
    forall p: nat | Prime(p) && n % p == 0 ensures (p - 1) % q == 0 {
      assert p > 1 && q > 1;
      hide Cong, Prime, Pow;
      CongDown(n, p, Pow(b, q), 1);
      NotZeroBelow(p, q, b);
      NotOneBelow(n, p, b, x, inverse);
      if (p - 1) % q != 0 { OrderOne(p, q, b); }
    }
  }

  lemma NotZeroBelow(p: nat, q: nat, b: int)
    requires p > 1 && q > 0 && Cong(p, Pow(b, q), 1)
    ensures !Cong(p, b, 0)
  {
    hide Cong, Pow;
    if Cong(p, b, 0) {
      CongPow(p, b, 0, q);
      PowOfZero(q);
      CongSym(p, Pow(b, q), 1);
      CongTrans(p, 1, Pow(b, q), 0);
      CongReduced(p, 1, 0);
    }
  }

  lemma NotOneBelow(n: nat, p: nat, b: int, x: int, inverse: int)
    requires n > 1 && p > 1 && n % p == 0 && Cong(n, b, x) && ((x - 1) * inverse) % n == 1
    ensures !Cong(p, b, 1)
  {
    hide Cong;
    CongDown(n, p, b, x);
    SmallRem(n);
    CongIffRem(n, (x - 1) * inverse, 1);
    CongDown(n, p, (x - 1) * inverse, 1);
    if Cong(p, b, 1) {
      CongSym(p, b, x);
      CongTrans(p, x, b, 1);
      CongRefl(p, 1);
      CongAdd(p, x, 1, 1, 1);
      CongScale(p, inverse, x - 1, 0);
      assert inverse * (x - 1) == (x - 1) * inverse;
      CongSym(p, (x - 1) * inverse, 1);
      CongTrans(p, 1, (x - 1) * inverse, 0);
      CongReduced(p, 1, 0);
    }
  }

  lemma SmallRem(n: nat)
    requires n > 1
    ensures 1 % n == 1
  {
    CongRem(n, 1);
    CongReduced(n, 1 % n, 1);
  }

  lemma PowOfZero(q: nat)
    requires q > 0
    ensures Pow(0, q) == 0
  {
  }

  lemma DividesBoth(n: nat, f: nat, q: nat)
    requires f > 0 && Prime(q) && f % q != 0 && DividesAll(n, f) && DividesAll(n, q)
    ensures f * q > 0 && DividesAll(n, f * q)
  {
    assert f * q > 0;
    forall p: nat | Prime(p) && n % p == 0 ensures (p - 1) % (f * q) == 0 {
      assert p > 1;
      CoprimeDivide(f, q, p - 1);
    }
  }

  lemma CoprimeDivide(f: nat, q: nat, m: nat)
    requires f > 0 && Prime(q) && f % q != 0 && m % f == 0 && m % q == 0
    ensures f * q > 0 && m % (f * q) == 0
  {
    assert q > 1 && f * q > 0;
    hide Prime, Cong;
    var l := m / f;
    assert m == l * f;
    CongIffRem(q, l * f, 0);
    CongIffRem(q, f, 0);
    Euclid(q, l, f);
    CongIffRem(q, l, 0);
    IsMultiple(l, f, q);
  }

  lemma IsMultiple(l: nat, f: nat, q: nat)
    requires q > 0 && l % q == 0 && f * q > 0
    ensures (l * f) % (f * q) == 0
  {
    var k := l / q;
    assert l == k * q;
    assert (k * q) * f == k * (f * q);
    CongBy(f * q, l * f, 0, k);
    CongIffRem(f * q, l * f, 0);
  }

  lemma NoRoom(n: nat, f: nat)
    requires n > 1 && f > 0 && DividesAll(n, f) && (f + 1) * (f + 1) > n
    ensures Prime(n)
  {
    var p := LeastDivisor(n, 2);
    LeastIsPrime(n, p);
    if p < n {
      LeastIsSmall(n, p);
      var k := (p - 1) / f;
      assert p - 1 == k * f;
      TooLarge(p, f, k, n);
    }
  }

  lemma TooLarge(p: nat, f: nat, k: nat, n: nat)
    requires p > 1 && p - 1 == k * f && p * p <= n
    ensures (f + 1) * (f + 1) <= n
  {
    MultipleAtLeast(f, k);
    assert p >= f + 1;
    assert p * p >= (f + 1) * (f + 1);
  }

  // ---- Powers by square and multiply ----

  lemma OneBit(n: nat, a: int, e: nat, x: int, b: nat, y: int)
    requires Reaches(n, a, e, x) && b < 2 && y == if b == 1 then x * x * a else x * x
    ensures Reaches(n, a, 2 * e + b, y)
  {
    hide Cong, Pow;
    CongMul(n, Pow(a, e), x, Pow(a, e), x);
    PowAdd(a, e, e);
    if b == 1 {
      PowAdd(a, 2 * e, 1);
      FirstPower(a);
      CongRefl(n, a);
      CongMul(n, Pow(a, 2 * e), x * x, a, a);
    }
  }

  // Two more bits of the exponent of 2, high end first, for each of the four.

  lemma Up0(n: nat, e: nat, x: int, y: int) returns (f: nat, z: int)
    requires n > 0 && Reaches(n, 2, e, x) && ((x * x) * (x * x) * 1) % n == y
    ensures f == 4 * e + 0 && z == y && Reaches(n, 2, f, z)
  {
    f, z := TwoBits(n, e, x, 0, 0, (x * x) * (x * x) * 1, y);
  }

  lemma Up1(n: nat, e: nat, x: int, y: int) returns (f: nat, z: int)
    requires n > 0 && Reaches(n, 2, e, x) && ((x * x) * (x * x) * 2) % n == y
    ensures f == 4 * e + 1 && z == y && Reaches(n, 2, f, z)
  {
    f, z := TwoBits(n, e, x, 0, 1, (x * x) * (x * x) * 2, y);
  }

  lemma Up2(n: nat, e: nat, x: int, y: int) returns (f: nat, z: int)
    requires n > 0 && Reaches(n, 2, e, x) && ((x * x) * (x * x) * 4) % n == y
    ensures f == 4 * e + 2 && z == y && Reaches(n, 2, f, z)
  {
    f, z := TwoBits(n, e, x, 1, 0, (x * x) * (x * x) * 4, y);
  }

  lemma Up3(n: nat, e: nat, x: int, y: int) returns (f: nat, z: int)
    requires n > 0 && Reaches(n, 2, e, x) && ((x * x) * (x * x) * 8) % n == y
    ensures f == 4 * e + 3 && z == y && Reaches(n, 2, f, z)
  {
    f, z := TwoBits(n, e, x, 1, 1, (x * x) * (x * x) * 8, y);
  }

  lemma TwoBits(n: nat, e: nat, x: int, b: nat, c: nat, w: int, y: int) returns (f: nat, z: int)
    requires n > 0 && b < 2 && c < 2 && Reaches(n, 2, e, x) && w % n == y
    requires w == (x * x) * (x * x) * (if b == 1 then 4 else 1) * (if c == 1 then 2 else 1)
    ensures f == 4 * e + 2 * b + c && z == y && Reaches(n, 2, f, z)
  {
    hide Reaches;
    var x1 := if b == 1 then x * x * 2 else x * x;
    OneBit(n, 2, e, x, b, x1);
    OneBit(n, 2, 2 * e + b, x1, c, w);
    f, z := 4 * e + 2 * b + c, y;
    Reduce(n, 2, f, w, y);
  }

  /** One more bit of the exponent of any base. */
  lemma One(n: nat, a: int, e: nat, x: int, b: nat, y: int) returns (f: nat, z: int)
    requires n > 0 && b < 2 && Reaches(n, a, e, x) && (if b == 1 then x * x * a else x * x) % n == y
    ensures f == 2 * e + b && z == y && Reaches(n, a, f, z)
  {
    hide Reaches;
    var x1 := if b == 1 then x * x * a else x * x;
    OneBit(n, a, e, x, b, x1);
    f, z := 2 * e + b, y;
    Reduce(n, a, f, x1, y);
  }

  lemma Nothing(n: nat, a: int) returns (e: nat, x: int)
    ensures e == 0 && x == 1 && Reaches(n, a, e, x)
  {
    e, x := 0, 1;
    CongRefl(n, 1);
  }

  /** A power of a power. */
  lemma Raised(n: nat, a: int, e: nat, x: int, f: nat, y: int)
    requires Reaches(n, a, e, x) && Reaches(n, x, f, y)
    ensures e * f >= 0 && Reaches(n, a, e * f, y)
  {
    PowOfPow(a, e, f);
    CongPow(n, Pow(a, e), x, f);
    CongTrans(n, Pow(a, e * f), Pow(x, f), y);
  }

  lemma Reduce(n: nat, a: int, e: nat, x: int, y: int)
    requires n > 0 && Reaches(n, a, e, x) && x % n == y
    ensures Reaches(n, a, e, y)
  {
    CongRem(n, x);
    CongTrans(n, Pow(a, e), x, y);
  }
}
