/**
 Powers, congruence and primes, as far as key arithmetic needs them: division by anything but zero modulo
 a prime, and Fermat's theorem.
 */
module NumberTheory {

  // ---- Powers ----

  function Pow(b: int, e: nat): int {
    if e == 0 then 1 else b * Pow(b, e - 1)
  }

  lemma PowNothing(b: int)
    ensures Pow(b, 0) == 1
  {
  }

  lemma PowOneMore(b: int, n: nat)
    ensures Pow(b, n + 1) == b * Pow(b, n)
  {
  }

  lemma FirstPower(b: int)
    ensures Pow(b, 1) == b
  {
    assert Pow(b, 1) == b * Pow(b, 0);
  }

  lemma {:induction false} PowAdd(b: int, m: nat, n: nat)
    ensures Pow(b, m + n) == Pow(b, m) * Pow(b, n)
  {
    if m > 0 {
      PowAdd(b, m - 1, n);
      assert b * (Pow(b, m - 1) * Pow(b, n)) == b * Pow(b, m - 1) * Pow(b, n);
    }
  }

  lemma {:induction false} PowOfPow(b: int, m: nat, n: nat)
    ensures 0 <= m * n && Pow(Pow(b, m), n) == Pow(b, m * n)
  {
    if n > 0 {
      PowOfPow(b, m, n - 1);
      assert m * n == m + m * (n - 1);
      PowAdd(b, m, m * (n - 1));
    }
  }

  lemma {:induction false} PowOfProduct(a: int, b: int, n: nat)
    ensures Pow(a * b, n) == Pow(a, n) * Pow(b, n)
  {
    if n > 0 {
      PowOfProduct(a, b, n - 1);
      Regroup(a, b, Pow(a, n - 1), Pow(b, n - 1));
    }
  }

  lemma Regroup(a: int, b: int, x: int, y: int)
    ensures (a * b) * (x * y) == (a * x) * (b * y)
  {
  }

  lemma {:induction false} PowNonneg(b: nat, n: nat)
    ensures Pow(b, n) >= 0
  {
    if n > 0 {
      PowNonneg(b, n - 1);
      ProductNonneg(b, Pow(b, n - 1));
    }
  }

  lemma Swap(a: int, b: int)
    ensures a * b == b * a
  {
  }

  lemma ProductNonneg(a: nat, b: nat)
    ensures a * b >= 0
  {
  }

  lemma PowOfOne(n: nat)
    ensures Pow(1, n) == 1
  {
  }

  // ---- Congruence ----

  ghost predicate Cong(p: nat, a: int, b: int) {
    exists k: int :: a - b == k * p
  }

  lemma CongBy(p: nat, a: int, b: int, k: int)
    requires a - b == k * p
    ensures Cong(p, a, b)
  {
  }

  lemma CongRefl(p: nat, a: int)
    ensures Cong(p, a, a)
  {
    CongBy(p, a, a, 0);
  }

  lemma CongSym(p: nat, a: int, b: int)
    requires Cong(p, a, b)
    ensures Cong(p, b, a)
  {
    var k: int :| a - b == k * p;
    assert b - a == (-k) * p;
  }

  lemma CongTrans(p: nat, a: int, b: int, c: int)
    requires Cong(p, a, b) && Cong(p, b, c)
    ensures Cong(p, a, c)
  {
    var k: int :| a - b == k * p;
    var l: int :| b - c == l * p;
    assert a - c == (k + l) * p;
  }

  lemma CongAdd(p: nat, a: int, b: int, c: int, d: int)
    requires Cong(p, a, b) && Cong(p, c, d)
    ensures Cong(p, a + c, b + d) && Cong(p, a - c, b - d)
  {
    var k: int :| a - b == k * p;
    var l: int :| c - d == l * p;
    assert (a + c) - (b + d) == (k + l) * p;
    assert (a - c) - (b - d) == (k - l) * p;
  }

  lemma CongMul(p: nat, a: int, b: int, c: int, d: int)
    requires Cong(p, a, b) && Cong(p, c, d)
    ensures Cong(p, a * c, b * d)
  {
    var k: int :| a - b == k * p;
    var l: int :| c - d == l * p;
    assert a * c - b * d == (a - b) * c + b * (c - d);
    MultiplesJoin(p, k, c, b, l);
    CongBy(p, a * c, b * d, k * c + b * l);
  }

  lemma MultiplesJoin(p: int, k: int, c: int, b: int, l: int)
    ensures (k * p) * c + b * (l * p) == (k * c + b * l) * p
  {
  }

  lemma CongScale(p: nat, k: int, a: int, b: int)
    requires Cong(p, a, b)
    ensures Cong(p, k * a, k * b)
  {
    CongRefl(p, k);
    CongMul(p, k, k, a, b);
  }

  lemma {:induction false} CongPow(p: nat, a: int, b: int, n: nat)
    requires Cong(p, a, b)
    ensures Cong(p, Pow(a, n), Pow(b, n))
  {
    if n == 0 { CongRefl(p, 1); }
    else {
      CongPow(p, a, b, n - 1);
      CongMul(p, a, b, Pow(a, n - 1), Pow(b, n - 1));
    }
  }

  lemma CongRem(p: nat, a: int)
    requires p > 0
    ensures Cong(p, a % p, a) && Cong(p, a, a % p)
  {
    assert a == (a / p) * p + a % p;
    CongBy(p, a, a % p, a / p);
    CongSym(p, a, a % p);
  }

  /** Between 0 and p there is one number of each class. */
  lemma CongReduced(p: nat, a: int, b: int)
    requires Cong(p, a, b) && 0 <= a < p && 0 <= b < p
    ensures a == b
  {
    var k: int :| a - b == k * p;
    SmallMultiple(p, k);
  }

  lemma SmallMultiple(p: nat, k: int)
    requires 0 < k * p + p && k * p < p
    ensures k == 0
  {
    if k > 0 { MultipleAtLeast(p, k); }
    if k < 0 { NegativeMultiple(p, k); }
  }

  lemma NegativeMultiple(p: nat, k: int)
    requires k < 0
    ensures k * p + p <= 0
  {
    MultipleAtLeast(p, -k);
  }

  lemma QuotientNonneg(q: nat, m: nat, k: int)
    requires q > 1 && m - 1 == k * q
    ensures k >= 0
  {
    if k < 0 { NegativeMultiple(q, k); }
  }

  lemma {:induction false} MultipleAtLeast(p: nat, k: nat)
    requires k > 0
    ensures k * p >= p
  {
    if k > 1 {
      MultipleAtLeast(p, k - 1);
      assert k * p == (k - 1) * p + p;
    }
  }

  lemma CongIffRem(p: nat, a: int, b: int)
    requires p > 0
    ensures Cong(p, a, b) <==> a % p == b % p
  {
    CongRem(p, a);
    CongRem(p, b);
    if Cong(p, a, b) {
      CongTrans(p, a % p, a, b);
      CongTrans(p, a % p, b, b % p);
      CongReduced(p, a % p, b % p);
    }
    if a % p == b % p {
      CongTrans(p, a, a % p, b);
    }
  }

  // ---- Primes ----

  predicate Prime(p: nat) {
    p > 1 && forall d :: 1 < d < p ==> p % d != 0
  }

  /** What is not a multiple of a prime has an inverse. */
  lemma {:induction false} InverseOfSmall(p: nat, a: nat) returns (x: int, k: int)
    requires Prime(p) && 0 < a < p
    ensures a * x == 1 + k * p
    decreases a
  {
    if a == 1 {
      x, k := 1, 0;
    } else {
      var q, r := p / a, p % a;
      assert p == q * a + r;
      var y, l := InverseOfSmall(p, r);
      x, k := -(q * y), l - y;
      assert a * x == -(q * a) * y;
      assert -(q * a) * y == (r - p) * y == r * y - p * y;
      assert 1 + k * p == 1 + l * p - y * p;
    }
  }

  lemma Inverse(p: nat, a: int) returns (x: int)
    requires Prime(p) && !Cong(p, a, 0)
    ensures Cong(p, a * x, 1) && 0 <= x < p
  {
    CongRem(p, a);
    assert a % p != 0;
    var y, k := InverseOfSmall(p, a % p);
    x := y % p;
    CongRem(p, y);
    CongMul(p, a, a % p, x, y);
    CongBy(p, (a % p) * y, 1, k);
    CongTrans(p, a * x, (a % p) * y, 1);
  }

  /** A prime that divides a product divides one of the factors. */
  lemma Euclid(p: nat, a: int, b: int)
    requires Prime(p) && Cong(p, a * b, 0)
    ensures Cong(p, a, 0) || Cong(p, b, 0)
  {
    hide Cong, Prime;
    if !Cong(p, a, 0) {
      var x := Inverse(p, a);
      CongRefl(p, x);
      CongRefl(p, b);
      CongMul(p, a * b, 0, x, x);
      CongMul(p, a * x, 1, b, b);
      assert a * b * x == a * x * b;
      CongSym(p, a * x * b, 1 * b);
      CongTrans(p, b, a * x * b, 0);
    }
  }

  lemma Cancel(p: nat, a: int, b: int, c: int)
    requires Prime(p) && !Cong(p, c, 0) && Cong(p, a * c, b * c)
    ensures Cong(p, a, b)
  {
    CongRefl(p, b * c);
    CongAdd(p, a * c, b * c, b * c, b * c);
    assert a * c - b * c == (a - b) * c;
    assert b * c - b * c == 0;
    Euclid(p, a - b, c);
    CongRefl(p, b);
    CongAdd(p, a - b, 0, b, b);
  }

  lemma {:induction false} PowNonzero(p: nat, a: int, n: nat)
    requires Prime(p) && !Cong(p, a, 0)
    ensures !Cong(p, Pow(a, n), 0)
  {
    if n == 0 {
      if Cong(p, 1, 0) { CongReduced(p, 1, 0); }
    } else {
      PowNonzero(p, a, n - 1);
      if Cong(p, a * Pow(a, n - 1), 0) { Euclid(p, a, Pow(a, n - 1)); }
    }
  }

  // ---- Fermat's theorem ----

  function Choose(n: nat, k: nat): nat {
    if k == 0 then 1 else if n == 0 then 0 else Choose(n - 1, k) + Choose(n - 1, k - 1)
  }

  lemma {:induction false} ChooseMore(n: nat, k: nat)
    requires k > n
    ensures Choose(n, k) == 0
  {
    if n > 0 {
      ChooseMore(n - 1, k);
      ChooseMore(n - 1, k - 1);
    }
  }

  lemma {:induction false} ChooseAll(n: nat)
    ensures Choose(n, n) == 1
  {
    if n > 0 {
      ChooseAll(n - 1);
      ChooseMore(n - 1, n);
    }
  }

  lemma AbsorptionStep(n: int, k: int, a: int, c: int, x: int, y: int)
    requires k * a == (n - 1) * x && (k - 1) * c == (n - 1) * y && c == x + y
    ensures k * (a + c) == n * c
  {
    assert k * (a + c) == k * a + (k - 1) * c + c;
    assert n * c == (n - 1) * x + (n - 1) * y + c;
  }

  /** k out of n, counted by the first one taken. */
  lemma {:induction false} Absorption(n: nat, k: nat)
    requires n > 0 && k > 0
    ensures k * Choose(n, k) == n * Choose(n - 1, k - 1)
  {
    if n == 1 {
      if k > 1 {
        ChooseMore(1, k);
        ChooseMore(0, k - 1);
      }
    } else {
      Absorption(n - 1, k);
      if k > 1 {
        Absorption(n - 1, k - 1);
        AbsorptionStep(n, k, Choose(n - 1, k), Choose(n - 1, k - 1), Choose(n - 2, k - 1), Choose(n - 2, k - 2));
      }
    }
  }

  lemma PrimeDividesChoose(p: nat, k: nat)
    requires Prime(p) && 0 < k < p
    ensures Cong(p, Choose(p, k), 0)
  {
    Absorption(p, k);
    assert k * Choose(p, k) == Choose(p - 1, k - 1) * p;
    CongBy(p, k * Choose(p, k), 0, Choose(p - 1, k - 1));
    Euclid(p, k, Choose(p, k));
    if Cong(p, k, 0) { CongReduced(p, k, 0); }
  }

  /** The first terms of the expansion of (1 + a) to the n. */
  function Expansion(n: nat, a: int, j: nat): int {
    Choose(n, j) * Pow(a, j) + if j == 0 then 0 else Expansion(n, a, j - 1)
  }

  lemma ExpansionRegroup(u: int, v: int, a: int, low: int, e: int, f: int)
    ensures (u + v) * (a * low) + (e + a * f) == (u * (a * low) + e) + a * (v * low + f)
  {
  }

  lemma {:induction false} ExpansionStep(n: nat, a: int, j: nat)
    requires j > 0
    ensures Expansion(n + 1, a, j) == Expansion(n, a, j) + a * Expansion(n, a, j - 1)
  {
    var before := if j == 1 then 0 else Expansion(n, a, j - 2);
    if j > 1 { ExpansionStep(n, a, j - 1); }
    ExpansionRegroup(Choose(n, j), Choose(n, j - 1), a, Pow(a, j - 1), Expansion(n, a, j - 1), before);
    assert Expansion(n, a, j - 1) == Choose(n, j - 1) * Pow(a, j - 1) + before;
    assert Expansion(n + 1, a, j - 1) == Expansion(n, a, j - 1) + a * before;
    assert Choose(n + 1, j) == Choose(n, j) + Choose(n, j - 1);
    assert Pow(a, j) == a * Pow(a, j - 1);
  }

  lemma {:induction false} Binomial(n: nat, a: int)
    ensures Pow(1 + a, n) == Expansion(n, a, n)
  {
    if n > 0 {
      Binomial(n - 1, a);
      ExpansionStep(n - 1, a, n);
      ChooseMore(n - 1, n);
      assert (1 + a) * Expansion(n - 1, a, n - 1) == Expansion(n - 1, a, n - 1) + a * Expansion(n - 1, a, n - 1);
    }
  }

  lemma {:induction false} MiddleVanishes(p: nat, a: int, j: nat)
    requires Prime(p) && j < p
    ensures Cong(p, Expansion(p, a, j), 1)
  {
    if j == 0 { CongRefl(p, 1); }
    else {
      MiddleVanishes(p, a, j - 1);
      PrimeDividesChoose(p, j);
      CongRefl(p, Pow(a, j));
      CongMul(p, Choose(p, j), 0, Pow(a, j), Pow(a, j));
      CongAdd(p, Choose(p, j) * Pow(a, j), 0, Expansion(p, a, j - 1), 1);
    }
  }

  lemma {:induction false} FermatFor(p: nat, a: nat)
    requires Prime(p)
    ensures Cong(p, Pow(a, p), a)
  {
    if a == 0 { CongRefl(p, 0); }
    else {
      FermatFor(p, a - 1);
      Binomial(p, a - 1);
      MiddleVanishes(p, a - 1, p - 1);
      ChooseAll(p);
      CongAdd(p, Pow(a - 1, p), a - 1, Expansion(p, a - 1, p - 1), 1);
    }
  }

  /** Fermat: anything but a multiple of p, to the power p - 1, is 1 modulo p. */
  lemma Fermat(p: nat, a: int)
    requires Prime(p) && !Cong(p, a, 0)
    ensures Cong(p, Pow(a, p - 1), 1)
  {
    var r := a % p;
    CongRem(p, a);
    if Cong(p, r, 0) { CongTrans(p, a, r, 0); }
    FermatFor(p, r);
    assert Pow(r, p) == r * Pow(r, p - 1);
    assert Pow(r, p - 1) * r == r * Pow(r, p - 1) && 1 * r == r;
    Cancel(p, Pow(r, p - 1), 1, r);
    CongPow(p, a, r, p - 1);
    CongTrans(p, Pow(a, p - 1), Pow(r, p - 1), 1);
  }

  /** So dividing is raising to the power p - 2. */
  lemma InverseIsPower(p: nat, a: int)
    requires Prime(p) && !Cong(p, a, 0)
    ensures Cong(p, a * Pow(a, p - 2), 1)
  {
    Fermat(p, a);
  }
}
