/**
 The least divisor of a number is prime and, but for the number itself, at most its square root; so below 361
 it is enough to try the primes up to 17.
 */
module SmallPrimes {
  import opened NumberTheory

  lemma DividesThrough(n: nat, p: nat, d: nat)
    requires p > 0 && d > 0 && n % p == 0 && p % d == 0
    ensures n % d == 0
  {
    assert n == (n / p) * p && p == (p / d) * d;
    assert (n / p) * ((p / d) * d) == ((n / p) * (p / d)) * d;
    CongBy(d, n, 0, (n / p) * (p / d));
    CongIffRem(d, n, 0);
  }

  lemma {:induction false} LeastDivisor(n: nat, from: nat) returns (p: nat)
    requires 1 < from <= n && forall d :: 1 < d < from ==> n % d != 0
    ensures 1 < p <= n && n % p == 0 && forall d :: 1 < d < p ==> n % d != 0
    decreases n - from
  {
    if n % from == 0 { p := from; } else { p := LeastDivisor(n, from + 1); }
  }

  lemma LeastIsPrime(n: nat, p: nat)
    requires 1 < p <= n && n % p == 0 && forall d :: 1 < d < p ==> n % d != 0
    ensures Prime(p)
  {
    forall d | 1 < d < p ensures p % d != 0 {
      if p % d == 0 { DividesThrough(n, p, d); }
    }
  }

  /** The cofactor of the least divisor is not less than it. */
  lemma LeastIsSmall(n: nat, p: nat)
    requires 1 < p < n && n % p == 0 && forall d :: 1 < d < p ==> n % d != 0
    ensures p * p <= n
  {
    var k := n / p;
    assert n == k * p;
    if k < p {
      CofactorAbove(n, p, k);
      CongBy(k, n, 0, p);
      assert k * p == p * k;
      CongIffRem(k, n, 0);
    } else {
      assert k * p >= p * p;
    }
  }

  lemma CofactorAbove(n: nat, p: nat, k: nat)
    requires n == k * p && p < n
    ensures k > 1
  {
  }

  /** Not divisible by a smaller one of the first seven primes. */
  predicate Sifted(n: nat) {
    && (n == 2 || n % 2 != 0) && (n == 3 || n % 3 != 0) && (n == 5 || n % 5 != 0) && (n == 7 || n % 7 != 0)
    && (n == 11 || n % 11 != 0) && (n == 13 || n % 13 != 0) && (n == 17 || n % 17 != 0)
  }

  lemma SquareAtLeast(p: nat)
    requires p >= 19
    ensures p * p >= 361
  {
    assert p * p >= 19 * p;
  }

  lemma BelowNineteen(p: nat)
    requires Prime(p) && p * p < 361
    ensures p in [2, 3, 5, 7, 11, 13, 17]
  {
    if p >= 19 { SquareAtLeast(p); }
    assert (p == 2 || p % 2 != 0) && (p == 3 || p % 3 != 0);
  }

  /** Below 361, that is enough. */
  lemma SiftedIsPrime(n: nat)
    requires 1 < n < 361
    ensures Prime(n) <==> Sifted(n)
  {
    var p := LeastDivisor(n, 2);
    LeastIsPrime(n, p);
    if p < n {
      LeastIsSmall(n, p);
      BelowNineteen(p);
    }
  }
}
