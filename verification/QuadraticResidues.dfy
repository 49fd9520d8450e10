/**
 Euler's criterion: modulo an odd prime, what is not a square is -1 to the power (p - 1) / 2. Both it and
 Wilson's theorem pair every residue x with the y for which x y is a given d.
 */
module QuadraticResidues {
  import opened NumberTheory

  ghost predicate Square(p: nat, d: int) {
    exists x: int :: Cong(p, x * x, d)
  }

  // ---- Products of sets of residues ----

  /** The product of the members of s that are below n. */
  ghost function ProductOf(s: set<int>, n: nat): int {
    if n == 0 then 1 else ProductOf(s, n - 1) * (if n - 1 in s then n - 1 else 1)
  }

  lemma {:induction false} ProductOfNone(n: nat)
    ensures ProductOf({}, n) == 1
  {
    if n > 0 { ProductOfNone(n - 1); }
  }

  lemma {:induction false} OutOfReach(s: set<int>, x: int, n: nat)
    requires n <= x
    ensures ProductOf(s, n) == ProductOf(s - {x}, n)
  {
    if n > 0 { OutOfReach(s, x, n - 1); }
  }

  lemma {:induction false} TakeOut(s: set<int>, x: int, n: nat)
    requires x in s && 0 <= x < n
    ensures ProductOf(s, n) == x * ProductOf(s - {x}, n)
  {
    if x == n - 1 {
      OutOfReach(s, x, n - 1);
    } else {
      TakeOut(s, x, n - 1);
      var rest := ProductOf(s - {x}, n - 1);
      assert (n - 1 in s) <==> (n - 1 in s - {x});
      Regrouped(x, rest, if n - 1 in s then n - 1 else 1);
    }
  }

  lemma Regrouped(a: int, b: int, c: int)
    ensures (a * b) * c == a * (b * c)
  {
  }

  /** 1, ..., n - 1. */
  function Upto(n: nat): (s: set<int>)
    ensures forall x :: x in s <==> 0 < x < n
  {
    if n <= 1 then {} else Upto(n - 1) + {n - 1}
  }

  lemma {:induction false} SizeOfUpto(n: nat)
    ensures |Upto(n + 1)| == n
  {
    if n > 0 { SizeOfUpto(n - 1); }
  }

  // ---- Pairing ----

  /** The residue that makes d with x. */
  function Partner(p: nat, d: int, x: int): int
    requires p > 2
  {
    (d * Pow(x, p - 2)) % p
  }

  lemma NotZero(p: nat, x: int)
    requires 0 < x < p
    ensures !Cong(p, x, 0)
  {
    if Cong(p, x, 0) { CongReduced(p, x, 0); }
  }

  lemma PartnerMakes(p: nat, d: int, x: int)
    requires Prime(p) && p > 2 && 0 < x < p
    ensures Cong(p, x * Partner(p, d, x), d) && 0 <= Partner(p, d, x) < p
  {
    hide Cong, Prime, Pow;
    var w := Pow(x, p - 2);
    NotZero(p, x);
    InverseIsPower(p, x);
    CongRem(p, d * w);
    CongRefl(p, x);
    CongMul(p, x, x, (d * w) % p, d * w);
    CongRefl(p, d);
    CongMul(p, x * w, 1, d, d);
    assert x * (d * w) == x * w * d && 1 * d == d;
    CongTrans(p, x * ((d * w) % p), x * (d * w), d);
  }

  /** There is only one such residue. */
  lemma OnePartner(p: nat, d: int, x: int, y: int)
    requires Prime(p) && p > 2 && 0 < x < p && 0 <= y < p && Cong(p, x * y, d)
    ensures y == Partner(p, d, x)
  {
    hide Cong, Prime, Partner;
    var z := Partner(p, d, x);
    PartnerMakes(p, d, x);
    NotZero(p, x);
    CongSym(p, x * z, d);
    CongTrans(p, x * y, d, x * z);
    assert x * y == y * x && x * z == z * x;
    Cancel(p, y, z, x);
    CongReduced(p, y, z);
  }

  lemma PartnerOfPartner(p: nat, d: int, x: int)
    requires Prime(p) && p > 2 && 0 < x < p && 0 < Partner(p, d, x)
    ensures Partner(p, d, Partner(p, d, x)) == x
  {
    hide Cong, Prime, Partner;
    PartnerMakes(p, d, x);
    var y := Partner(p, d, x);
    assert x * y == y * x;
    OnePartner(p, d, y, x);
  }

  ghost predicate Paired(p: nat, d: int, s: set<int>)
    requires p > 2
  {
    forall x :: x in s ==> 0 < x < p && Partner(p, d, x) in s && Partner(p, d, x) != x
  }

  lemma NoMembers(s: set<int>)
    requires forall x :: x !in s
    ensures s == {}
  {
    assert forall x :: x in s <==> x in Upto(0);
  }

  lemma Member(s: set<int>) returns (x: int)
    requires s != {}
    ensures x in s
  {
    if forall y :: y !in s { NoMembers(s); }
    x :| x in s;
  }

  /** Pairs that each make d multiply to a power of d. */
  lemma {:induction false} PairedProduct(p: nat, d: int, s: set<int>)
    requires Prime(p) && p > 2 && Paired(p, d, s)
    ensures |s| % 2 == 0 && Cong(p, ProductOf(s, p), Pow(d, |s| / 2))
    decreases |s|
  {
    hide Cong, Prime, Partner, ProductOf, Paired, Pow;
    if s == {} {
      ProductOfNone(p);
      PowNothing(d);
      CongRefl(p, 1);
    } else {
      var x := Member(s);
      var y := Partner(p, d, x);
      var rest := s - {x} - {y};
      RestPaired(p, d, s, x);
      PairedProduct(p, d, rest);
      TakeOut(s, x, p);
      TakeOut(s - {x}, y, p);
      CongMul(p, x * y, d, ProductOf(rest, p), Pow(d, |rest| / 2));
      Regrouped(x, y, ProductOf(rest, p));
      PowOneMore(d, |s| / 2 - 1);
    }
  }

  lemma RestPaired(p: nat, d: int, s: set<int>, x: int)
    requires Prime(p) && p > 2 && Paired(p, d, s) && x in s
    ensures var y := Partner(p, d, x);
            && 0 < x < p && 0 < y < p && y in s && y != x && Cong(p, x * y, d)
            && |s - {x} - {y}| == |s| - 2 && Paired(p, d, s - {x} - {y})
  {
    hide Cong, Prime, Partner;
    var y := Partner(p, d, x);
    PartnerMakes(p, d, x);
    PartnerOfPartner(p, d, x);
    var rest := s - {x} - {y};
    forall z | z in rest ensures Partner(p, d, z) in rest {
      PartnerOfPartner(p, d, z);
    }
  }

  // ---- Wilson ----

  /** Only 1 and -1 are their own inverses. */
  lemma OwnInverse(p: nat, x: int)
    requires Prime(p) && 0 < x < p && Cong(p, x * x, 1)
    ensures x == 1 || x == p - 1
  {
    hide Cong, Prime;
    CongRefl(p, 1);
    CongAdd(p, x * x, 1, 1, 1);
    assert x * x - 1 == (x - 1) * (x + 1);
    Euclid(p, x - 1, x + 1);
    if Cong(p, x - 1, 0) { CongReduced(p, x - 1, 0); }
    else {
      CongRefl(p, p);
      CongAdd(p, x + 1, 0, p, p);
      if x < p - 1 { CongReduced(p, x + 1, 0); }
    }
  }

  lemma InnerArePaired(p: nat)
    requires Prime(p) && p > 2
    ensures Paired(p, 1, Upto(p) - {1} - {p - 1})
  {
    hide Cong, Prime, Partner;
    var s := Upto(p) - {1} - {p - 1};
    forall x | x in s ensures Partner(p, 1, x) in s && Partner(p, 1, x) != x {
      var y := Partner(p, 1, x);
      PartnerMakes(p, 1, x);
      if y == x { OwnInverse(p, x); }
      InnerPartner(p, x, y);
    }
  }

  lemma InnerPartner(p: nat, x: int, y: int)
    requires Prime(p) && p > 2 && 1 < x < p - 1 && 0 <= y < p && Cong(p, x * y, 1)
    ensures 1 < y < p - 1
  {
    hide Cong, Prime;
    if y == 0 {
      CongSym(p, 0, 1);
      CongReduced(p, 1, 0);
    }
    if y == 1 { CongReduced(p, x, 1); }
    if y == p - 1 {
      CongBy(p, x * (p - 1), -x, x);
      CongSym(p, x * (p - 1), -x);
      CongTrans(p, -x, x * (p - 1), 1);
      CongBy(p, p - x, -x, 1);
      CongTrans(p, p - x, -x, 1);
      CongReduced(p, p - x, 1);
    }
  }

  /** Wilson: the product of all residues but zero is -1. */
  lemma Wilson(p: nat)
    requires Prime(p) && p > 2
    ensures Cong(p, ProductOf(Upto(p), p), -1)
  {
    hide Cong, Prime, ProductOf, Paired;
    var all := Upto(p);
    var inner := all - {1} - {p - 1};
    InnerArePaired(p);
    PairedProduct(p, 1, inner);
    PowOfOne(|inner| / 2);
    TakeOut(all, 1, p);
    TakeOut(all - {1}, p - 1, p);
    CongBy(p, p - 1, -1, 1);
    CongMul(p, p - 1, -1, ProductOf(inner, p), 1);
  }

  // ---- Euler ----

  lemma IsSquare(p: nat, x: int, d: int)
    requires Cong(p, x * x, d)
    ensures Square(p, d)
  {
  }

  lemma AllArePaired(p: nat, d: int)
    requires Prime(p) && p > 2 && !Square(p, d)
    ensures Paired(p, d, Upto(p))
  {
    hide Cong, Prime, Partner, Square;
    forall x | x in Upto(p) ensures Partner(p, d, x) in Upto(p) && Partner(p, d, x) != x {
      var y := Partner(p, d, x);
      PartnerMakes(p, d, x);
      if y == 0 { IsSquare(p, 0, d); }
      if y == x { IsSquare(p, x, d); }
    }
  }

  /** Euler's criterion, for what is not a square. */
  lemma EulerCriterion(p: nat, d: int)
    requires Prime(p) && p > 2 && !Square(p, d)
    ensures Cong(p, Pow(d, (p - 1) / 2), -1)
  {
    hide Cong, Prime, ProductOf, Paired, Square, Pow;
    AllArePaired(p, d);
    PairedProduct(p, d, Upto(p));
    SizeOfUpto(p - 1);
    Wilson(p);
    CongSym(p, ProductOf(Upto(p), p), Pow(d, (p - 1) / 2));
    CongTrans(p, Pow(d, (p - 1) / 2), ProductOf(Upto(p), p), -1);
  }
}
