/**
 The curve of Ed25519 (section 5.1 of RFC 8032): p is prime, d is not a square, and L is prime.
 */
module Ed25519Curve {
  import opened NumberTheory
  import opened QuadraticResidues
  import opened Edwards
  import opened Pocklington
  import opened PrimeCertificates

  /** 2^255 - 19 */
  const P: nat := 57896044618658097711785492504343953926634992332820282019728792003956564819949

  /** 2^252 + 27742317777372353535851937790883648493 */
  const L: nat := 7237005577332262213973186563042994240857116359379907606001950938285454250989

  function D(): int {
    Mod(P, -121665 * (Pow(121666, P - 2) % P))
  }

  function Ed25519(): Curve {
    Curve(P, D())
  }

  lemma BothPrime()
    ensures Prime(P) && Prime(L)
  {
    hide Prime;
    PrimeP();
    PrimeL();
  }

  lemma PowersOfTwo()
    ensures Reaches(P, 2, (P - 1) / 2, P - 1)
  {
    hide Reaches;
    HalfP();
  }

  /** 2 is not a square modulo p: to the power (p - 1) / 2 it is -1. */
  lemma TwoIsNoSquare()
    ensures Cong(P, Pow(2, (P - 1) / 2), -1)
  {
    hide Cong, Pow;
    PowersOfTwo();
    CongBy(P, P - 1, -1, 1);
    CongTrans(P, Pow(2, (P - 1) / 2), P - 1, -1);
  }

  /** A square root of 121665 * 121666 / 2 modulo p. */
  const ROOT: int := 8770359039303344359548208979710324901663570887331859741081992614103461443253

  lemma RootIs()
    ensures Cong(P, ROOT * ROOT, 121665 * 60833)
  {
    var quotient := 1328574312544681369677743335001854821550983564553614290913063952618855638136;
    CongBy(P, ROOT * ROOT, 121665 * 60833, quotient);
  }

  /** d is -121665/121666. */
  lemma DIs()
    ensures Cong(P, D() * 121666, -121665)
  {
    var p := P;
    BothPrime();
    assert Prime(p) && p > 2;
    hide Prime, Pow, Cong, Mod;
    var inverse := Pow(121666, p - 2);
    ModIs(p, -121665 * (inverse % p));
    SmallIsNonzero(p);
    InverseIsPower(p, 121666);
    CongRem(p, inverse);
    CongScale(p, -121665, inverse % p, inverse);
    CongTrans(p, D(), -121665 * (inverse % p), -121665 * inverse);
    CongRefl(p, 121666);
    CongMul(p, D(), -121665 * inverse, 121666, 121666);
    CongScale(p, -121665, 121666 * inverse, 1);
    assert -121665 * inverse * 121666 == -121665 * (121666 * inverse);
    CongTrans(p, D() * 121666, -121665 * (121666 * inverse), -121665);
  }

  lemma SmallIsNonzero(p: nat)
    requires p > 121666
    ensures !Cong(p, 121666, 0)
  {
    if Cong(p, 121666, 0) { CongReduced(p, 121666, 0); }
  }

  /** A square z^2 = d would make (121666 i z)^2 twice a square, i being a root of -1. */
  lemma TwiceASquare(p: nat, d: int, z: int, i: int, w: int)
    requires Cong(p, i * i, -1) && Cong(p, z * z, d) && Cong(p, d * 121666, -121665) && Cong(p, w * w, 121665 * 60833)
    ensures var r := i * (121666 * z); Cong(p, 2 * (w * w), r * r)
  {
    hide Cong;
    var u := 121666 * z;
    TurnedSquare(p, i, u);
    // u^2 is -121665 * 121666
    SquareOfProduct(121666, z);
    CongScale(p, 121666, d * 121666, -121665);
    CongScale(p, 121666 * 121666, z * z, d);
    assert (121666 * 121666) * d == 121666 * (d * 121666);
    CongTrans(p, u * u, 121666 * (d * 121666), 121666 * -121665);
    // so minus that is twice w^2
    CongRefl(p, 0);
    CongAdd(p, 0, 0, u * u, 121666 * -121665);
    CongScale(p, 2, w * w, 121665 * 60833);
    CongTrans(p, (i * u) * (i * u), -(u * u), 2 * (121665 * 60833));
    CongSym(p, (i * u) * (i * u), 2 * (121665 * 60833));
    CongTrans(p, 2 * (w * w), 2 * (121665 * 60833), (i * u) * (i * u));
  }

  lemma RootOfTwo()
    ensures Cong(P, Pow(2, (P - 1) / 4) * Pow(2, (P - 1) / 4), -1)
  {
    hide Cong, Pow;
    TwoIsNoSquare();
    PowAdd(2, (P - 1) / 4, (P - 1) / 4);
  }

  lemma RootNonzero()
    ensures !Cong(P, ROOT, 0) && !Cong(P, -1, 1)
  {
    hide Cong;
    if Cong(P, ROOT, 0) { CongReduced(P, ROOT, 0); }
    if Cong(P, -1, 1) {
      CongBy(P, P - 1, -1, 1);
      CongTrans(P, P - 1, -1, 1);
      CongReduced(P, P - 1, 1);
    }
  }

  /** d is not a square, because 2 is none. */
  lemma DIsNoSquare()
    ensures !Square(P, D())
  {
    var p, d, w, i := P, D(), ROOT, Pow(2, (P - 1) / 4);
    assert p % 2 == 1;
    BothPrime();
    TwoIsNoSquare();
    RootOfTwo();
    RootIs();
    DIs();
    RootNonzero();
    hide Cong, Prime, Pow, D;
    if Square(p, d) {
      var z: int :| Cong(p, z * z, d);
      TwiceASquare(p, d, z, i, w);
      NoSquareTimesSquare(p, 2, w, i * (121666 * z));
    }
  }

  /** The curve of Ed25519 has a complete addition formula. */
  lemma Ed25519IsGood()
    ensures Good(Ed25519())
  {
    hide Prime, Square, D;
    BothPrime();
    DIsNoSquare();
    assert P % 8 == 5;
  }
}
