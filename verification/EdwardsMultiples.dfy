/**
 Multiples of a point: double-and-add is repeated addition, and a prime that kills a point is its order.
 */
module EdwardsMultiples {
  import opened NumberTheory
  import opened Edwards
  import opened EdwardsGroup
  import opened EdwardsAssociative

  // ---- Repeated addition ----

  function Times(c: Curve, n: nat, a: Point): Point
    requires c.p > 0
  {
    if n == 0 then Identity() else Add(c, Times(c, n - 1, a), a)
  }

  lemma {:induction false} TimesOnCurve(c: Curve, n: nat, a: Point)
    requires Good(c) && OnCurve(c, a)
    ensures OnCurve(c, Times(c, n, a))
  {
    hide OnCurve, Good, Add;
    if n == 0 { IdentityOnCurve(c); }
    else {
      TimesOnCurve(c, n - 1, a);
      SumOnCurve(c, Times(c, n - 1, a), a);
    }
  }

  lemma {:induction false} TimesAdd(c: Curve, m: nat, n: nat, a: Point)
    requires Good(c) && OnCurve(c, a)
    ensures Same(c, Times(c, m + n, a), Add(c, Times(c, m, a), Times(c, n, a)))
  {
    hide OnCurve, Good, Add, Same;
    var u := Times(c, m, a);
    TimesOnCurve(c, m, a);
    TimesOnCurve(c, n, a);
    TimesOnCurve(c, m + n, a);
    Closed(c, u, Times(c, n, a));
    if n == 0 {
      SumWithIdentity(c, u);
      SameSym(c, Add(c, u, Identity()), u);
    } else {
      var v := Times(c, n - 1, a);
      TimesAdd(c, m, n - 1, a);
      TimesOnCurve(c, n - 1, a);
      TimesOnCurve(c, m + n - 1, a);
      Closed(c, u, v);
      SumLeft(c, Times(c, m + n - 1, a), Add(c, u, v), a);
      Closed(c, Add(c, u, v), a);
      SumAssociates(c, u, v, a);
      assert Times(c, m + n, a) == Add(c, Times(c, m + n - 1, a), a) && Times(c, n, a) == Add(c, v, a);
      Chain(c, Times(c, m + n, a), Add(c, Add(c, u, v), a), Add(c, u, Add(c, v, a)));
    }
  }

  lemma {:induction false} TimesSame(c: Curve, n: nat, a: Point, b: Point)
    requires Good(c) && OnCurve(c, a) && OnCurve(c, b) && Same(c, a, b)
    ensures Same(c, Times(c, n, a), Times(c, n, b))
  {
    hide OnCurve, Good, Add, Same;
    if n == 0 { SameRefl(c, Identity()); }
    else {
      var u, v := Times(c, n - 1, a), Times(c, n - 1, b);
      TimesSame(c, n - 1, a, b);
      TimesOnCurve(c, n - 1, a);
      TimesOnCurve(c, n - 1, b);
      SumLeft(c, u, v, a);
      SumLeft(c, a, b, v);
      Closed(c, v, a);
      Chain(c, Add(c, u, a), Add(c, v, a), Add(c, v, b));
    }
  }

  lemma {:induction false} TimesTimes(c: Curve, m: nat, n: nat, a: Point)
    requires Good(c) && OnCurve(c, a)
    ensures m * n >= 0 && Same(c, Times(c, m * n, a), Times(c, m, Times(c, n, a)))
  {
    hide OnCurve, Good, Add, Same;
    ProductNonneg(m, n);
    if m == 0 { SameRefl(c, Identity()); }
    else {
      ProductNonneg(m - 1, n);
      assert m * n == (m - 1) * n + n;
      var u, v := Times(c, (m - 1) * n, a), Times(c, n, a);
      TimesTimes(c, m - 1, n, a);
      TimesAdd(c, (m - 1) * n, n, a);
      TimesOnCurve(c, n, a);
      TimesOnCurve(c, (m - 1) * n, a);
      TimesOnCurve(c, m - 1, v);
      SumLeft(c, u, Times(c, m - 1, v), v);
      Closed(c, u, v);
      Chain(c, Times(c, m * n, a), Add(c, u, v), Add(c, Times(c, m - 1, v), v));
    }
  }

  lemma TimesOne(c: Curve, a: Point)
    requires Good(c) && OnCurve(c, a)
    ensures Same(c, Times(c, 1, a), a)
  {
    hide OnCurve, Good, Add, Same;
    assert Times(c, 1, a) == Add(c, Times(c, 0, a), a);
    SumCommutes(c, Identity(), a);
    SumWithIdentity(c, a);
  }

  lemma TimesDouble(c: Curve, k: nat, a: Point)
    requires Good(c) && OnCurve(c, a)
    ensures Same(c, Times(c, 2 * k, a), Times(c, k, Add(c, a, a)))
  {
    hide OnCurve, Good, Add, Same;
    TimesTimes(c, k, 2, a);
    assert k * 2 == 2 * k;
    TimesOne(c, a);
    TimesOnCurve(c, 1, a);
    SumLeft(c, Times(c, 1, a), a, a);
    assert Times(c, 2, a) == Add(c, Times(c, 1, a), a);
    TimesOnCurve(c, 2, a);
    Closed(c, a, a);
    TimesSame(c, k, Times(c, 2, a), Add(c, a, a));
    TimesOnCurve(c, k, Times(c, 2, a));
    Chain(c, Times(c, 2 * k, a), Times(c, k, Times(c, 2, a)), Times(c, k, Add(c, a, a)));
  }

  // ---- Double and add ----

  lemma EvenStep(c: Curve, r: Point, a: Point, k: nat)
    requires Good(c) && OnCurve(c, r) && OnCurve(c, a)
    ensures Same(c, Add(c, r, Times(c, k, Add(c, a, a))), Add(c, r, Times(c, 2 * k, a)))
  {
    hide OnCurve, Good, Add, Same, Times;
    TimesDouble(c, k, a);
    Closed(c, a, a);
    TimesOnCurve(c, k, Add(c, a, a));
    TimesOnCurve(c, 2 * k, a);
    SameSym(c, Times(c, 2 * k, a), Times(c, k, Add(c, a, a)));
    SumLeft(c, Times(c, k, Add(c, a, a)), Times(c, 2 * k, a), r);
  }

  lemma OddStep(c: Curve, r: Point, a: Point, k: nat)
    requires Good(c) && OnCurve(c, r) && OnCurve(c, a)
    ensures Same(c, Add(c, Add(c, r, a), Times(c, k, Add(c, a, a))), Add(c, r, Times(c, 2 * k + 1, a)))
  {
    hide OnCurve, Good, Add, Same;
    var even := Times(c, 2 * k, a);
    Closed(c, r, a);
    EvenStep(c, Add(c, r, a), a, k);
    TimesOnCurve(c, 2 * k, a);
    Closed(c, Add(c, r, a), even);
    Closed(c, a, even);
    Closed(c, r, Add(c, a, even));
    SumCommutes(c, a, even);
    SumAssociates(c, r, a, even);
    Chain(c, Add(c, Add(c, r, a), Times(c, k, Add(c, a, a))), Add(c, Add(c, r, a), even), Add(c, r, Add(c, a, even)));
  }

  lemma MultiplyStep(c: Curve, r: Point, a: Point, s: nat, goal: Point)
    requires Good(c) && OnCurve(c, r) && OnCurve(c, a) && s > 0
    requires OnCurve(c, goal) && Same(c, Add(c, r, Times(c, s, a)), goal)
    ensures var next := if s % 2 == 1 then Add(c, r, a) else r;
            OnCurve(c, next) && OnCurve(c, Add(c, a, a)) && Same(c, Add(c, next, Times(c, s / 2, Add(c, a, a))), goal)
  {
    hide OnCurve, Good, Add, Same, Times;
    var k := s / 2;
    TimesOnCurve(c, s, a);
    Closed(c, r, Times(c, s, a));
    Closed(c, a, a);
    if s % 2 == 1 {
      OddStep(c, r, a, k);
      Chain(c, Add(c, Add(c, r, a), Times(c, k, Add(c, a, a))), Add(c, r, Times(c, s, a)), goal);
      Closed(c, r, a);
    } else {
      EvenStep(c, r, a, k);
      Chain(c, Add(c, r, Times(c, k, Add(c, a, a))), Add(c, r, Times(c, s, a)), goal);
    }
  }

  /** Double-and-add is repeated addition. */
  method Multiply(c: Curve, point: Point, scalar: nat) returns (result: Point)
    requires c.p > 0
    ensures Good(c) && OnCurve(c, point) ==> OnCurve(c, result) && Same(c, result, Times(c, scalar, point))
  {
    hide OnCurve, Good, Add, Same, Times;
    ghost var ok := Good(c) && OnCurve(c, point);
    ghost var goal := Times(c, scalar, point);
    result := Identity();
    var addend, s := point, scalar;
    if ok { StartMultiplying(c, point, scalar); }
    while s > 0
      invariant ok ==> OnCurve(c, result) && OnCurve(c, addend) && OnCurve(c, goal)
      invariant ok ==> Same(c, Add(c, result, Times(c, s, addend)), goal)
    {
      if ok { MultiplyStep(c, result, addend, s, goal); }
      if s % 2 == 1 { result := Add(c, result, addend); }
      s, addend := s / 2, Add(c, addend, addend);
    }
    if ok { EndMultiplying(c, result, addend, goal); }
  }

  lemma StartMultiplying(c: Curve, a: Point, n: nat)
    requires Good(c) && OnCurve(c, a)
    ensures OnCurve(c, Identity()) && OnCurve(c, Times(c, n, a))
    ensures Same(c, Add(c, Identity(), Times(c, n, a)), Times(c, n, a))
  {
    hide OnCurve, Add, Same, Times;
    IdentityOnCurve(c);
    TimesOnCurve(c, n, a);
    SumCommutes(c, Identity(), Times(c, n, a));
    SumWithIdentity(c, Times(c, n, a));
  }

  lemma EndMultiplying(c: Curve, r: Point, a: Point, goal: Point)
    requires Good(c) && OnCurve(c, r) && Same(c, Add(c, r, Times(c, 0, a)), goal)
    ensures Same(c, r, goal)
  {
    hide OnCurve, Add, Same;
    SumWithIdentity(c, r);
    IdentityOnCurve(c);
    Closed(c, r, Identity());
    SameSym(c, Add(c, r, Identity()), r);
    Chain(c, r, Add(c, r, Identity()), goal);
  }

  // ---- Order ----

  /** The test of the source; on a point of the curve it says whether it is the identity. */
  predicate IsIdentity(a: Point) {
    a.x == 0 && a.y == a.z
  }

  lemma IsIdentityIff(c: Curve, a: Point)
    requires Good(c) && OnCurve(c, a)
    ensures IsIdentity(a) <==> Same(c, a, Identity())
  {
    assert 0 * a.z == 0 && 1 * a.z == a.z && a.x * 1 == a.x && a.y * 1 == a.y;
    if Same(c, a, Identity()) {
      CongReduced(c.p, a.x, 0);
      CongReduced(c.p, a.y, a.z);
    }
    if IsIdentity(a) {
      CongRefl(c.p, 0);
      CongRefl(c.p, a.y);
    }
  }

  /** n times the point is the identity. */
  ghost predicate Kills(c: Curve, n: nat, a: Point)
    requires c.p > 0
  {
    Same(c, Times(c, n, a), Identity())
  }

  lemma {:induction false} TimesIdentity(c: Curve, n: nat)
    requires Good(c)
    ensures Same(c, Times(c, n, Identity()), Identity())
  {
    hide OnCurve, Good, Add, Same;
    IdentityOnCurve(c);
    if n == 0 { SameRefl(c, Identity()); }
    else {
      TimesIdentity(c, n - 1);
      TimesOnCurve(c, n - 1, Identity());
      SumLeft(c, Times(c, n - 1, Identity()), Identity(), Identity());
      SumWithIdentity(c, Identity());
      Closed(c, Identity(), Identity());
      Chain(c, Times(c, n, Identity()), Add(c, Identity(), Identity()), Identity());
    }
  }

  lemma MultipleKills(c: Curve, m: nat, n: nat, a: Point)
    requires Good(c) && OnCurve(c, a) && Kills(c, n, a)
    ensures m * n >= 0 && Kills(c, m * n, a)
  {
    hide OnCurve, Good, Add, Same, Times;
    TimesTimes(c, m, n, a);
    TimesOnCurve(c, n, a);
    IdentityOnCurve(c);
    TimesSame(c, m, Times(c, n, a), Identity());
    TimesIdentity(c, m);
    TimesOnCurve(c, m, Identity());
    TimesOnCurve(c, m, Times(c, n, a));
    Chain(c, Times(c, m, Times(c, n, a)), Times(c, m, Identity()), Identity());
    Chain(c, Times(c, m * n, a), Times(c, m, Times(c, n, a)), Identity());
  }

  /** Two multiples that both vanish and differ by one: the point is the identity. */
  lemma KilledByNeighbours(c: Curve, n: nat, a: Point)
    requires Good(c) && OnCurve(c, a) && Kills(c, n, a) && Kills(c, n + 1, a)
    ensures Kills(c, 1, a)
  {
    hide OnCurve, Good, Add, Same;
    IdentityOnCurve(c);
    TimesOnCurve(c, n, a);
    TimesOnCurve(c, n + 1, a);
    TimesOnCurve(c, 1, a);
    SumLeft(c, Times(c, n, a), Identity(), a);
    assert Times(c, n + 1, a) == Add(c, Times(c, n, a), a);
    assert Times(c, 1, a) == Add(c, Identity(), a);
    SameSym(c, Times(c, n + 1, a), Times(c, 1, a));
    Chain(c, Times(c, 1, a), Times(c, n + 1, a), Identity());
  }

  /** If both a prime l and a number not divisible by it kill the point, it is the identity. */
  lemma PrimeKills(c: Curve, l: nat, n: nat, a: Point)
    requires Good(c) && OnCurve(c, a) && Prime(l) && Kills(c, l, a) && Kills(c, n, a) && !Cong(l, n, 0)
    ensures Kills(c, 1, a)
  {
    hide OnCurve, Good, Add, Same, Kills;
    var x := Inverse(l, n);
    var k: int :| n * x - 1 == k * l;
    ProductNonneg(n, x);
    MultipleKills(c, x, n, a);
    Swap(x, n);
    QuotientNonneg(l, n * x, k);
    MultipleKills(c, k, l, a);
    KilledByNeighbours(c, k * l, a);
  }

  /** The point is of order l: its vanishing multiples are those of l. */
  ghost predicate HasOrder(c: Curve, l: nat, a: Point)
    requires c.p > 0 && l > 0
  {
    forall n: nat :: Kills(c, n, a) <==> n % l == 0
  }

  /** A prime l that kills a point which 8 does not kill is its order. */
  lemma OrderIs(c: Curve, l: nat, a: Point)
    requires Good(c) && OnCurve(c, a) && Prime(l) && Kills(c, l, a) && !Kills(c, 8, a)
    ensures HasOrder(c, l, a)
  {
    hide OnCurve, Good, Kills;
    forall n: nat ensures Kills(c, n, a) <==> n % l == 0 {
      CongIffRem(l, n, 0);
      if n % l == 0 {
        MultipleKills(c, n / l, l, a);
        assert n == (n / l) * l;
      } else if Kills(c, n, a) {
        PrimeKills(c, l, n, a);
        MultipleKills(c, 8, 1, a);
      }
    }
  }

  lemma MultipleOfMultiple(c: Curve, n: nat, s: nat, b: Point)
    requires Good(c) && OnCurve(c, b)
    ensures n * s >= 0 && (Kills(c, n, Times(c, s, b)) <==> Kills(c, n * s, b))
  {
    hide OnCurve, Good, Add, Same, Times;
    TimesTimes(c, n, s, b);
    TimesOnCurve(c, s, b);
    TimesOnCurve(c, n, Times(c, s, b));
    TimesOnCurve(c, n * s, b);
    var u, v := Times(c, n * s, b), Times(c, n, Times(c, s, b));
    SameSym(c, u, v);
    if Same(c, v, Identity()) { Chain(c, u, v, Identity()); }
    if Same(c, u, Identity()) { Chain(c, v, u, Identity()); }
  }

  /** Keys as they are generated: a multiple s of a point of prime order l, l not dividing s, has order l too. */
  lemma MultipleHasOrder(c: Curve, l: nat, s: nat, b: Point)
    requires Good(c) && OnCurve(c, b) && Prime(l) && HasOrder(c, l, b) && s % l != 0
    ensures HasOrder(c, l, Times(c, s, b))
  {
    hide OnCurve, Good, Kills, Times, Cong;
    forall n: nat ensures Kills(c, n, Times(c, s, b)) <==> n % l == 0 {
      MultipleOfMultiple(c, n, s, b);
      CongIffRem(l, n, 0);
      CongIffRem(l, s, 0);
      CongIffRem(l, n * s, 0);
      if (n * s) % l == 0 { Euclid(l, n, s); }
      if n % l == 0 { ZeroTimes(l, s, n); }
    }
  }
}
