/**
 Addition on the curve is associative, up to the Z a point is written with. Points with Z = 1 and T = XY come
 first, where the claim is a statement about polynomials; every point of the curve is the same as one of those.
 */
module EdwardsAssociative {
  import opened NumberTheory
  import opened Edwards
  import opened EdwardsGroup
  import opened AssociativityIdentity

  /** A point of the curve with Z = 1 and, without reduction, T = XY. */
  ghost predicate Affine(c: Curve, a: Point) {
    a.z == 1 && a.t == a.x * a.y && Cong(c.p, Miss(c, a), 0)
  }

  /** By how much a point with Z = 1 misses the curve equation. */
  function Miss(c: Curve, a: Point): int {
    1 + c.d * (a.t * a.t) - (a.y * a.y - a.x * a.x)
  }

  /** The sum without reduction. */
  function RawSum(c: Curve, a: Point, b: Point): Point {
    Point(E(a, b) * F(c, a, b), G(c, a, b) * H(a, b), F(c, a, b) * G(c, a, b), E(a, b) * H(a, b))
  }

  function SquareSum(a: Point): int { a.x * a.x + a.y * a.y }

  // ---- The parts of a sum of three ----

  lemma RawDenominators(c: Curve, a: Point, b: Point, k: Point)
    requires Affine(c, a) && Affine(c, b) && Affine(c, k)
    ensures G(c, RawSum(c, a, b), k) == Wing(c.d, k.t, a.t, b.t, SquareSum(b), SquareSum(a))
    ensures F(c, RawSum(c, a, b), k) == Wing(c.d, -k.t, a.t, b.t, SquareSum(b), SquareSum(a))
  {
    hide Cong, E, F, G, H;
    var eh, fg := E(a, b) * H(a, b), F(c, a, b) * G(c, a, b);
    RawProducts(c, a, b);
    RawLast(c, RawSum(c, a, b), k);
    Swap(eh, k.t);
    assert -k.t * eh == -(k.t * eh);
    Negated(c.d, k.t * eh, 0);
  }

  lemma RawProducts(c: Curve, a: Point, b: Point)
    requires Affine(c, a) && Affine(c, b)
    ensures E(a, b) * H(a, b) == a.t * SquareSum(b) + b.t * SquareSum(a)
    ensures F(c, a, b) * G(c, a, b) == 1 - (c.d * c.d) * ((b.t * b.t) * (a.t * a.t))
  {
    hide Cong;
    SquaresEH(a.x, a.y, b.x, b.y);
    SquaresFG(1, a.t, 1, b.t, c.d);
    Swap(a.t * a.t, b.t * b.t);
  }

  lemma RawLast(c: Curve, s: Point, k: Point)
    requires k.z == 1
    ensures G(c, s, k) == s.z + c.d * (s.t * k.t) && F(c, s, k) == s.z - c.d * (s.t * k.t)
  {
  }

  lemma RawNumerators(c: Curve, a: Point, b: Point, k: Point)
    requires Affine(c, a) && Affine(c, b)
    ensures var e, h, f, g := a.x * k.y + a.y * k.x, a.y * k.y + a.x * k.x, a.y * k.x - a.x * k.y,
            a.x * k.x - a.y * k.y;
            && E(RawSum(c, a, b), k) == (b.y * e + b.x * h) + (c.d * (a.t * b.t)) * (b.y * f + b.x * g)
            && H(RawSum(c, a, b), k) == (b.y * h + b.x * e) + (c.d * (a.t * b.t)) * (-(b.y * g) - b.x * f)
  {
    hide Cong;
    var e, h, x := E(a, b), H(a, b), c.d * (a.t * b.t);
    Spreading(e, h, k.x, k.y, x);
    MixedSums(a.x, a.y, b.x, b.y, k.x, k.y);
    assert F(c, a, b) == 1 - x && G(c, a, b) == 1 + x;
  }

  lemma Spreading(e: int, h: int, x: int, y: int, m: int)
    ensures (e * (1 - m)) * y + x * ((1 + m) * h) == (e * y + x * h) + m * (x * h - e * y)
    ensures ((1 + m) * h) * y + (e * (1 - m)) * x == (h * y + e * x) + m * (h * y - e * x)
  {
  }

  lemma MixedSums(x1: int, y1: int, u: int, v: int, x3: int, y3: int)
    ensures var e, h := x1 * v + u * y1, y1 * v + x1 * u;
            && e * y3 + x3 * h == v * (x1 * y3 + y1 * x3) + u * (y1 * y3 + x1 * x3)
            && x3 * h - e * y3 == v * (y1 * x3 - x1 * y3) + u * (x1 * x3 - y1 * y3)
            && h * y3 + e * x3 == v * (y1 * y3 + x1 * x3) + u * (x1 * y3 + y1 * x3)
            && h * y3 - e * x3 == -(v * (x1 * x3 - y1 * y3)) - u * (y1 * x3 - x1 * y3)
  {
  }

  // ---- The cross products agree ----

  /** What the outer points contribute, with the defects of their equations kept as they are. */
  lemma OuterFacts(c: Curve, a: Point, k: Point)
    requires Affine(c, a) && Affine(c, k)
    ensures var e, h, f, g := a.x * k.y + a.y * k.x, a.y * k.y + a.x * k.x, a.y * k.x - a.x * k.y,
            a.x * k.x - a.y * k.y;
            var m, n, r, s := a.t, k.t, SquareSum(a), SquareSum(k);
            var z := (a.y * a.y - a.x * a.x) - (k.y * k.y - k.x * k.x);
            && f * g == m * s - n * r && e * h == m * s + n * r
            && f * (r + s) - 2 * (g * (m - n)) == e * z && 2 * (f * (m + n)) + g * (s - r) == h * z
            && c.d * ((m + n) * (m - n)) == z + (Miss(c, a) - Miss(c, k))
            && Cong(c.p, Miss(c, a) - Miss(c, k), 0)
            && Cong(c.p, e * g + (m + n) * (1 + c.d * (m * n)), 0) &&
               Cong(c.p, h * f + (m - n) * (1 - c.d * (m * n)), 0)
  {
    hide Cong;
    var m, n, u, v := a.t, k.t, Miss(c, a), Miss(c, k);
    OuterProducts(a.x, a.y, k.x, k.y);
    OuterSums(a.x, a.y, k.x, k.y);
    DifferenceOfSquares(m, n);
    Split(c.d, m * m, -(n * n));
    Negated(c.d, n * n, 0);
    CongAdd(c.p, u, 0, v, 0);
    MixedTerms(m, n, c.d, a.y * a.y - a.x * a.x, k.y * k.y - k.x * k.x, u, v);
    ZeroTimes(c.p, m, v);
    ZeroTimes(c.p, n, u);
    CongAdd(c.p, m * v, 0, n * u, 0);
  }

  lemma MixedTerms(m: int, n: int, d: int, z1: int, z3: int, u: int, v: int)
    requires 1 + d * (m * m) - z1 == u && 1 + d * (n * n) - z3 == v
    ensures -(m * z3 + n * z1) + (m + n) * (1 + d * (m * n)) == m * v + n * u
    ensures n * z1 - m * z3 + (m - n) * (1 - d * (m * n)) == m * v - n * u
  {
    assert m * (d * (n * n)) == n * (d * (m * n)) && n * (d * (m * m)) == m * (d * (m * n));
    assert m * (1 + d * (n * n) - z3) == m + m * (d * (n * n)) - m * z3;
    assert n * (1 + d * (m * m) - z1) == n + n * (d * (m * m)) - n * z1;
    assert (m + n) * (1 + d * (m * n)) == m + n + m * (d * (m * n)) + n * (d * (m * n));
    assert (m - n) * (1 - d * (m * n)) == m - n - m * (d * (m * n)) + n * (d * (m * n));
  }

  lemma CongOfDifference(p: nat, a: int, b: int, k: int, rest: int)
    requires a - b == k * rest && Cong(p, rest, 0)
    ensures Cong(p, a, b)
  {
    hide Cong;
    ZeroTimes(p, k, rest);
    CongRefl(p, b);
    CongAdd(p, k * rest, 0, b, b);
  }

  lemma CrossX(c: Curve, a: Point, b: Point, k: Point)
    requires Affine(c, a) && Affine(c, b) && Affine(c, k)
    ensures Cong(c.p, E(RawSum(c, a, b), k) * G(c, RawSum(c, k, b), a),
            E(RawSum(c, k, b), a) * G(c, RawSum(c, a, b), k))
  {
    hide Cong, E, F, G, H, Wing, Affine, BothHalves, TurnedHalves;
    var d, m, w, n, q, r, s, u, v := c.d, a.t, b.t, k.t, SquareSum(b), SquareSum(a), SquareSum(k), b.x, b.y;
    var e, h, f, g := a.x * k.y + a.y * k.x, a.y * k.y + a.x * k.x, a.y * k.x - a.x * k.y, a.x * k.x - a.y * k.y;
    RawDenominators(c, a, b, k);
    RawDenominators(c, k, b, a);
    RawNumerators(c, a, b, k);
    RawNumerators(c, k, b, a);
    OuterFacts(c, a, k);
    MiddleFacts(c, b);
    Crossed(d, e, h, f, g, m, n, w, q, r, s, u, v);
    PlainHalvesVanish(c.p, d, e, h, f, g, m, n, r, s, w, q, u, v,
                 (a.y * a.y - a.x * a.x) - (k.y * k.y - k.x * k.x), Miss(c, a) - Miss(c, k), Miss(c, b));
    CongOfDifference(c.p, E(RawSum(c, a, b), k) * G(c, RawSum(c, k, b), a),
        E(RawSum(c, k, b), a) * G(c, RawSum(c, a, b), k), d * w,
                     BothHalves(d, e, h, f, g, m, n, w, q, r, s, u, v));
  }

  lemma MiddleFacts(c: Curve, b: Point)
    requires Affine(c, b)
    ensures b.t == b.x * b.y && Cong(c.p, Miss(c, b), 0) && 1 + c.d * (b.t * b.t) == b.y * b.y - b.x * b.x + Miss(c, b)
  {
  }

  lemma CrossY(c: Curve, a: Point, b: Point, k: Point)
    requires Affine(c, a) && Affine(c, b) && Affine(c, k)
    ensures Cong(c.p, H(RawSum(c, a, b), k) * F(c, RawSum(c, k, b), a),
            H(RawSum(c, k, b), a) * F(c, RawSum(c, a, b), k))
  {
    hide Cong, E, F, G, H, Wing, Affine, BothHalves, TurnedHalves;
    var d, m, w, n, q, r, s, u, v := c.d, a.t, b.t, k.t, SquareSum(b), SquareSum(a), SquareSum(k), b.x, b.y;
    var e, h, f, g := a.x * k.y + a.y * k.x, a.y * k.y + a.x * k.x, a.y * k.x - a.x * k.y, a.x * k.x - a.y * k.y;
    RawDenominators(c, a, b, k);
    RawDenominators(c, k, b, a);
    RawNumerators(c, a, b, k);
    RawNumerators(c, k, b, a);
    OuterFacts(c, a, k);
    MiddleFacts(c, b);
    CrossedTurned(d, e, h, f, g, m, n, w, q, r, s, u, v);
    TurnedHalvesVanish(c.p, d, e, h, f, g, m, n, r, s, w, q, u, v,
                       (a.y * a.y - a.x * a.x) - (k.y * k.y - k.x * k.x), Miss(c, a) - Miss(c, k), Miss(c, b));
    CongOfDifference(c.p, H(RawSum(c, a, b), k) * F(c, RawSum(c, k, b), a),
        H(RawSum(c, k, b), a) * F(c, RawSum(c, a, b), k), d * w,
                     TurnedHalves(d, e, h, f, g, m, n, w, q, r, s, u, v));
  }

  // ---- Sums of three points with Z = 1 ----

  lemma FourfoldParts(c: Curve, s: Point, raw: Point, k: Point)
    requires Cong(c.p, s.x, 4 * raw.x) && Cong(c.p, s.y, 4 * raw.y) && Cong(c.p, s.z, 4 * raw.z) &&
             Cong(c.p, s.t, 4 * raw.t)
    ensures Cong(c.p, E(s, k), 4 * E(raw, k)) && Cong(c.p, H(s, k), 4 * H(raw, k))
    ensures Cong(c.p, F(c, s, k), 4 * F(c, raw, k)) && Cong(c.p, G(c, s, k), 4 * G(c, raw, k))
  {
    hide Cong;
    Fourfold(c.p, s.x, raw.x, k.y, s.y, raw.y, k.x);
    Fourfold(c.p, s.y, raw.y, k.y, s.x, raw.x, k.x);
    Fourfold(c.p, s.z, raw.z, k.z, s.t, raw.t, c.d * k.t);
    Fourfold(c.p, s.z, raw.z, k.z, s.t, raw.t, -c.d * k.t);
    MoveOut(s.t, c.d, k.t);
    MoveOut(raw.t, c.d, k.t);
    MinusOut(s.t, c.d, k.t);
    MinusOut(raw.t, c.d, k.t);
  }

  lemma Fourfold(p: nat, x: int, x': int, m: int, y: int, y': int, n: int)
    requires Cong(p, x, 4 * x') && Cong(p, y, 4 * y')
    ensures Cong(p, x * m + y * n, 4 * (x' * m + y' * n)) && Cong(p, x * m + n * y, 4 * (x' * m + n * y'))
  {
    hide Cong;
    CongScale(p, m, x, 4 * x');
    CongScale(p, n, y, 4 * y');
    CongAdd(p, m * x, m * (4 * x'), n * y, n * (4 * y'));
    assert m * (4 * x') + n * (4 * y') == 4 * (x' * m + y' * n);
  }

  lemma AffineAssociates(c: Curve, a: Point, b: Point, k: Point)
    requires c.p > 0 && Affine(c, a) && Affine(c, b) && Affine(c, k)
    ensures Same(c, Add(c, Add(c, a, b), k), Add(c, Add(c, k, b), a))
  {
    hide Cong, E, F, G, H, Add, Affine;
    var s, s', raw, raw' := Add(c, a, b), Add(c, k, b), RawSum(c, a, b), RawSum(c, k, b);
    SumIs(c, a, b);
    SumIs(c, k, b);
    FourfoldParts(c, s, raw, k);
    FourfoldParts(c, s', raw', a);
    CrossX(c, a, b, k);
    CrossY(c, a, b, k);
    CrossSixteen(c.p, E(s, k), G(c, s, k), E(s', a), G(c, s', a), E(raw, k), G(c, raw, k), E(raw', a), G(c, raw', a));
    CrossSixteen(c.p, H(s, k), F(c, s, k), H(s', a), F(c, s', a), H(raw, k), F(c, raw, k), H(raw', a), F(c, raw', a));
    SameByParts(c, s, k, s', a);
  }

  // ---- All points ----

  /** The same point with Z = 1. */
  lemma Flattened(c: Curve, a: Point) returns (b: Point)
    requires Good(c) && OnCurve(c, a)
    ensures OnCurve(c, b) && Same(c, a, b) && Affine(c, Unwrapped(b)) && Cong(c.p, b.t, b.x * b.y)
  {
    hide Cong, Good, Mod;
    var p := c.p;
    assert Prime(p) by { PrimeOf(c); }
    hide Prime;
    var i := Inverse(p, a.z);
    var x, y := Mod(p, a.x * i), Mod(p, a.y * i);
    b := Point(x, y, 1, Mod(p, x * y));
    ModIs(p, a.x * i);
    ModIs(p, a.y * i);
    ModIs(p, x * y);
    Divided(p, a.x, a.z, i, x);
    Divided(p, a.y, a.z, i, y);
    FlatOnCurve(c, a, i, x, y);
    IdentityOnCurve(c);
    CongRefl(p, b.t);
    CongSym(p, b.t, x * y);
    CongMul(p, b.t, x * y, b.t, x * y);
    CongScale(p, c.d, b.t * b.t, (x * y) * (x * y));
    CongRefl(p, 1);
    CongAdd(p, 1, 1, c.d * (b.t * b.t), c.d * ((x * y) * (x * y)));
    CongSym(p, 1 + c.d * (b.t * b.t), 1 + c.d * ((x * y) * (x * y)));
    CongTrans(p, y * y - x * x, 1 + c.d * ((x * y) * (x * y)), 1 + c.d * (b.t * b.t));
    CongSym(p, y * y - x * x, 1 + c.d * ((x * y) * (x * y)));
    CongRefl(p, y * y - x * x);
    CongAdd(p, 1 + c.d * ((x * y) * (x * y)), y * y - x * x, y * y - x * x, y * y - x * x);
  }

  /** The point with T not reduced. */
  function Unwrapped(a: Point): Point { Point(a.x, a.y, a.z, a.x * a.y) }

  lemma PrimeOf(c: Curve)
    requires Good(c)
    ensures Prime(c.p)
  {
  }

  lemma Divided(p: nat, u: int, z: int, i: int, x: int)
    requires Cong(p, z * i, 1) && Cong(p, x, u * i)
    ensures Cong(p, u * 1, x * z) && Cong(p, x, i * u)
  {
    hide Cong;
    CongScale(p, z, x, u * i);
    CongScale(p, u, z * i, 1);
    assert z * (u * i) == u * (z * i);
    CongTrans(p, z * x, u * (z * i), u * 1);
    CongSym(p, z * x, u * 1);
    Swap(z, x);
    Swap(u, i);
  }

  lemma FlatOnCurve(c: Curve, a: Point, i: int, x: int, y: int)
    requires OnCurve(c, a) && Cong(c.p, a.z * i, 1) && Cong(c.p, x, i * a.x) && Cong(c.p, y, i * a.y)
    ensures Cong(c.p, y * y - x * x, 1 + c.d * ((x * y) * (x * y)))
  {
    hide Cong;
    var p, d, ii, t := c.p, c.d, i * i, i * a.t;
    // i^2 times the curve equation
    CongMul(p, x, i * a.x, x, i * a.x);
    CongMul(p, y, i * a.y, y, i * a.y);
    SquareOfProduct(i, a.x);
    SquareOfProduct(i, a.y);
    CongAdd(p, y * y, ii * (a.y * a.y), x * x, ii * (a.x * a.x));
    CongScale(p, ii, a.y * a.y - a.x * a.x, a.z * a.z + d * (a.t * a.t));
    assert ii * (a.y * a.y) - ii * (a.x * a.x) == ii * (a.y * a.y - a.x * a.x);
    CongTrans(p, y * y - x * x, ii * (a.y * a.y - a.x * a.x), ii * (a.z * a.z + d * (a.t * a.t)));
    // which is 1 + d t^2
    CongMul(p, a.z * i, 1, a.z * i, 1);
    SquareOfProduct(a.z, i);
    SquareOfProduct(i, a.t);
    UnderFactor(ii, a.z * a.z, d, a.t * a.t);
    CongRefl(p, d * (t * t));
    CongAdd(p, ii * (a.z * a.z), 1, d * (t * t), d * (t * t));
    CongTrans(p, y * y - x * x, ii * (a.z * a.z) + d * (t * t), 1 + d * (t * t));
    // with t = x y
    CongMul(p, x, i * a.x, y, i * a.y);
    Regroup(i, a.x, i, a.y);
    CongScale(p, ii, a.x * a.y, a.z * a.t);
    CongTrans(p, x * y, ii * (a.x * a.y), ii * (a.z * a.t));
    ProductOfInverse(p, i, a.z, a.t);
    CongTrans(p, x * y, ii * (a.z * a.t), t);
    CongSym(p, x * y, t);
    CongMul(p, t, x * y, t, x * y);
    CongScale(p, d, t * t, (x * y) * (x * y));
    CongRefl(p, 1);
    CongAdd(p, 1, 1, d * (t * t), d * ((x * y) * (x * y)));
    CongTrans(p, y * y - x * x, 1 + d * (t * t), 1 + d * ((x * y) * (x * y)));
  }

  lemma UnderFactor(k: int, a: int, d: int, b: int)
    ensures k * (a + d * b) == k * a + d * (k * b)
  {
  }

  lemma ProductOfInverse(p: nat, i: int, z: int, t: int)
    requires Cong(p, z * i, 1)
    ensures Cong(p, (i * i) * (z * t), i * t)
  {
    hide Cong;
    CongScale(p, i * t, z * i, 1);
    assert (i * t) * (z * i) == (i * i) * (z * t);
  }

  /** The sum does not depend on which T of its class a summand has. */
  lemma AnyT(c: Curve, a: Point, b: Point, k: Point)
    requires c.p > 0 && a.x == b.x && a.y == b.y && a.z == b.z && Cong(c.p, a.t, b.t)
    ensures Add(c, a, k) == Add(c, b, k)
  {
    hide Cong, Mod;
    var p, m := c.p, 2 * c.d * k.t;
    assert a.t * 2 * c.d * k.t == m * a.t && b.t * 2 * c.d * k.t == m * b.t;
    CongScale(p, m, a.t, b.t);
    ModIs(p, m * a.t);
    ModIs(p, m * b.t);
    CongTrans(p, Mod(p, m * a.t), m * a.t, m * b.t);
    CongTrans(p, Mod(p, m * a.t), m * b.t, Mod(p, m * b.t));
    CongReduced(p, Mod(p, m * a.t), Mod(p, m * b.t));
  }

  lemma AnyTs(c: Curve, a: Point, b: Point, k: Point, a': Point, b': Point, k': Point)
    requires c.p > 0 && a' == Unwrapped(a) && b' == Unwrapped(b) && k' == Unwrapped(k)
    requires Cong(c.p, a.t, a'.t) && Cong(c.p, b.t, b'.t) && Cong(c.p, k.t, k'.t)
    ensures Add(c, Add(c, a, b), k) == Add(c, Add(c, a', b'), k')
  {
    hide Cong, Add;
    AnyT(c, a, a', b);
    SumCommutes(c, a', b);
    AnyT(c, b, b', a');
    SumCommutes(c, b', a');
    var s := Add(c, a, b);
    SumCommutes(c, s, k);
    AnyT(c, k, k', s);
    SumCommutes(c, k', s);
  }

  lemma SumOfSames(c: Curve, a: Point, b: Point, k: Point, a': Point, b': Point, k': Point)
    requires Good(c) && OnCurve(c, a) && OnCurve(c, b) && OnCurve(c, k) && OnCurve(c, a') && OnCurve(c, b') &&
             OnCurve(c, k')
    requires Same(c, a, a') && Same(c, b, b') && Same(c, k, k')
    ensures Same(c, Add(c, Add(c, a, b), k), Add(c, Add(c, a', b'), k'))
  {
    hide OnCurve, Good, Add, Same;
    Closed(c, a, b);
    Closed(c, a', b);
    Closed(c, a', b');
    SumLeft(c, a, a', b);
    SumLeft(c, b, b', a');
    Chain(c, Add(c, a, b), Add(c, a', b), Add(c, a', b'));
    SumLeft(c, Add(c, a, b), Add(c, a', b'), k);
    SumLeft(c, k, k', Add(c, a', b'));
    Closed(c, Add(c, a', b'), k);
    Chain(c, Add(c, Add(c, a, b), k), Add(c, Add(c, a', b'), k), Add(c, Add(c, a', b'), k'));
  }

  /** Addition is associative. */
  lemma SumAssociates(c: Curve, a: Point, b: Point, k: Point)
    requires Good(c) && OnCurve(c, a) && OnCurve(c, b) && OnCurve(c, k)
    ensures Same(c, Add(c, Add(c, a, b), k), Add(c, a, Add(c, b, k)))
  {
    hide Cong, OnCurve, Good, Add, Same, Affine, Unwrapped;
    var a' := Flattened(c, a);
    var b' := Flattened(c, b);
    var k' := Flattened(c, k);
    SumOfSames(c, a, b, k, a', b', k');
    SameSym(c, a, a');
    SameSym(c, b, b');
    SameSym(c, k, k');
    SumOfSames(c, k', b', a', k, b, a);
    UnwrappedIs(a');
    UnwrappedIs(b');
    UnwrappedIs(k');
    AnyTs(c, a', b', k', Unwrapped(a'), Unwrapped(b'), Unwrapped(k'));
    AnyTs(c, k', b', a', Unwrapped(k'), Unwrapped(b'), Unwrapped(a'));
    AffineAssociates(c, Unwrapped(a'), Unwrapped(b'), Unwrapped(k'));
    SumCommutes(c, Add(c, k, b), a);
    SumCommutes(c, k, b);
    Closed(c, a', b');
    Closed(c, Add(c, a', b'), k');
    Closed(c, k', b');
    Closed(c, Add(c, k', b'), a');
    Chain(c, Add(c, Add(c, a, b), k), Add(c, Add(c, a', b'), k'), Add(c, Add(c, k', b'), a'));
    Chain(c, Add(c, Add(c, a, b), k), Add(c, Add(c, k', b'), a'), Add(c, Add(c, k, b), a));
  }

  lemma UnwrappedIs(a: Point)
    ensures Unwrapped(a).t == a.x * a.y
  {
  }
}
