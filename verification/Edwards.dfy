/**
 The twisted Edwards curve -x^2 + y^2 = 1 + d x^2 y^2 over the integers modulo p, in the extended coordinates
 of section 5.1.4 of RFC 8032: x = X/Z, y = Y/Z and xy = T/Z. With p a prime of the form 8k + 5 and d not a
 square, the addition formula is complete: it stays on the curve and never divides by zero.
 */
module Edwards {
  import opened NumberTheory
  import opened QuadraticResidues

  datatype Curve = Curve(p: nat, d: int)

  datatype Point = Point(x: int, y: int, z: int, t: int)

  // ---- Arithmetic of the source ----

  /** `n % p` on bigints: truncating, so of the sign of n. */
  function Truncated(p: nat, n: int): int
    requires p > 0
  {
    if n >= 0 then n % p else -((-n) % p)
  }

  function Mod(p: nat, n: int): int
    requires p > 0
  {
    var r := Truncated(p, n);
    if r < 0 then r + p else r
  }

  lemma ModIs(p: nat, n: int)
    requires p > 0
    ensures 0 <= Mod(p, n) < p && Cong(p, Mod(p, n), n) && Cong(p, n, Mod(p, n))
  {
    if n >= 0 {
      CongRem(p, n);
    } else {
      var m := -n;
      CongRem(p, m);
      CongRefl(p, 0);
      CongRefl(p, p);
      CongBy(p, p, 0, 1);
      CongAdd(p, 0, 0, m % p, m);
      if m % p > 0 { CongAdd(p, 0 - m % p, 0 - m, p, 0); }
    }
    CongSym(p, Mod(p, n), n);
  }

  function Identity(): Point {
    Point(0, 1, 1, 0)
  }

  function Add(c: Curve, a: Point, b: Point): Point
    requires c.p > 0
  {
    var p := c.p;
    var aa := Mod(p, (a.y - a.x) * (b.y - b.x));
    var bb := Mod(p, (a.y + a.x) * (b.y + b.x));
    var cc := Mod(p, a.t * 2 * c.d * b.t);
    var dd := Mod(p, a.z * 2 * b.z);
    var e, f, g, h := bb - aa, dd - cc, dd + cc, bb + aa;
    Point(Mod(p, e * f), Mod(p, g * h), Mod(p, f * g), Mod(p, e * h))
  }

  // ---- The curve ----

  predicate Reduced(c: Curve, a: Point) {
    0 <= a.x < c.p && 0 <= a.y < c.p && 0 <= a.z < c.p && 0 <= a.t < c.p
  }

  /** A point of the curve in extended coordinates. */
  ghost predicate OnCurve(c: Curve, a: Point) {
    && Reduced(c, a)
    && !Cong(c.p, a.z, 0)
    && Cong(c.p, a.x * a.y, a.z * a.t)
    && Cong(c.p, a.y * a.y - a.x * a.x, a.z * a.z + c.d * (a.t * a.t))
  }

  /** p is a prime of the form 8k + 5, and d is not a square modulo p. */
  ghost predicate Good(c: Curve): (good: bool)
    ensures good ==> c.p > 4
  {
    Prime(c.p) && c.p % 8 == 5 && !Square(c.p, c.d)
  }

  /** The same point of the plane, whatever Z it is written with. */
  ghost predicate Same(c: Curve, a: Point, b: Point) {
    Cong(c.p, a.x * b.z, b.x * a.z) && Cong(c.p, a.y * b.z, b.y * a.z)
  }

  // ---- The sum, without reduction ----

  function E(a: Point, b: Point): int { a.x * b.y + b.x * a.y }
  function H(a: Point, b: Point): int { a.y * b.y + a.x * b.x }
  function F(c: Curve, a: Point, b: Point): int { a.z * b.z - c.d * (a.t * b.t) }
  function G(c: Curve, a: Point, b: Point): int { a.z * b.z + c.d * (a.t * b.t) }

  lemma SumParts(c: Curve, a: Point, b: Point, aa: int, bb: int, cc: int, dd: int)
    requires Cong(c.p, aa, (a.y - a.x) * (b.y - b.x)) && Cong(c.p, bb, (a.y + a.x) * (b.y + b.x))
    requires Cong(c.p, cc, a.t * 2 * c.d * b.t) && Cong(c.p, dd, a.z * 2 * b.z)
    ensures Cong(c.p, bb - aa, 2 * E(a, b)) && Cong(c.p, bb + aa, 2 * H(a, b))
    ensures Cong(c.p, dd - cc, 2 * F(c, a, b)) && Cong(c.p, dd + cc, 2 * G(c, a, b))
  {
    CongAdd(c.p, bb, (a.y + a.x) * (b.y + b.x), aa, (a.y - a.x) * (b.y - b.x));
    CongAdd(c.p, dd, a.z * 2 * b.z, cc, a.t * 2 * c.d * b.t);
    SumPartsExactly(a.x, a.y, a.z, a.t, b.x, b.y, b.z, b.t, c.d);
  }

  lemma SumPartsExactly(x1: int, y1: int, z1: int, t1: int, x2: int, y2: int, z2: int, t2: int, d: int)
    ensures (y1 + x1) * (y2 + x2) - (y1 - x1) * (y2 - x2) == 2 * (x1 * y2 + x2 * y1)
    ensures (y1 + x1) * (y2 + x2) + (y1 - x1) * (y2 - x2) == 2 * (y1 * y2 + x1 * x2)
    ensures z1 * 2 * z2 - t1 * 2 * d * t2 == 2 * (z1 * z2 - d * (t1 * t2))
    ensures z1 * 2 * z2 + t1 * 2 * d * t2 == 2 * (z1 * z2 + d * (t1 * t2))
  {
  }

  lemma TimesFour(u: int, v: int)
    ensures (2 * u) * (2 * v) == 4 * (u * v)
  {
  }

  lemma ModOfProduct(p: nat, m: int, n: int, u: int, v: int)
    requires p > 0 && Cong(p, m, 2 * u) && Cong(p, n, 2 * v)
    ensures 0 <= Mod(p, m * n) < p && Cong(p, Mod(p, m * n), 4 * (u * v))
  {
    CongMul(p, m, 2 * u, n, 2 * v);
    TimesFour(u, v);
    ModIs(p, m * n);
    CongTrans(p, Mod(p, m * n), m * n, 4 * (u * v));
  }

  /** What the reduced sum is congruent to. */
  lemma SumIs(c: Curve, a: Point, b: Point)
    requires c.p > 0
    ensures var s := Add(c, a, b);
            && Reduced(c, s)
            && Cong(c.p, s.x, 4 * (E(a, b) * F(c, a, b)))
            && Cong(c.p, s.y, 4 * (G(c, a, b) * H(a, b)))
            && Cong(c.p, s.z, 4 * (F(c, a, b) * G(c, a, b)))
            && Cong(c.p, s.t, 4 * (E(a, b) * H(a, b)))
  {
    hide Mod, E, F, G, H;
    var p := c.p;
    var aa := Mod(p, (a.y - a.x) * (b.y - b.x));
    var bb := Mod(p, (a.y + a.x) * (b.y + b.x));
    var cc := Mod(p, a.t * 2 * c.d * b.t);
    var dd := Mod(p, a.z * 2 * b.z);
    ModIs(p, (a.y - a.x) * (b.y - b.x));
    ModIs(p, (a.y + a.x) * (b.y + b.x));
    ModIs(p, a.t * 2 * c.d * b.t);
    ModIs(p, a.z * 2 * b.z);
    SumParts(c, a, b, aa, bb, cc, dd);
    ModOfProduct(p, bb - aa, dd - cc, E(a, b), F(c, a, b));
    ModOfProduct(p, dd + cc, bb + aa, G(c, a, b), H(a, b));
    ModOfProduct(p, dd - cc, dd + cc, F(c, a, b), G(c, a, b));
    ModOfProduct(p, bb - aa, bb + aa, E(a, b), H(a, b));
  }

  // ---- XY = ZT ----

  lemma RegroupSum(e: int, f: int, g: int, h: int)
    ensures (4 * (e * f)) * (4 * (g * h)) == (4 * (f * g)) * (4 * (e * h))
  {
    Regroup(4 * e, 4 * g, f, h);
    assert (4 * (e * f)) * (4 * (g * h)) == 16 * (e * f * g * h);
    assert (4 * (f * g)) * (4 * (e * h)) == 16 * (e * f * g * h);
  }

  lemma SumKeepsT(c: Curve, a: Point, b: Point)
    requires c.p > 0
    ensures var s := Add(c, a, b); Cong(c.p, s.x * s.y, s.z * s.t)
  {
    hide E, F, G, H, Add;
    var s := Add(c, a, b);
    var e, f, g, h := E(a, b), F(c, a, b), G(c, a, b), H(a, b);
    SumIs(c, a, b);
    CongMul(c.p, s.x, 4 * (e * f), s.y, 4 * (g * h));
    CongMul(c.p, s.z, 4 * (f * g), s.t, 4 * (e * h));
    RegroupSum(e, f, g, h);
    CongSym(c.p, s.z * s.t, (4 * (f * g)) * (4 * (e * h)));
    CongTrans(c.p, s.x * s.y, (4 * (e * f)) * (4 * (g * h)), s.z * s.t);
  }

  // ---- The curve equation ----

  /**
   The defect of the curve equation at the sum, in terms of A = Y^2 - X^2, S = X^2 + Y^2 and C = XY of the
   summands.
   */
  function Defect(w: int, m: int, q: int, d: int, aa: int, plus: int, eh: int): int {
    w * aa + 2 * (d * m) * plus - q * q - d * (eh * eh)
  }

  lemma SquaresEH(x1: int, y1: int, x2: int, y2: int)
    ensures var e, h := x1 * y2 + x2 * y1, y1 * y2 + x1 * x2;
            && h * h - e * e == (y1 * y1 - x1 * x1) * (y2 * y2 - x2 * x2)
            && h * h + e * e == (x1 * x1 + y1 * y1) * (x2 * x2 + y2 * y2) + 4 * ((x1 * y1) * (x2 * y2))
            && e * h == (x1 * y1) * (x2 * x2 + y2 * y2) + (x2 * y2) * (x1 * x1 + y1 * y1)
  {
  }

  lemma SquaresFG(z1: int, t1: int, z2: int, t2: int, d: int)
    ensures var f, g := z1 * z2 - d * (t1 * t2), z1 * z2 + d * (t1 * t2);
            var w := (z1 * z1) * (z2 * z2) + (d * d) * ((t1 * t1) * (t2 * t2));
            var m := (z1 * t1) * (z2 * t2);
            && f * f == w - 2 * (d * m)
            && g * g == w + 2 * (d * m)
            && f * g == (z1 * z1) * (z2 * z2) - (d * d) * ((t1 * t1) * (t2 * t2))
  {
  }

  lemma DefectIs(e: int, f: int, g: int, h: int, w: int, m: int, d: int)
    requires f * f == w - 2 * (d * m) && g * g == w + 2 * (d * m)
    ensures (g * h) * (g * h) - (e * f) * (e * f) - (f * g) * (f * g) - d * ((e * h) * (e * h)) ==
            Defect(w, m, f * g, d, h * h - e * e, h * h + e * e, e * h)
  {
    var dm := d * m;
    assert (g * h) * (g * h) == (g * g) * (h * h);
    assert (e * f) * (e * f) == (f * f) * (e * e);
    assert (w + 2 * dm) * (h * h) - (w - 2 * dm) * (e * e) == w * (h * h - e * e) + 2 * dm * (h * h + e * e);
  }

  lemma SquareOfS(x: int, y: int)
    ensures (x * x + y * y) * (x * x + y * y) == (y * y - x * x) * (y * y - x * x) + 4 * ((x * y) * (x * y))
  {
  }

  /** With C replaced by N = ZT and the squares of S by what they are, nothing is left. */
  lemma DefectExpands(w: int, q: int, d: int, aa: int, n1: int, n2: int, s1: int, s2: int)
    ensures Defect(w, n1 * n2, q, d, aa, s1 * s2 + 4 * (n1 * n2), n1 * s2 + n2 * s1) ==
            w * aa + 8 * (d * ((n1 * n1) * (n2 * n2))) - q * q - d * ((n1 * n1) * (s2 * s2) + (n2 * n2) * (s1 * s1))
  {
    assert (n1 * s2 + n2 * s1) * (n1 * s2 + n2 * s1) ==
        (n1 * n1) * (s2 * s2) + 2 * ((n1 * n2) * (s1 * s2)) + (n2 * n2) * (s1 * s1);
    assert (n1 * n2) * (n1 * n2) == (n1 * n1) * (n2 * n2);
    DistributeDefect(d, n1 * n2, s1 * s2, (n1 * n1) * (s2 * s2) + (n2 * n2) * (s1 * s1));
  }

  lemma DistributeDefect(d: int, n: int, s: int, r: int)
    ensures 2 * (d * n) * (s + 4 * n) - d * (r + 2 * (n * s)) == 8 * (d * (n * n)) - d * r
  {
  }

  lemma ProductOfSums(z1: int, t1: int, z2: int, t2: int, d: int)
    ensures (z1 + d * t1) * (z2 + d * t2) == z1 * z2 + (d * d) * (t1 * t2) + d * (z1 * t2 + z2 * t1)
  {
  }

  lemma WeightedSquare(z1: int, t1: int, z2: int, t2: int, d: int)
    ensures (z1 * t1) * ((z2 + d * t2) * (z2 + d * t2)) ==
            (z1 * z2) * (t1 * z2) + 2 * (d * ((z1 * z2) * (t1 * t2))) + (d * d) * ((t1 * t2) * (z1 * t2))
  {
    SquareOfSum(z2, d * t2);
    WeightedParts(z1 * t1, z2 * z2, z2 * (d * t2), (d * t2) * (d * t2));
    Regroup(z1, t1, z2, z2);
    FirstWeight(z1, t1, z2, t2, d);
    SecondWeight(z1, t1, t2, d);
  }

  lemma SquareOfSum(a: int, b: int)
    ensures (a + b) * (a + b) == a * a + 2 * (a * b) + b * b
  {
  }

  lemma FirstWeight(z1: int, t1: int, z2: int, t2: int, d: int)
    ensures (z1 * t1) * (z2 * (d * t2)) == d * ((z1 * z2) * (t1 * t2))
  {
    Regroup(z1, t1, z2, d * t2);
    assert t1 * (d * t2) == d * (t1 * t2);
    assert (z1 * z2) * (d * (t1 * t2)) == d * ((z1 * z2) * (t1 * t2));
  }

  lemma SecondWeight(z1: int, t1: int, t2: int, d: int)
    ensures (z1 * t1) * ((d * t2) * (d * t2)) == (d * d) * ((t1 * t2) * (z1 * t2))
  {
    Regroup(d, t2, d, t2);
    assert (z1 * t1) * (t2 * t2) == (t1 * t2) * (z1 * t2);
    MoveOut(z1 * t1, d * d, t2 * t2);
  }

  lemma MoveOut(k: int, d: int, t: int)
    ensures k * (d * t) == d * (k * t)
  {
  }

  lemma WeightedParts(k: int, a: int, b: int, c: int)
    ensures k * (a + 2 * b + c) == k * a + 2 * (k * b) + k * c
  {
  }

  lemma NothingLeftOf(u: int, dv: int, uv: int, duv: int, d: int, r: int)
    requires dv * u == duv && duv == d * (d * uv)
    ensures (u + dv) * (u + dv + d * r) + 8 * (d * uv) - (u - dv) * (u - dv)
            - d * ((u + dv) * r + 4 * (d * uv) + 8 * uv) == 0
  {
    var w := u + dv;
    assert w * (w + d * r) == w * w + d * (w * r);
    assert w * w - (u - dv) * (u - dv) == 4 * (dv * u);
    assert d * (w * r + 4 * (d * uv) + 8 * uv) == d * (w * r) + 4 * (d * (d * uv)) + 8 * (d * uv);
  }

  lemma NothingLeft(z1: int, t1: int, z2: int, t2: int, d: int)
    ensures var w, q := z1 * z2 + (d * d) * (t1 * t2), z1 * z2 - (d * d) * (t1 * t2);
            var a1, a2 := z1 + d * t1, z2 + d * t2;
            w * (a1 * a2) + 8 * (d * ((z1 * t1) * (z2 * t2))) - q * q
            - d * ((z1 * t1) * (a2 * a2 + 4 * (z2 * t2)) + (z2 * t2) * (a1 * a1 + 4 * (z1 * t1))) == 0
  {
    var u, v, r := z1 * z2, t1 * t2, z1 * t2 + z2 * t1;
    var a1, a2, w := z1 + d * t1, z2 + d * t2, u + (d * d) * v;
    ProductOfSums(z1, t1, z2, t2, d);
    WeightedSquare(z1, t1, z2, t2, d);
    WeightedSquare(z2, t2, z1, t1, d);
    Regroup(z1, t1, z2, t2);
    TwoWeights(u, v, z1 * t2, t1 * z2, d);
    DistributeFour(z1 * t1, z2 * t2, a1 * a1, a2 * a2);
    assert ((d * d) * v) * u == d * (d * (u * v));
    NothingLeftOf(u, (d * d) * v, u * v, ((d * d) * v) * u, d, r);
  }

  lemma TwoWeights(u: int, v: int, a: int, b: int, d: int)
    ensures (u * b + 2 * (d * (u * v)) + (d * d) * (v * a)) + (u * a + 2 * (d * (u * v)) + (d * d) * (v * b)) ==
            (u + (d * d) * v) * (a + b) + 4 * (d * (u * v))
  {
  }

  lemma DistributeFour(m: int, n: int, a: int, b: int)
    ensures m * (b + 4 * n) + n * (a + 4 * m) == m * b + n * a + 8 * (m * n)
  {
  }

  lemma DefectCong(p: nat, w: int, m: int, q: int, d: int, aa: int, plus: int, eh: int, aa': int, plus': int, eh': int)
    requires Cong(p, aa, aa') && Cong(p, plus, plus') && Cong(p, eh, eh')
    ensures Cong(p, Defect(w, m, q, d, aa, plus, eh), Defect(w, m, q, d, aa', plus', eh'))
  {
    CongScale(p, w, aa, aa');
    CongScale(p, 2 * (d * m), plus, plus');
    CongMul(p, eh, eh', eh, eh');
    CongScale(p, d, eh * eh, eh' * eh');
    CongAdd(p, w * aa, w * aa', 2 * (d * m) * plus, 2 * (d * m) * plus');
    CongRefl(p, q * q);
    CongAdd(p, w * aa + 2 * (d * m) * plus, w * aa' + 2 * (d * m) * plus', q * q, q * q);
    CongAdd(p, w * aa + 2 * (d * m) * plus - q * q, w * aa' + 2 * (d * m) * plus' - q * q, d * (eh * eh),
        d * (eh' * eh'));
  }

  /** The square of X^2 + Y^2 on the curve, in Z and T. */
  lemma SquareOfSOnCurve(c: Curve, a: Point)
    requires OnCurve(c, a)
    ensures var s, n, m := a.x * a.x + a.y * a.y, a.z * a.t, a.z * a.z + c.d * (a.t * a.t);
            Cong(c.p, s * s, m * m + 4 * (n * n))
  {
    var k := a.y * a.y - a.x * a.x;
    var n, m := a.z * a.t, a.z * a.z + c.d * (a.t * a.t);
    SquareOfS(a.x, a.y);
    CongMul(c.p, k, m, k, m);
    CongMul(c.p, a.x * a.y, n, a.x * a.y, n);
    CongScale(c.p, 4, (a.x * a.y) * (a.x * a.y), n * n);
    CongAdd(c.p, k * k, m * m, 4 * ((a.x * a.y) * (a.x * a.y)), 4 * (n * n));
  }

  lemma LastCong(p: nat, w: int, q: int, d: int, aa: int, n1: int, n2: int, u1: int, u2: int, v1: int, v2: int)
    requires Cong(p, u1, v1) && Cong(p, u2, v2)
    ensures Cong(p, w * aa + 8 * (d * (n1 * n2)) - q * q - d * (n1 * u2 + n2 * u1),
                    w * aa + 8 * (d * (n1 * n2)) - q * q - d * (n1 * v2 + n2 * v1))
  {
    CongScale(p, n1, u2, v2);
    CongScale(p, n2, u1, v1);
    CongAdd(p, n1 * u2, n1 * v2, n2 * u1, n2 * v1);
    CongScale(p, d, n1 * u2 + n2 * u1, n1 * v2 + n2 * v1);
    CongRefl(p, w * aa + 8 * (d * (n1 * n2)) - q * q);
    CongAdd(p, w * aa + 8 * (d * (n1 * n2)) - q * q, w * aa + 8 * (d * (n1 * n2)) - q * q, d * (n1 * u2 + n2 * u1),
        d * (n1 * v2 + n2 * v1));
  }

  /** The defect with Y^2 - X^2 and XY replaced by what they are on the curve. */
  function DefectOnCurve(c: Curve, a: Point, b: Point): int {
    var d := c.d;
    var z1, t1, z2, t2 := a.z * a.z, a.t * a.t, b.z * b.z, b.t * b.t;
    var n1, n2, s1, s2 := a.z * a.t, b.z * b.t, a.x * a.x + a.y * a.y, b.x * b.x + b.y * b.y;
    Defect(z1 * z2 + (d * d) * (t1 * t2), n1 * n2, z1 * z2 - (d * d) * (t1 * t2), d,
           (z1 + d * t1) * (z2 + d * t2), s1 * s2 + 4 * (n1 * n2), n1 * s2 + n2 * s1)
  }

  lemma DefectReplaced(c: Curve, a: Point, b: Point)
    requires OnCurve(c, a) && OnCurve(c, b)
    ensures var e, f, g, h := E(a, b), F(c, a, b), G(c, a, b), H(a, b);
            Cong(c.p, (g * h) * (g * h) - (e * f) * (e * f) - (f * g) * (f * g) - c.d * ((e * h) * (e * h)),
                DefectOnCurve(c, a, b))
  {
    hide Defect, Cong;
    var p, d := c.p, c.d;
    var z1, t1, z2, t2 := a.z * a.z, a.t * a.t, b.z * b.z, b.t * b.t;
    var n1, n2, s1, s2 := a.z * a.t, b.z * b.t, a.x * a.x + a.y * a.y, b.x * b.x + b.y * b.y;
    var c1, c2, k1, k2 := a.x * a.y, b.x * b.y, a.y * a.y - a.x * a.x, b.y * b.y - b.x * b.x;
    var m1, m2 := z1 + d * t1, z2 + d * t2;
    SquaresEH(a.x, a.y, b.x, b.y);
    SquaresFG(a.z, a.t, b.z, b.t, d);
    DefectIs(E(a, b), F(c, a, b), G(c, a, b), H(a, b), z1 * z2 + (d * d) * (t1 * t2), n1 * n2, d);
    CongMul(p, k1, m1, k2, m2);
    CongMul(p, c1, n1, c2, n2);
    CongScale(p, 4, c1 * c2, n1 * n2);
    CongRefl(p, s1 * s2);
    CongAdd(p, s1 * s2, s1 * s2, 4 * (c1 * c2), 4 * (n1 * n2));
    CongRefl(p, s2);
    CongRefl(p, s1);
    CongMul(p, c1, n1, s2, s2);
    CongMul(p, c2, n2, s1, s1);
    CongAdd(p, c1 * s2, n1 * s2, c2 * s1, n2 * s1);
    DefectCong(p, z1 * z2 + (d * d) * (t1 * t2), n1 * n2, z1 * z2 - (d * d) * (t1 * t2), d,
               k1 * k2, s1 * s2 + 4 * (c1 * c2), c1 * s2 + c2 * s1, m1 * m2, s1 * s2 + 4 * (n1 * n2),
               n1 * s2 + n2 * s1);
  }

  lemma DefectVanishes(c: Curve, a: Point, b: Point)
    requires OnCurve(c, a) && OnCurve(c, b)
    ensures Cong(c.p, DefectOnCurve(c, a, b), 0)
  {
    hide Defect, Cong;
    var p, d := c.p, c.d;
    var z1, t1, z2, t2 := a.z * a.z, a.t * a.t, b.z * b.z, b.t * b.t;
    var n1, n2, s1, s2 := a.z * a.t, b.z * b.t, a.x * a.x + a.y * a.y, b.x * b.x + b.y * b.y;
    var m1, m2 := z1 + d * t1, z2 + d * t2;
    var w, q := z1 * z2 + (d * d) * (t1 * t2), z1 * z2 - (d * d) * (t1 * t2);
    DefectExpands(w, q, d, m1 * m2, n1, n2, s1, s2);
    SquareOfSOnCurve(c, a);
    SquareOfSOnCurve(c, b);
    LastCong(p, w, q, d, m1 * m2, n1 * n1, n2 * n2, s1 * s1, s2 * s2, m1 * m1 + 4 * (n1 * n1), m2 * m2 + 4 * (n2 * n2));
    SquareOfProduct(a.z, a.t);
    SquareOfProduct(b.z, b.t);
    NothingLeft(z1, t1, z2, t2, d);
  }

  /** The unreduced sum of two points of the curve satisfies its equation. */
  lemma SumSatisfies(c: Curve, a: Point, b: Point)
    requires OnCurve(c, a) && OnCurve(c, b)
    ensures var e, f, g, h := E(a, b), F(c, a, b), G(c, a, b), H(a, b);
            Cong(c.p, (g * h) * (g * h) - (e * f) * (e * f) - (f * g) * (f * g) - c.d * ((e * h) * (e * h)), 0)
  {
    hide Cong, DefectOnCurve, E, F, G, H, OnCurve;
    var e, f, g, h := E(a, b), F(c, a, b), G(c, a, b), H(a, b);
    DefectReplaced(c, a, b);
    DefectVanishes(c, a, b);
    CongTrans(c.p, (g * h) * (g * h) - (e * f) * (e * f) - (f * g) * (f * g) - c.d * ((e * h) * (e * h)),
        DefectOnCurve(c, a, b), 0);
  }

  lemma SquareOfProduct(u: int, v: int)
    ensures (u * v) * (u * v) == (u * u) * (v * v)
  {
  }

  lemma SquareCong(p: nat, a: int, b: int)
    requires Cong(p, a, 4 * b)
    ensures Cong(p, a * a, 16 * (b * b))
  {
    CongMul(p, a, 4 * b, a, 4 * b);
    assert (4 * b) * (4 * b) == 16 * (b * b);
  }

  lemma EquationOf(p: nat, d: int, x: int, y: int, z: int, t: int, ef: int, gh: int, fg: int, eh: int)
    requires Cong(p, x, 4 * ef) && Cong(p, y, 4 * gh) && Cong(p, z, 4 * fg) && Cong(p, t, 4 * eh)
    requires Cong(p, gh * gh - ef * ef - fg * fg - d * (eh * eh), 0)
    ensures Cong(p, y * y - x * x, z * z + d * (t * t))
  {
    hide Cong;
    SquareCong(p, x, ef);
    SquareCong(p, y, gh);
    SquareCong(p, z, fg);
    SquareCong(p, t, eh);
    CongAdd(p, y * y, 16 * (gh * gh), x * x, 16 * (ef * ef));
    CongScale(p, d, t * t, 16 * (eh * eh));
    CongAdd(p, z * z, 16 * (fg * fg), d * (t * t), d * (16 * (eh * eh)));
    CongScale(p, 16, gh * gh - ef * ef - fg * fg - d * (eh * eh), 0);
    CongRefl(p, 16 * (fg * fg) + d * (16 * (eh * eh)));
    CongAdd(p, 16 * (gh * gh - ef * ef - fg * fg - d * (eh * eh)), 16 * 0,
            16 * (fg * fg) + d * (16 * (eh * eh)), 16 * (fg * fg) + d * (16 * (eh * eh)));
    assert 16 * (gh * gh - ef * ef - fg * fg - d * (eh * eh)) + (16 * (fg * fg) + d * (16 * (eh * eh))) ==
        16 * (gh * gh) - 16 * (ef * ef);
    CongSym(p, z * z + d * (t * t), 16 * (fg * fg) + d * (16 * (eh * eh)));
    CongTrans(p, y * y - x * x, 16 * (gh * gh) - 16 * (ef * ef), 16 * (fg * fg) + d * (16 * (eh * eh)));
    CongTrans(p, y * y - x * x, 16 * (fg * fg) + d * (16 * (eh * eh)), z * z + d * (t * t));
  }

  // ---- Completeness ----

  lemma OddPrime(c: Curve)
    requires Good(c)
    ensures !Cong(c.p, 2, 0) && !Cong(c.p, -1, 1)
  {
    if Cong(c.p, 2, 0) { CongReduced(c.p, 2, 0); }
    if Cong(c.p, -1, 1) {
      CongSym(c.p, -1, 1);
      CongRefl(c.p, 1);
      CongAdd(c.p, 1, -1, 1, 1);
      CongReduced(c.p, 2, 0);
    }
  }

  lemma EulerOf(c: Curve)
    requires Good(c)
    ensures Cong(c.p, Pow(c.d, (c.p - 1) / 2), -1)
  {
    hide Pow;
    EulerCriterion(c.p, c.d);
  }

  /** A square root of -1, by Euler's criterion for d. */
  function RootOfMinusOne(c: Curve): int
    requires c.p >= 5
  {
    Pow(c.d, (c.p - 1) / 4)
  }

  lemma RootSquared(c: Curve)
    requires Good(c)
    ensures c.p >= 5 && Cong(c.p, RootOfMinusOne(c) * RootOfMinusOne(c), -1)
  {
    var k := (c.p - 1) / 4;
    EulerOf(c);
    PowAdd(c.d, k, k);
    assert k + k == (c.p - 1) / 2;
  }

  lemma {:induction false} EvenPowerOfMinusOne(n: nat)
    ensures Pow(-1, 2 * n) == 1
  {
    if n > 0 {
      EvenPowerOfMinusOne(n - 1);
      assert Pow(-1, 2 * n) == -1 * (-1 * Pow(-1, 2 * n - 2));
    }
  }

  /** -d is no more a square than d is. */
  lemma MinusDIsNoSquare(c: Curve)
    requires Good(c)
    ensures Cong(c.p, Pow(-c.d, (c.p - 1) / 2), -1)
  {
    var n := (c.p - 1) / 2;
    EulerOf(c);
    PowOfProduct(-1, c.d, n);
    assert (-1) * c.d == -c.d;
    EvenPowerOfMinusOne((c.p - 1) / 4);
    assert n == 2 * ((c.p - 1) / 4);
  }

  /** k times a square is a square only if that square is zero, when k is none. */
  lemma NoSquareTimesSquare(p: nat, k: int, s: int, r: int)
    requires Prime(p) && p % 2 == 1 && Cong(p, Pow(k, (p - 1) / 2), -1) && !Cong(p, -1, 1)
    requires Cong(p, k * (s * s), r * r)
    ensures Cong(p, s, 0)
  {
    hide Cong, Prime;
    var n := (p - 1) / 2;
    if !Cong(p, s, 0) {
      EulerOfSquare(p, s);
      CongPow(p, k * (s * s), r * r, n);
      PowOfProduct(k, s * s, n);
      CongMul(p, Pow(k, n), -1, Pow(s * s, n), 1);
      if Cong(p, r, 0) {
        ZeroProduct(p, k, s, r);
      } else {
        EulerOfSquare(p, r);
        CongSym(p, Pow(k, n) * Pow(s * s, n), -1);
        CongTrans(p, -1, Pow(k * (s * s), n), Pow(r * r, n));
        CongTrans(p, -1, Pow(r * r, n), 1);
      }
    }
  }

  lemma EulerOfSquare(p: nat, s: int)
    requires Prime(p) && p % 2 == 1 && !Cong(p, s, 0)
    ensures Cong(p, Pow(s * s, (p - 1) / 2), 1)
  {
    var n := (p - 1) / 2;
    PowOfProduct(s, s, n);
    PowAdd(s, n, n);
    assert n + n == p - 1;
    Fermat(p, s);
  }

  lemma NonSquareIsNonzero(p: nat, k: int)
    requires Prime(p) && p % 2 == 1 && Cong(p, Pow(k, (p - 1) / 2), -1)
    ensures !Cong(p, k, 0)
  {
    assert p > 1;
    hide Cong, Prime;
    var n := (p - 1) / 2;
    if Cong(p, k, 0) {
      CongPow(p, k, 0, n);
      PowOfZero(n);
      CongSym(p, Pow(k, n), 0);
      CongTrans(p, 0, Pow(k, n), -1);
      ZeroIsNotMinusOne(p);
    }
  }

  lemma ZeroIsNotMinusOne(p: nat)
    requires p > 1
    ensures !Cong(p, 0, -1)
  {
    if Cong(p, 0, -1) {
      CongRefl(p, 1);
      CongAdd(p, 0, -1, 1, 1);
      CongReduced(p, 1, 0);
    }
  }

  lemma ZeroProduct(p: nat, k: int, s: int, r: int)
    requires Prime(p) && p % 2 == 1 && Cong(p, Pow(k, (p - 1) / 2), -1)
    requires Cong(p, k * (s * s), r * r) && Cong(p, r, 0)
    ensures Cong(p, s, 0)
  {
    hide Cong, Prime;
    CongMul(p, r, 0, r, 0);
    CongTrans(p, k * (s * s), r * r, 0);
    NonSquareIsNonzero(p, k);
    Euclid(p, k, s * s);
    Euclid(p, s, s);
  }

  lemma PowOfZero(n: nat)
    ensures n > 0 ==> Pow(0, n) == 0
  {
  }

  /** Coordinates in which the curve reads X^2 + Y^2 = Z^2 + k T^2 with k = -d: X and T times a root of -1. */
  ghost predicate Turned(p: nat, k: int, x: int, y: int, z: int, t: int) {
    Cong(p, x * x + y * y, z * z + k * (t * t)) && Cong(p, x * y, z * t)
  }

  /** (i u)^2 is -u^2. */
  lemma TurnedSquare(p: nat, i: int, u: int)
    requires Cong(p, i * i, -1)
    ensures Cong(p, (i * u) * (i * u), -(u * u))
  {
    CongRefl(p, u * u);
    CongMul(p, i * i, -1, u * u, u * u);
    SquareOfProduct(i, u);
  }

  lemma TurnedEquation(p: nat, d: int, i: int, x: int, y: int, z: int, t: int)
    requires Cong(p, i * i, -1) && Cong(p, y * y - x * x, z * z + d * (t * t))
    ensures Cong(p, (i * x) * (i * x) + y * y, z * z + -d * ((i * t) * (i * t)))
  {
    hide Cong;
    TurnedSquare(p, i, x);
    TurnedSquare(p, i, t);
    var ix, it := (i * x) * (i * x), (i * t) * (i * t);
    CongRefl(p, y * y);
    CongAdd(p, y * y, y * y, ix, -(x * x));
    CongScale(p, -d, it, -(t * t));
    CongRefl(p, z * z);
    CongAdd(p, z * z, z * z, -d * it, -d * -(t * t));
    MinusTimesMinus(d, t * t);
    CongSym(p, z * z + -d * it, z * z + d * (t * t));
    CongTrans(p, ix + y * y, y * y - x * x, z * z + d * (t * t));
    CongTrans(p, ix + y * y, z * z + d * (t * t), z * z + -d * it);
  }

  lemma TurnedPoint(c: Curve, a: Point)
    requires Good(c) && OnCurve(c, a)
    ensures c.p >= 5 && var i := RootOfMinusOne(c); Turned(c.p, -c.d, i * a.x, a.y, a.z, i * a.t)
  {
    RootSquared(c);
    var p, i := c.p, RootOfMinusOne(c);
    hide Cong, Good, RootOfMinusOne;
    TurnedEquation(p, c.d, i, a.x, a.y, a.z, a.t);
    TurnedProduct(p, i, a.x, a.y, a.z, a.t);
  }

  lemma TurnedProduct(p: nat, i: int, x: int, y: int, z: int, t: int)
    requires Cong(p, x * y, z * t)
    ensures Cong(p, (i * x) * y, z * (i * t))
  {
    hide Cong;
    CongScale(p, i, x * y, z * t);
    Associate(i, x, y);
    MoveOut(z, i, t);
  }

  lemma Associate(i: int, x: int, y: int)
    ensures i * (x * y) == (i * x) * y
  {
  }

  lemma MinusTimesMinus(d: int, t: int)
    ensures -d * -t == d * t
  {
  }

  lemma SquareExpands(x: int, y: int, sign: int)
    requires sign * sign == 1
    ensures (x + sign * y) * (x + sign * y) == x * x + y * y + 2 * (sign * (x * y))
  {
    SquareOfSum(x, sign * y);
    SquareOfProduct(sign, y);
    MoveOut(x, sign, y);
  }

  lemma TermsOfK(k: int, t1: int, z2: int, t2: int, s: int)
    ensures k * ((t1 * t1) * ((z2 * z2 + k * (t2 * t2)) + 2 * (s * (z2 * t2)))) ==
            k * ((t1 * t1) * (z2 * z2)) + (k * (t1 * t2)) * (k * (t1 * t2)) + 2 * (s * ((k * (t1 * t2)) * (t1 * z2)))
  {
    var tt := t1 * t1;
    assert tt * ((z2 * z2 + k * (t2 * t2)) + 2 * (s * (z2 * t2))) ==
        tt * (z2 * z2) + k * (tt * (t2 * t2)) + 2 * (s * (tt * (z2 * t2)));
    SquareOfProduct(t1, t2);
    Regroup(t1, t1, z2, t2);
    ScaleTerms(k, tt * (z2 * z2), (t1 * t2) * (t1 * t2), (t1 * z2) * (t1 * t2), s);
    SquareOfProduct(k, t1 * t2);
    SwapUnder(k, t1 * t2, t1 * z2);
  }

  lemma SwapUnder(k: int, a: int, b: int)
    ensures (k * a) * b == k * (b * a)
  {
  }

  lemma ScaleTerms(k: int, a: int, b: int, c: int, s: int)
    ensures k * (a + k * b + 2 * (s * c)) == k * a + (k * k) * b + 2 * (s * (k * c))
  {
  }

  lemma LastTerms(k: int, t1: int, z1: int, z2: int, s: int, eps: int)
    requires eps * eps == 1
    ensures k * ((t1 * t1) * (z2 * z2)) + (eps * (z1 * z2)) * (eps * (z1 * z2))
            + 2 * (s * ((eps * (z1 * z2)) * (t1 * z2))) ==
            (z2 * z2) * ((z1 * z1 + k * (t1 * t1)) + 2 * ((s * eps) * (z1 * t1)))
  {
    SquareOfProduct(eps, z1 * z2);
    SquareOfProduct(z1, z2);
    Regroup(z1, z2, t1, z2);
    LastScale(eps, (z1 * z2) * (t1 * z2), s);
    assert (z1 * z2) * (t1 * z2) == (z2 * z2) * (z1 * t1);
    LastDistribute(z2 * z2, z1 * z1, k, t1 * t1, s * eps, z1 * t1);
  }

  lemma LastScale(eps: int, m: int, s: int)
    ensures (eps * m) == eps * m && s * (eps * m) == (s * eps) * m
  {
  }

  lemma LastDistribute(w: int, a: int, k: int, b: int, e: int, c: int)
    ensures w * ((a + k * b) + 2 * (e * c)) == k * (b * w) + a * w + 2 * (e * (w * c))
  {
  }

  lemma DoubleProductCong(p: nat, s: int, u: int, v: int, w: int, m: int)
    requires Cong(p, u, v) && Cong(p, w, m)
    ensures Cong(p, u + 2 * (s * w), v + 2 * (s * m))
  {
    hide Cong;
    CongScale(p, s, w, m);
    CongScale(p, 2, s * w, s * m);
    CongAdd(p, u, v, 2 * (s * w), 2 * (s * m));
  }

  /** Where the sum of two points would have Z = 0, k times a square is a square. */
  lemma SquareRelation(p: nat, k: int, x1: int, y1: int, z1: int, t1: int, x2: int, y2: int, z2: int, t2: int,
                       eps: int, s: int)
    requires Turned(p, k, x1, y1, z1, t1) && Turned(p, k, x2, y2, z2, t2)
    requires Cong(p, k * (t1 * t2), eps * (z1 * z2)) && eps * eps == 1 && s * s == 1
    ensures var u, v := t1 * (x2 + s * y2), z2 * (x1 + (s * eps) * y1);
            Cong(p, k * (u * u), v * v)
  {
    hide Cong;
    var u, v := t1 * (x2 + s * y2), z2 * (x1 + (s * eps) * y1);
    var m := eps * (z1 * z2);
    // k u^2, with the second point's equation
    SquareOfProduct(t1, x2 + s * y2);
    SquareExpands(x2, y2, s);
    DoubleProductCong(p, s, x2 * x2 + y2 * y2, z2 * z2 + k * (t2 * t2), x2 * y2, z2 * t2);
    CongScale(p, t1 * t1, (x2 + s * y2) * (x2 + s * y2), (z2 * z2 + k * (t2 * t2)) + 2 * (s * (z2 * t2)));
    CongScale(p, k, u * u, (t1 * t1) * ((z2 * z2 + k * (t2 * t2)) + 2 * (s * (z2 * t2))));
    TermsOfK(k, t1, z2, t2, s);
    // k t1 t2 is eps z1 z2
    CongMul(p, k * (t1 * t2), m, k * (t1 * t2), m);
    CongRefl(p, t1 * z2);
    CongMul(p, k * (t1 * t2), m, t1 * z2, t1 * z2);
    CongRefl(p, k * ((t1 * t1) * (z2 * z2)));
    CongAdd(p, k * ((t1 * t1) * (z2 * z2)), k * ((t1 * t1) * (z2 * z2)), (k * (t1 * t2)) * (k * (t1 * t2)), m * m);
    DoubleProductCong(p, s, k * ((t1 * t1) * (z2 * z2)) + (k * (t1 * t2)) * (k * (t1 * t2)),
        k * ((t1 * t1) * (z2 * z2)) + m * m,
                      (k * (t1 * t2)) * (t1 * z2), m * (t1 * z2));
    LastTerms(k, t1, z1, z2, s, eps);
    // v^2, with the first point's equation
    SquareOfProduct(z2, x1 + (s * eps) * y1);
    SignSquare(s, eps);
    SquareExpands(x1, y1, s * eps);
    DoubleProductCong(p, s * eps, x1 * x1 + y1 * y1, z1 * z1 + k * (t1 * t1), x1 * y1, z1 * t1);
    CongScale(p, z2 * z2, (x1 + (s * eps) * y1) * (x1 + (s * eps) * y1),
        (z1 * z1 + k * (t1 * t1)) + 2 * ((s * eps) * (z1 * t1)));
    var mid := (z2 * z2) * ((z1 * z1 + k * (t1 * t1)) + 2 * ((s * eps) * (z1 * t1)));
    CongSym(p, v * v, mid);
    CongTrans(p, k * (u * u), k * ((t1 * t1) * ((z2 * z2 + k * (t2 * t2)) + 2 * (s * (z2 * t2)))), mid);
    CongTrans(p, k * (u * u), mid, v * v);
  }

  lemma SignSquare(s: int, eps: int)
    requires s * s == 1 && eps * eps == 1
    ensures (s * eps) * (s * eps) == 1
  {
    SquareOfProduct(s, eps);
  }

  lemma ZeroTimes(p: nat, k: int, a: int)
    requires Cong(p, a, 0)
    ensures Cong(p, k * a, 0) && Cong(p, a * k, 0)
  {
    CongScale(p, k, a, 0);
    assert a * k == k * a;
  }

  lemma HalvesVanish(p: nat, x: int, y: int)
    requires Prime(p) && !Cong(p, 2, 0) && Cong(p, x + 1 * y, 0) && Cong(p, x + -1 * y, 0)
    ensures Cong(p, x, 0)
  {
    CongAdd(p, x + 1 * y, 0, x + -1 * y, 0);
    assert (x + 1 * y) + (x + -1 * y) == 2 * x;
    Euclid(p, 2, x);
  }

  lemma NonzeroProduct(p: nat, a: int, b: int)
    requires Prime(p) && !Cong(p, a, 0) && !Cong(p, b, 0)
    ensures !Cong(p, a * b, 0)
  {
    if Cong(p, a * b, 0) { Euclid(p, a, b); }
  }

  /** If the sum of two points had Z = 0, their product of T would be zero. */
  lemma ZeroForces(p: nat, k: int, x1: int, y1: int, z1: int, t1: int, x2: int, y2: int, z2: int, t2: int, eps: int)
    requires Prime(p) && p % 2 == 1 && Cong(p, Pow(k, (p - 1) / 2), -1) && !Cong(p, -1, 1) && !Cong(p, 2, 0)
    requires Turned(p, k, x1, y1, z1, t1) && Turned(p, k, x2, y2, z2, t2) && !Cong(p, z2, 0)
    requires Cong(p, k * (t1 * t2), eps * (z1 * z2)) && eps * eps == 1
    ensures Cong(p, t1 * t2, 0)
  {
    hide Cong, Prime;
    SquareRelation(p, k, x1, y1, z1, t1, x2, y2, z2, t2, eps, 1);
    NoSquareTimesSquare(p, k, t1 * (x2 + 1 * y2), z2 * (x1 + (1 * eps) * y1));
    SquareRelation(p, k, x1, y1, z1, t1, x2, y2, z2, t2, eps, -1);
    NoSquareTimesSquare(p, k, t1 * (x2 + -1 * y2), z2 * (x1 + (-1 * eps) * y1));
    Euclid(p, t1, x2 + 1 * y2);
    Euclid(p, t1, x2 + -1 * y2);
    if Cong(p, t1, 0) {
      ZeroTimes(p, t2, t1);
    } else {
      HalvesVanish(p, x2, y2);
      ZeroTimes(p, y2, x2);
      CongSym(p, x2 * y2, z2 * t2);
      CongTrans(p, z2 * t2, x2 * y2, 0);
      Euclid(p, z2, t2);
      ZeroTimes(p, t1, t2);
    }
  }

  lemma NeverZero(p: nat, k: int, x1: int, y1: int, z1: int, t1: int, x2: int, y2: int, z2: int, t2: int, eps: int)
    requires Prime(p) && p % 2 == 1 && Cong(p, Pow(k, (p - 1) / 2), -1) && !Cong(p, -1, 1) && !Cong(p, 2, 0)
    requires Turned(p, k, x1, y1, z1, t1) && Turned(p, k, x2, y2, z2, t2) && !Cong(p, z1, 0) && !Cong(p, z2, 0)
    requires eps == 1 || eps == -1
    ensures !Cong(p, k * (t1 * t2), eps * (z1 * z2))
  {
    hide Cong, Prime, Turned;
    NonzeroProduct(p, z1, z2);
    if Cong(p, k * (t1 * t2), eps * (z1 * z2)) {
      ZeroForces(p, k, x1, y1, z1, t1, x2, y2, z2, t2, eps);
      ZeroTimes(p, k, t1 * t2);
      CongSym(p, k * (t1 * t2), eps * (z1 * z2));
      CongTrans(p, eps * (z1 * z2), k * (t1 * t2), 0);
      ZeroTimes(p, eps, eps * (z1 * z2));
      SignTwice(eps, z1 * z2);
    }
  }

  lemma SignTwice(eps: int, m: int)
    requires eps == 1 || eps == -1
    ensures eps * (eps * m) == m
  {
  }

  /** F and G of two points of the curve are never zero: the addition formula has no exceptions. */
  lemma SumIsFinite(c: Curve, a: Point, b: Point)
    requires Good(c) && OnCurve(c, a) && OnCurve(c, b)
    ensures !Cong(c.p, F(c, a, b), 0) && !Cong(c.p, G(c, a, b), 0)
  {
    OddPrime(c);
    MinusDIsNoSquare(c);
    TurnedPoint(c, a);
    TurnedPoint(c, b);
    RootSquared(c);
    var p, k, i := c.p, -c.d, RootOfMinusOne(c);
    hide Cong, Prime, Turned, RootOfMinusOne;
    NeverZero(p, k, i * a.x, a.y, a.z, i * a.t, i * b.x, b.y, b.z, i * b.t, 1);
    NeverZero(p, k, i * a.x, a.y, a.z, i * a.t, i * b.x, b.y, b.z, i * b.t, -1);
    TurnedZero(p, c.d, i, a.z, a.t, b.z, b.t);
  }

  lemma TurnedZero(p: nat, d: int, i: int, z1: int, t1: int, z2: int, t2: int)
    requires Cong(p, i * i, -1)
    ensures Cong(p, z1 * z2 - d * (t1 * t2), 0) ==> Cong(p, -d * ((i * t1) * (i * t2)), 1 * (z1 * z2))
    ensures Cong(p, z1 * z2 + d * (t1 * t2), 0) ==> Cong(p, -d * ((i * t1) * (i * t2)), -1 * (z1 * z2))
  {
    hide Cong;
    Regroup(i, i, t1, t2);
    CongRefl(p, t1 * t2);
    CongMul(p, i * i, -1, t1 * t2, t1 * t2);
    CongScale(p, -d, (i * t1) * (i * t2), -(t1 * t2));
    MinusTimesMinus(d, t1 * t2);
    var m, n := d * (t1 * t2), z1 * z2;
    if Cong(p, n - m, 0) {
      CongSym(p, n - m, 0);
      CongRefl(p, m);
      CongAdd(p, 0, n - m, m, m);
      CongTrans(p, -d * ((i * t1) * (i * t2)), m, n);
    }
    if Cong(p, n + m, 0) {
      CongRefl(p, n);
      CongAdd(p, n + m, 0, n, n);
      CongTrans(p, -d * ((i * t1) * (i * t2)), m, -n);
    }
  }

  lemma FourTimes(p: nat, m: int)
    requires Prime(p) && !Cong(p, 2, 0) && !Cong(p, m, 0)
    ensures !Cong(p, 4 * m, 0)
  {
    NonzeroProduct(p, 2, 2);
    NonzeroProduct(p, 4, m);
  }

  /** The sum of two points of the curve is on the curve. */
  lemma SumOnCurve(c: Curve, a: Point, b: Point)
    requires Good(c) && OnCurve(c, a) && OnCurve(c, b)
    ensures c.p > 0 && OnCurve(c, Add(c, a, b))
  {
    OddPrime(c);
    assert Prime(c.p) && c.p > 0;
    hide Cong, Prime, E, F, G, H, Add, Good;
    var s := Add(c, a, b);
    var e, f, g, h := E(a, b), F(c, a, b), G(c, a, b), H(a, b);
    SumIs(c, a, b);
    SumKeepsT(c, a, b);
    SumSatisfies(c, a, b);
    EquationOf(c.p, c.d, s.x, s.y, s.z, s.t, e * f, g * h, f * g, e * h);
    SumIsFinite(c, a, b);
    NonzeroProduct(c.p, f, g);
    FourTimes(c.p, f * g);
    if Cong(c.p, s.z, 0) {
      CongSym(c.p, s.z, 4 * (f * g));
      CongTrans(c.p, 4 * (f * g), s.z, 0);
    }
  }
}
