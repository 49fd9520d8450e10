/**
 The polynomials behind the associativity of addition on a twisted Edwards curve. For points (x1, y1), (u, v)
 and (x3, y3), added from the left and from the right, each coordinate is a fraction, and the difference of
 the cross products is d w times

     v * Half(e, h, k, b, ...) + u * Half(h, e, b, k, ...)

 where e = x1 y3 + y1 x3, h = y1 y3 + x1 x3, k = y1 x3 - x1 y3 and b = x1 x3 - y1 y3 belong to the outer points,
 with m = x1 y1, n = x3 y3, r = x1^2 + y1^2 and s = x3^2 + y3^2, and w = u v and q = u^2 + v^2 to the middle one.
 The other coordinate is the same with h, -e, -b and k in place of e, h, k and b.
 */
module AssociativityIdentity {
  import opened NumberTheory
  import opened Edwards

  // ---- Rearranging products ----

  lemma Split(k: int, a: int, b: int)
    ensures k * (a + b) == k * a + k * b
  {
  }

  lemma Negated(m: int, n: int, r: int)
    ensures m * -n == -(m * n) && -n * -r == n * r && -n * r == -(n * r)
  {
  }

  lemma DifferenceOfSquares(m: int, n: int)
    ensures m * m - n * n == (m + n) * (m - n)
  {
  }

  lemma Joined(d: int, w: int, a: int, b: int)
    ensures d * (w * a) + d * (w * b) == d * (w * (a + b))
  {
  }

  lemma Outwards(d: int, w: int, a: int)
    ensures (d * d) * ((w * w) * a) == (d * w) * (d * (w * a))
  {
    assert (w * w) * a == w * (w * a);
    Regroup(d, d, w, w * a);
  }

  // ---- The denominators ----

  /** The denominator of one coordinate of (point + middle) + outer point; with -q and -s, of the other. */
  function Wing(d: int, m: int, n: int, w: int, q: int, s: int): int {
    1 - (d * d) * ((w * w) * (n * n)) + d * (m * (n * q + w * s))
  }

  lemma WingGap(d: int, m: int, n: int, w: int, q: int, r: int, s: int)
    ensures Wing(d, m, n, w, q, s) - Wing(d, n, m, w, q, r) ==
            (d * w) * (d * (w * (m * m - n * n)) + (m * s - n * r))
  {
    Outwards(d, w, m * m);
    Outwards(d, w, n * n);
    GapOfSquares(d, w, m * m, n * n);
    GapOfProducts(m, n, w, q, r, s);
    ScaledGap(d, m * (n * q + w * s), n * (m * q + w * r), w * (m * s - n * r));
    Associate(d, w, m * s - n * r);
    Split(d * w, d * (w * (m * m - n * n)), m * s - n * r);
  }

  lemma ScaledGap(d: int, a: int, b: int, gap: int)
    requires a - b == gap
    ensures d * a - d * b == d * gap
  {
  }

  lemma GapOfSquares(d: int, w: int, a: int, b: int)
    ensures (d * w) * (d * (w * a)) - (d * w) * (d * (w * b)) == (d * w) * (d * (w * (a - b)))
  {
    assert d * (w * a) - d * (w * b) == d * (w * (a - b));
  }

  lemma GapOfProducts(m: int, n: int, w: int, q: int, r: int, s: int)
    ensures m * (n * q + w * s) - n * (m * q + w * r) == w * (m * s - n * r)
  {
  }

  lemma WingSum(d: int, m: int, n: int, w: int, q: int, r: int, s: int, o: int, t: int)
    requires o == m * s + n * r && t == r + s
    ensures m * Wing(d, m, n, w, q, s) + n * Wing(d, n, m, w, q, r) ==
            (m + n) - (d * d) * ((w * w) * ((m * n) * (m + n)))
            + d * (w * ((m + n) * o - (m * n) * t)) + d * ((m * n) * (q * (m + n)))
  {
    Folded(d * d, w * w, m, n);
    CubicTerms(m, n, r, s);
    WingTerms(d, m, n, w, q, s);
    WingTerms(d, n, m, w, q, r);
    Joined(d, w, m * m * s, n * n * r);
    Gathered(d, m * n, q, m, n);
  }

  lemma Folded(dd: int, ww: int, m: int, n: int)
    ensures m * (dd * (ww * (n * n))) + n * (dd * (ww * (m * m))) == dd * (ww * ((m * n) * (m + n)))
  {
    assert m * (dd * (ww * (n * n))) == dd * (ww * (m * (n * n)));
    assert n * (dd * (ww * (m * m))) == dd * (ww * (n * (m * m)));
    assert m * (n * n) + n * (m * m) == (m * n) * (m + n);
    Joined(dd, ww, m * (n * n), n * (m * m));
  }

  lemma CubicTerms(m: int, n: int, r: int, s: int)
    ensures m * m * s + n * n * r == (m + n) * (m * s + n * r) - (m * n) * (r + s)
  {
  }

  lemma WingTerms(d: int, m: int, n: int, w: int, q: int, s: int)
    ensures m * (d * (m * (n * q + w * s))) == d * (w * (m * m * s)) + d * ((m * n) * (q * m))
  {
    assert m * (m * (n * q + w * s)) == w * (m * m * s) + (m * n) * (q * m);
  }

  lemma Gathered(d: int, p: int, q: int, m: int, n: int)
    ensures d * (p * (q * m)) + d * (p * (q * n)) == d * (p * (q * (m + n)))
  {
  }

  lemma WingMinus(d: int, m: int, n: int, w: int, q: int, s: int)
    ensures Wing(d, m, -n, w, -q, s) == Wing(d, m, n, w, q, s)
    ensures Wing(d, -m, n, w, -q, -s) == Wing(d, m, n, w, q, s)
  {
    assert -n * -q == n * q && -n * -n == n * n;
    assert n * -q + w * -s == -(n * q + w * s);
    assert -m * -(n * q + w * s) == m * (n * q + w * s);
  }

  // ---- The difference of the cross products ----

  function Half(d: int, e: int, h: int, k: int, b: int, s: int, m: int, p: int, t: int, w: int, q: int): int {
    e * (d * (w * (s * m)) + k * b)
    + k * (s - (d * d) * ((w * w) * (p * s)) + d * (w * (s * (e * h) - p * t)) + d * (p * (q * s)))
  }

  function BothHalves(d: int, e: int, h: int, k: int, b: int, m: int, n: int, w: int, q: int, r: int, s: int, u: int,
                      v: int): int {
    v * Half(d, e, h, k, b, m + n, m - n, m * n, r + s, w, q) + u * Half(d, h, e, b, k, m - n, m + n, -(m * n), s - r,
        w, -q)
  }

  lemma Crossed(d: int, e: int, h: int, k: int, b: int, m: int, n: int, w: int, q: int, r: int, s: int, u: int, v: int)
    requires k * b == m * s - n * r && e * h == m * s + n * r
    ensures var both := v * e + u * h;
            (both + (d * (m * w)) * (v * k + u * b)) * Wing(d, m, n, w, q, s)
            - (both + (d * (n * w)) * (u * b - v * k)) * Wing(d, n, m, w, q, r)
            == (d * w) * BothHalves(d, e, h, k, b, m, n, w, q, r, s, u, v)
  {
    hide Wing, Half;
    var a, a' := Wing(d, m, n, w, q, s), Wing(d, n, m, w, q, r);
    var gap, both := d * (w * ((m + n) * (m - n))) + k * b, v * e + u * h;
    DifferenceOfSquares(m, n);
    WingGap(d, m, n, w, q, r, s);
    CrossedParts(d, w, both, v * k + u * b, u * b - v * k, m, n, a, a', gap);
    Halves(e, h, k, b, u, v, gap, m * a, n * a');
    FirstHalf(d, e, h, k, b, m, n, w, q, r, s);
    SecondHalf(d, e, h, k, b, m, n, w, q, r, s);
  }

  lemma CrossedParts(d: int, w: int, both: int, x: int, x': int, m: int, n: int, a: int, a': int, gap: int)
    requires a - a' == (d * w) * gap
    ensures (both + (d * (m * w)) * x) * a - (both + (d * (n * w)) * x') * a' ==
            (d * w) * (both * gap + (x * (m * a) - x' * (n * a')))
  {
    Moved(d, m, w, x, a);
    Moved(d, n, w, x', a');
    Opened(both, d * (m * w), x, a);
    Opened(both, d * (n * w), x', a');
    TakenOut(d * w, both, a, a', gap, x * (m * a) - x' * (n * a'));
  }

  lemma Moved(d: int, m: int, w: int, x: int, a: int)
    ensures (d * (m * w)) * x * a == (d * w) * (x * (m * a))
  {
    assert d * (m * w) == (d * w) * m;
    assert (d * w) * m * x * a == (d * w) * (x * (m * a));
  }

  lemma Opened(both: int, k: int, x: int, a: int)
    ensures (both + k * x) * a == both * a + k * x * a
  {
  }

  lemma TakenOut(k: int, both: int, a: int, a': int, gap: int, rest: int)
    requires a - a' == k * gap
    ensures both * a - both * a' + k * rest == k * (both * gap + rest)
  {
    assert both * a - both * a' == both * (k * gap);
  }

  lemma Halves(e: int, h: int, k: int, b: int, u: int, v: int, gap: int, a: int, a': int)
    ensures (v * e + u * h) * gap + ((v * k + u * b) * a - (u * b - v * k) * a')
            == v * (e * gap + k * (a + a')) + u * (h * gap + b * (a - a'))
  {
  }

  lemma FirstHalf(d: int, e: int, h: int, k: int, b: int, m: int, n: int, w: int, q: int, r: int, s: int)
    requires e * h == m * s + n * r
    ensures Half(d, e, h, k, b, m + n, m - n, m * n, r + s, w, q) ==
            e * (d * (w * ((m + n) * (m - n))) + k * b) + k * (m * Wing(d, m, n, w, q, s) + n * Wing(d, n, m, w, q, r))
  {
    hide Wing;
    WingSum(d, m, n, w, q, r, s, e * h, r + s);
  }

  /** The same with the third point's signs turned. */
  lemma SecondHalf(d: int, e: int, h: int, k: int, b: int, m: int, n: int, w: int, q: int, r: int, s: int)
    requires e * h == m * s + n * r
    ensures Half(d, h, e, b, k, m - n, m + n, -(m * n), s - r, w, -q) ==
            h * (d * (w * ((m + n) * (m - n))) + k * b) + b * (m * Wing(d, m, n, w, q, s) - n * Wing(d, n, m, w, q, r))
  {
    hide Wing;
    Negated(m, n, r);
    FirstHalf(d, h, e, b, k, m, -n, w, -q, -r, s);
    WingMinus(d, m, n, w, q, s);
    WingMinus(d, n, m, w, q, r);
    Swap(m - n, m + n);
    Swap(k, b);
    Swap(e, h);
    Negated(m, n, Wing(d, n, m, w, q, r));
  }

  // ---- The other coordinate ----

  lemma WingTurned(d: int, m: int, n: int, w: int, q: int, s: int)
    ensures Wing(d, -m, n, w, q, s) == Wing(d, m, -n, w, q, -s)
  {
    assert -n * -n == n * n;
    assert -n * q + w * -s == -(n * q + w * s);
    assert -m * (n * q + w * s) == m * -(n * q + w * s);
  }

  lemma TurnedNumerators(d: int, e: int, h: int, f: int, g: int, m: int, n: int, w: int, u: int, v: int)
    ensures v * h + -u * -e == v * h + u * e
    ensures v * -g + -u * f == -(v * g) - u * f
    ensures (d * (-n * w)) * (-u * f - v * -g) == (d * (n * w)) * (u * f - v * g)
  {
    assert -n * w == -(n * w);
    assert -u * f == -(u * f) && v * -g == -(v * g) && -u * -e == u * e;
    assert d * -(n * w) == -(d * (n * w));
    assert -(d * (n * w)) * -(u * f - v * g) == (d * (n * w)) * (u * f - v * g);
  }

  function TurnedHalves(d: int, e: int, h: int, k: int, b: int, m: int, n: int, w: int, q: int, r: int, s: int,
                        u: int, v: int): int {
    BothHalves(d, h, -e, -b, k, m, -n, w, q, r, -s, -u, v)
  }

  lemma CrossedTurned(d: int, e: int, h: int, k: int, b: int, m: int, n: int, w: int, q: int, r: int, s: int, u: int,
                      v: int)
    requires k * b == m * s - n * r && e * h == m * s + n * r
    ensures var both := v * h + u * e;
            (both + (d * (m * w)) * (-(v * b) - u * k)) * Wing(d, -m, n, w, q, s)
            - (both + (d * (n * w)) * (u * k - v * b)) * Wing(d, -n, m, w, q, r)
            == (d * w) * TurnedHalves(d, e, h, k, b, m, n, w, q, r, s, u, v)
  {
    hide Wing, BothHalves;
    TurnedNumerators(d, e, h, k, b, m, n, w, u, v);
    WingTurned(d, m, n, w, q, s);
    assert -b * k == -(k * b) && h * -e == -(e * h) && m * -s == -(m * s) && -n * r == -(n * r);
    Crossed(d, h, -e, -b, k, m, -n, w, q, r, -s, -u, v);
  }

  // ---- What is left of one half ----

  /** Half is made of two terms that vanish on the curve, and a rest with the factor d n. */
  lemma FirstIs(d: int, e: int, h: int, k: int, b: int, s: int, m: int, n: int, t: int, w: int, q: int)
    ensures var one, two := e * b + s * (1 + d * n), h * k + m * (1 - d * n);
            Half(d, e, h, k, b, s, m, n, t, w, q) ==
            k * one + (d * w) * (s * (e * two))
            + (d * n) * (k * (s * (q - 1 - d * (w * w))) + w * (e * (d * (s * m)) - k * t))
  {
    LinearInW(e, h, k, s, m, n, t, d);
    FreeOfW(e, k, b, s, d * n);
    Inner(d, k, w, n, s, q);
    var inner := d * (n * (q * s)) - (d * d) * ((w * w) * (n * s));
    Collected(d, w, e, k, s * m, k * b, s, inner, s * (e * h) - n * t);
    Spread(d, w, n, s * (e * (h * k + m * (1 - d * n))), e * (d * (s * m)) - k * t, k, s, q - d * (w * w));
  }

  lemma SecondIs(d: int, e: int, h: int, k: int, b: int, s: int, m: int, n: int, l: int, w: int, q: int)
    ensures var one, two := e * b + s * (1 + d * n), h * k + m * (1 - d * n);
            Half(d, h, e, b, k, m, s, -n, l, w, -q) ==
            b * two + (d * w) * (m * (h * one))
            + (d * n) * (b * (m * (q + 1 + d * (w * w))) + w * (b * l - h * (d * (s * m))))
  {
    hide Half;
    FirstIs(d, h, e, b, k, m, s, -n, l, w, -q);
    Swap(e, b);
    Swap(h, k);
    Swap(s, m);
    SignsTurned(d, n, b, m, q + 1 + d * (w * w), w, h * (d * (s * m)) - b * l);
    assert d * -n == -(d * n);
  }

  lemma SignsTurned(d: int, n: int, b: int, m: int, q: int, w: int, x: int)
    ensures (d * -n) * (b * (m * -q) + w * x) == (d * n) * (b * (m * q) + w * -x)
  {
    assert b * (m * -q) + w * x == -(b * (m * q) + w * -x);
  }

  lemma LinearInW(e: int, h: int, k: int, s: int, m: int, p: int, t: int, d: int)
    ensures e * (s * m) + k * (s * (e * h) - p * t) ==
            s * (e * (h * k + m * (1 - d * p))) + p * (e * (d * (s * m)) - k * t)
  {
    LinearPart(e, h, k, s, m, d * p);
    Rotated(s, e, m, d, p);
    assert k * (p * t) == p * (k * t);
  }

  lemma LinearPart(e: int, h: int, k: int, s: int, m: int, dp: int)
    ensures e * (s * m) + k * (s * (e * h)) == s * (e * (h * k + m * (1 - dp))) + s * (e * (m * dp))
  {
    assert s * (e * (h * k + m * (1 - dp))) == s * (e * (h * k)) + s * (e * m) - s * (e * (m * dp));
  }

  lemma Rotated(s: int, e: int, m: int, d: int, p: int)
    ensures s * (e * (m * (d * p))) == p * (e * (d * (s * m)))
  {
    assert m * (d * p) == p * (d * m);
    assert e * (p * (d * m)) == p * (e * (d * m));
    assert s * (p * (e * (d * m))) == p * (s * (e * (d * m)));
    assert s * (e * (d * m)) == e * (d * (s * m));
  }

  lemma FreeOfW(e: int, k: int, b: int, s: int, dp: int)
    ensures e * (k * b) + k * s == k * (e * b + s * (1 + dp)) - dp * (k * s)
  {
  }

  lemma Inner(d: int, k: int, w: int, p: int, s: int, q: int)
    ensures k * (d * (p * (q * s)) - (d * d) * ((w * w) * (p * s))) == (d * p) * (k * (s * (q - d * (w * w))))
  {
    var ww := w * w;
    assert k * (d * (p * (q * s))) == (d * p) * (k * (s * q));
    assert k * ((d * d) * (ww * (p * s))) == (d * p) * (k * (s * (d * ww)));
  }

  lemma Collected(d: int, w: int, e: int, k: int, a: int, kb: int, s: int, i: int, o: int)
    ensures e * (d * (w * a) + kb) + k * (s + i + d * (w * o)) == (d * w) * (e * a + k * o) + e * kb + k * s + k * i
  {
  }

  lemma Spread(d: int, w: int, p: int, o: int, l: int, k: int, s: int, q: int)
    ensures (d * w) * (o + p * l) + (d * p) * (k * (s * q)) - (d * p) * (k * s) ==
            (d * w) * o + (d * p) * (k * (s * (q - 1)) + w * l)
  {
  }

  // ---- The rests cancel ----

  /** With both rests weighted by v and u, only multiples of the defects g and g2 of the curve equation are left. */
  lemma Remainder(e: int, h: int, ks: int, bm: int, kt: int, bl: int, z: int, u: int, v: int, w: int, sign: int,
                  g: int, g2: int)
    requires kt - 2 * (sign * bm) == e * z && 2 * (sign * ks) + bl == h * z && w == sign * (u * v) && sign * sign == 1
    ensures v * (ks * (2 * (u * u) - g2) + w * (e * (z + g) - kt))
            + u * (bm * (2 * (v * v) + g2) + w * (bl - h * (z + g)))
            == (u * bm - v * ks) * g2 + (w * (v * e - u * h)) * g
  {
    SignTwo(w, sign, u, v, bm);
    SignTwo(w, sign, u, v, ks);
    LessKnown(e, z, g, kt, 2 * (sign * bm));
    LessKnown(h, z, g, bl, -2 * (sign * ks));
    Balance(e * g, h * g, ks, bm, u, v, w, g2, w * (sign * bm), w * (sign * ks));
    Doubled(w, e * g, sign * bm);
    Doubled(w, -(h * g), sign * ks);
    Outside(u, v, w, e, h, g);
    Swap(g2, u * bm - v * ks);
  }

  lemma SignTwo(w: int, sign: int, u: int, v: int, x: int)
    requires w == sign * (u * v) && sign * sign == 1
    ensures w * (sign * x) == (u * v) * x
  {
    assert (sign * (u * v)) * (sign * x) == (sign * sign) * ((u * v) * x);
  }

  lemma LessKnown(e: int, z: int, g: int, x: int, y: int)
    requires x - y == e * z
    ensures e * (z + g) - x == e * g - y
  {
  }

  lemma Doubled(w: int, x: int, y: int)
    ensures w * (x - 2 * y) == w * x - 2 * (w * y) && w * -x == -(w * x)
  {
  }

  lemma Outside(u: int, v: int, w: int, e: int, h: int, g: int)
    ensures v * (w * (e * g)) - u * (w * (h * g)) == (w * (v * e - u * h)) * g
  {
    assert w * (v * e - u * h) == v * (w * e) - u * (w * h);
  }

  lemma Balance(eg: int, hg: int, ks: int, bm: int, u: int, v: int, w: int, g2: int, wb: int, wk: int)
    requires wb == (u * v) * bm && wk == (u * v) * ks
    ensures v * (ks * (2 * (u * u) - g2) + (w * eg - 2 * wb)) + u * (bm * (2 * (v * v) + g2) + (-2 * wk - w * hg))
            == g2 * (u * bm - v * ks) + (v * (w * eg) - u * (w * hg))
  {
  }

  lemma RestsVanish(p: nat, d: int, e: int, h: int, k: int, b: int, s: int, m: int, t: int, l: int, w: int, q: int,
                    u: int, v: int, z: int, sign: int, g: int, g2: int)
    requires Cong(p, g, 0) && Cong(p, g2, 0)
    requires k * t - 2 * (sign * (b * m)) == e * z && 2 * (sign * (k * s)) + b * l == h * z && d * (s * m) == z + g
    requires w == sign * (u * v) && sign * sign == 1 && q == u * u + v * v && 1 + d * (w * w) == v * v - u * u + g2
    ensures Cong(p, v * (k * (s * (q - 1 - d * (w * w))) + w * (e * (d * (s * m)) - k * t))
                    + u * (b * (m * (q + 1 + d * (w * w))) + w * (b * l - h * (d * (s * m)))), 0)
  {
    hide Cong;
    Remainder(e, h, k * s, b * m, k * t, b * l, z, u, v, w, sign, g, g2);
    ZeroTimes(p, u * (b * m) - v * (k * s), g2);
    ZeroTimes(p, w * (v * e - u * h), g);
    ZeroPlus(p, (u * (b * m) - v * (k * s)) * g2, (w * (v * e - u * h)) * g);
    assert q - 1 - d * (w * w) == 2 * (u * u) - g2 && q + 1 + d * (w * w) == 2 * (v * v) + g2;
    Associate(k, s, 2 * (u * u) - g2);
    Associate(b, m, 2 * (v * v) + g2);
  }

  lemma ZeroPlus(p: nat, a: int, b: int)
    requires Cong(p, a, 0) && Cong(p, b, 0)
    ensures Cong(p, a + b, 0)
  {
    CongAdd(p, a, 0, b, 0);
  }

  /** On points of the curve both halves together vanish. */
  lemma BothHalvesVanish(p: nat, d: int, e: int, h: int, k: int, b: int, s: int, m: int, n: int, t: int, l: int,
                         w: int, q: int, u: int, v: int, z: int, sign: int, g: int, g2: int)
    requires Cong(p, e * b + s * (1 + d * n), 0) && Cong(p, h * k + m * (1 - d * n), 0) && Cong(p, g, 0) &&
             Cong(p, g2, 0)
    requires k * t - 2 * (sign * (b * m)) == e * z && 2 * (sign * (k * s)) + b * l == h * z && d * (s * m) == z + g
    requires w == sign * (u * v) && sign * sign == 1 && q == u * u + v * v && 1 + d * (w * w) == v * v - u * u + g2
    ensures Cong(p, v * Half(d, e, h, k, b, s, m, n, t, w, q) + u * Half(d, h, e, b, k, m, s, -n, l, w, -q), 0)
  {
    hide Cong, Half;
    var one, two := e * b + s * (1 + d * n), h * k + m * (1 - d * n);
    var rest := k * (s * (q - 1 - d * (w * w))) + w * (e * (d * (s * m)) - k * t);
    var rest' := b * (m * (q + 1 + d * (w * w))) + w * (b * l - h * (d * (s * m)));
    FirstIs(d, e, h, k, b, s, m, n, t, w, q);
    SecondIs(d, e, h, k, b, s, m, n, l, w, q);
    TermsVanish(p, k, one, d * w, s, e, two);
    TermsVanish(p, b, two, d * w, m, h, one);
    var first, second := k * one + (d * w) * (s * (e * two)), b * two + (d * w) * (m * (h * one));
    ZeroTimes(p, v, first);
    ZeroTimes(p, u, second);
    ZeroPlus(p, v * first, u * second);
    RestsVanish(p, d, e, h, k, b, s, m, t, l, w, q, u, v, z, sign, g, g2);
    ZeroTimes(p, d * n, v * rest + u * rest');
    ZeroPlus(p, v * first + u * second, (d * n) * (v * rest + u * rest'));
    Together(u, v, first, second, d * n, rest, rest');
  }

  lemma PlainHalvesVanish(p: nat, d: int, e: int, h: int, k: int, b: int, m: int, n: int, r: int, s: int,
                          w: int, q: int, u: int, v: int, z: int, g: int, g2: int)
    requires Cong(p, e * b + (m + n) * (1 + d * (m * n)), 0) && Cong(p, h * k + (m - n) * (1 - d * (m * n)), 0)
    requires Cong(p, g, 0) && Cong(p, g2, 0) && d * ((m + n) * (m - n)) == z + g
    requires k * (r + s) - 2 * (b * (m - n)) == e * z && 2 * (k * (m + n)) + b * (s - r) == h * z
    requires w == u * v && q == u * u + v * v && 1 + d * (w * w) == v * v - u * u + g2
    ensures Cong(p, BothHalves(d, e, h, k, b, m, n, w, q, r, s, u, v), 0)
  {
    hide Cong, Half;
    BothHalvesVanish(p, d, e, h, k, b, m + n, m - n, m * n, r + s, s - r, w, q, u, v, z, 1, g, g2);
  }

  lemma TurnedHalvesVanish(p: nat, d: int, e: int, h: int, k: int, b: int, m: int, n: int, r: int, s: int,
                           w: int, q: int, u: int, v: int, z: int, g: int, g2: int)
    requires Cong(p, e * b + (m + n) * (1 + d * (m * n)), 0) && Cong(p, h * k + (m - n) * (1 - d * (m * n)), 0)
    requires Cong(p, g, 0) && Cong(p, g2, 0) && d * ((m + n) * (m - n)) == z + g
    requires k * (r + s) - 2 * (b * (m - n)) == e * z && 2 * (k * (m + n)) + b * (s - r) == h * z
    requires w == u * v && q == u * u + v * v && 1 + d * (w * w) == v * v - u * u + g2
    ensures Cong(p, TurnedHalves(d, e, h, k, b, m, n, w, q, r, s, u, v), 0)
  {
    hide Cong, Half;
    TurnedSums(e, h, k, b, m, n, r, s, z);
    TurnedTerms(d, e, b, m, n, u, v);
    Swap(m - n, m + n);
    BothHalvesVanish(p, d, h, -e, -b, k, m - n, m + n, -(m * n), r - s, -s - r, w, q, -u, v, z, -1, g, g2);
  }

  lemma TurnedSums(e: int, h: int, k: int, b: int, m: int, n: int, r: int, s: int, z: int)
    requires k * (r + s) - 2 * (b * (m - n)) == e * z && 2 * (k * (m + n)) + b * (s - r) == h * z
    ensures -b * (r - s) - 2 * (-1 * (k * (m + n))) == h * z
    ensures 2 * (-1 * (-b * (m - n))) + k * (-s - r) == -e * z
  {
    Negated(b, s - r, 0);
    assert -b * (r - s) == b * (s - r);
    assert k * (-s - r) == -(k * (r + s));
    assert -b * (m - n) == -(b * (m - n)) && -e * z == -(e * z);
  }

  lemma TurnedTerms(d: int, e: int, b: int, m: int, n: int, u: int, v: int)
    ensures -e * -b == e * b && m * -n == -(m * n)
    ensures d * -(m * n) == -(d * (m * n)) && -1 * (-u * v) == u * v && -u * -u == u * u
  {
    assert d * -(m * n) == -(d * (m * n));
    assert -u * v == -(u * v);
  }

  lemma TermsVanish(p: nat, k: int, one: int, dw: int, s: int, e: int, two: int)
    requires Cong(p, one, 0) && Cong(p, two, 0)
    ensures Cong(p, k * one + dw * (s * (e * two)), 0)
  {
    hide Cong;
    ZeroTimes(p, k, one);
    ZeroTimes(p, e, two);
    ZeroTimes(p, s, e * two);
    ZeroTimes(p, dw, s * (e * two));
    ZeroPlus(p, k * one, dw * (s * (e * two)));
  }

  lemma Together(u: int, v: int, a: int, b: int, k: int, x: int, y: int)
    ensures v * (a + k * x) + u * (b + k * y) == v * a + u * b + k * (v * x + u * y)
  {
  }

  // ---- The outer points ----

  lemma OuterProducts(x1: int, y1: int, x3: int, y3: int)
    ensures (y1 * x3 - x1 * y3) * (x1 * x3 - y1 * y3) ==
            (x1 * y1) * (x3 * x3 + y3 * y3) - (x3 * y3) * (x1 * x1 + y1 * y1)
    ensures (x1 * y3 + y1 * x3) * (y1 * y3 + x1 * x3) ==
            (x1 * y1) * (x3 * x3 + y3 * y3) + (x3 * y3) * (x1 * x1 + y1 * y1)
    ensures (x1 * y3 + y1 * x3) * (x1 * x3 - y1 * y3) ==
            -((x1 * y1) * (y3 * y3 - x3 * x3) + (x3 * y3) * (y1 * y1 - x1 * x1))
    ensures (y1 * y3 + x1 * x3) * (y1 * x3 - x1 * y3) ==
            (x3 * y3) * (y1 * y1 - x1 * x1) - (x1 * y1) * (y3 * y3 - x3 * x3)
  {
    CrossProducts(x1, y3, y1, x3);
    CrossProducts'(x1, y3, y1, x3);
  }

  lemma CrossProducts(a: int, b: int, c: int, d: int)
    ensures (c * d - a * b) * (a * d - c * b) == (a * c) * (d * d + b * b) - (d * b) * (a * a + c * c)
    ensures (a * b + c * d) * (c * b + a * d) == (a * c) * (d * d + b * b) + (d * b) * (a * a + c * c)
  {
  }

  lemma CrossProducts'(a: int, b: int, c: int, d: int)
    ensures (a * b + c * d) * (a * d - c * b) == -((a * c) * (b * b - d * d) + (d * b) * (c * c - a * a))
    ensures (c * b + a * d) * (c * d - a * b) == (d * b) * (c * c - a * a) - (a * c) * (b * b - d * d)
  {
  }

  lemma OuterSums(x1: int, y1: int, x3: int, y3: int)
    ensures var e, h, k, b := x1 * y3 + y1 * x3, y1 * y3 + x1 * x3, y1 * x3 - x1 * y3, x1 * x3 - y1 * y3;
            var m, n, r, s := x1 * y1, x3 * y3, x1 * x1 + y1 * y1, x3 * x3 + y3 * y3;
            var z := (y1 * y1 - x1 * x1) - (y3 * y3 - x3 * x3);
            k * (r + s) - 2 * (b * (m - n)) == e * z && 2 * (k * (m + n)) + b * (s - r) == h * z
  {
    FirstSum(x1, y1, x3, y3);
    SecondSum(x1, y1, x3, y3);
  }

  lemma FirstSum(x1: int, y1: int, x3: int, y3: int)
    ensures (y1 * x3 - x1 * y3) * ((x1 * x1 + y1 * y1) + (x3 * x3 + y3 * y3))
            - 2 * ((x1 * x3 - y1 * y3) * (x1 * y1 - x3 * y3))
            == (x1 * y3 + y1 * x3) * ((y1 * y1 - x1 * x1) - (y3 * y3 - x3 * x3))
  {
  }

  lemma SecondSum(x1: int, y1: int, x3: int, y3: int)
    ensures 2 * ((y1 * x3 - x1 * y3) * (x1 * y1 + x3 * y3))
            + (x1 * x3 - y1 * y3) * ((x3 * x3 + y3 * y3) - (x1 * x1 + y1 * y1))
            == (y1 * y3 + x1 * x3) * ((y1 * y1 - x1 * x1) - (y3 * y3 - x3 * x3))
  {
  }
}
