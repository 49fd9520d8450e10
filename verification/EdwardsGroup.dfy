/**
 Points up to the Z they are written with: sums do not depend on how their summands are written, and addition
 commutes and has an identity.
 */
module EdwardsGroup {
  import opened NumberTheory
  import opened Edwards

  // ---- The same point ----

  lemma SameRefl(c: Curve, a: Point)
    ensures Same(c, a, a)
  {
    CongRefl(c.p, a.x * a.z);
    CongRefl(c.p, a.y * a.z);
  }

  lemma SameSym(c: Curve, a: Point, b: Point)
    requires Same(c, a, b)
    ensures Same(c, b, a)
  {
    CongSym(c.p, a.x * b.z, b.x * a.z);
    CongSym(c.p, a.y * b.z, b.y * a.z);
  }

  lemma RatioTrans(p: nat, u: int, z: int, v: int, w: int, r: int, s: int)
    requires Prime(p) && !Cong(p, w, 0) && Cong(p, u * w, v * z) && Cong(p, v * s, r * w)
    ensures Cong(p, u * s, r * z)
  {
    hide Cong, Prime;
    CongScale(p, s, u * w, v * z);
    CongScale(p, z, v * s, r * w);
    assert s * (v * z) == z * (v * s);
    CongTrans(p, s * (u * w), s * (v * z), z * (r * w));
    assert s * (u * w) == (u * s) * w && z * (r * w) == (r * z) * w;
    Cancel(p, u * s, r * z, w);
  }

  lemma SameTrans(c: Curve, a: Point, b: Point, d: Point)
    requires Prime(c.p) && !Cong(c.p, b.z, 0) && Same(c, a, b) && Same(c, b, d)
    ensures Same(c, a, d)
  {
    hide Cong, Prime;
    RatioTrans(c.p, a.x, a.z, b.x, b.z, d.x, d.z);
    RatioTrans(c.p, a.y, a.z, b.y, b.z, d.y, d.z);
  }

  // ---- Sums of the same points are the same ----

  /** u/z = u'/z' and v/z = v'/z' make u/v = u'/v'. */
  lemma RatioKept(p: nat, u: int, v: int, u': int, v': int, z: int, z': int)
    requires Prime(p) && !Cong(p, z, 0) && !Cong(p, z', 0)
    requires Cong(p, u * z', u' * z) && Cong(p, v * z', v' * z)
    ensures Cong(p, u * v', u' * v)
  {
    hide Cong, Prime;
    CongSym(p, v * z', v' * z);
    CongMul(p, u * z', u' * z, v' * z, v * z');
    Regroup(u, z', v', z);
    Regroup(u', z, v, z');
    assert (u * z') * (v' * z) == (u * v') * (z * z');
    assert (u' * z) * (v * z') == (u' * v) * (z * z');
    NonzeroProduct(p, z, z');
    Cancel(p, u * v', u' * v, z * z');
  }

  lemma LinearScaled(p: nat, u: int, v: int, u': int, v': int, z: int, z': int, m: int, n: int)
    requires Cong(p, u * z', u' * z) && Cong(p, v * z', v' * z)
    ensures Cong(p, (u * m + v * n) * z', (u' * m + v' * n) * z)
  {
    hide Cong;
    CongScale(p, m, u * z', u' * z);
    CongScale(p, n, v * z', v' * z);
    CongAdd(p, m * (u * z'), m * (u' * z), n * (v * z'), n * (v' * z));
    Distribute(u, v, m, n, z');
    Distribute(u', v', m, n, z);
  }

  lemma Distribute(u: int, v: int, m: int, n: int, z: int)
    ensures (u * m + v * n) * z == m * (u * z) + n * (v * z)
  {
  }

  /** T goes along with X and Y. */
  lemma SameT(c: Curve, a: Point, b: Point)
    requires Prime(c.p) && OnCurve(c, a) && OnCurve(c, b) && Same(c, a, b)
    ensures Cong(c.p, a.t * b.z, b.t * a.z)
  {
    hide Cong, Prime;
    var p := c.p;
    CongMul(p, a.x * b.z, b.x * a.z, a.y * b.z, b.y * a.z);
    Regroup(a.x, b.z, a.y, b.z);
    Regroup(b.x, a.z, b.y, a.z);
    CongRefl(p, b.z * b.z);
    CongRefl(p, a.z * a.z);
    CongMul(p, a.x * a.y, a.z * a.t, b.z * b.z, b.z * b.z);
    CongMul(p, b.x * b.y, b.z * b.t, a.z * a.z, a.z * a.z);
    CongSym(p, (a.x * a.y) * (b.z * b.z), (a.z * a.t) * (b.z * b.z));
    CongTrans(p, (a.z * a.t) * (b.z * b.z), (a.x * a.y) * (b.z * b.z), (b.x * b.y) * (a.z * a.z));
    CongTrans(p, (a.z * a.t) * (b.z * b.z), (b.x * b.y) * (a.z * a.z), (b.z * b.t) * (a.z * a.z));
    Regroup(a.z, a.t, b.z, b.z);
    Regroup(b.z, b.t, a.z, a.z);
    assert (b.z * a.z) * (b.t * a.z) == (b.t * a.z) * (a.z * b.z);
    assert (a.z * b.z) * (a.t * b.z) == (a.t * b.z) * (a.z * b.z);
    NonzeroProduct(p, a.z, b.z);
    Cancel(p, a.t * b.z, b.t * a.z, a.z * b.z);
  }

  lemma PartsScaled(c: Curve, a: Point, a': Point, b: Point)
    requires Prime(c.p) && OnCurve(c, a) && OnCurve(c, a') && Same(c, a, a')
    ensures Cong(c.p, E(a, b) * a'.z, E(a', b) * a.z) && Cong(c.p, H(a, b) * a'.z, H(a', b) * a.z)
    ensures Cong(c.p, F(c, a, b) * a'.z, F(c, a', b) * a.z) && Cong(c.p, G(c, a, b) * a'.z, G(c, a', b) * a.z)
  {
    SameT(c, a, a');
    hide Cong, Prime;
    LinearScaled(c.p, a.x, a.y, a'.x, a'.y, a.z, a'.z, b.y, b.x);
    LinearScaled(c.p, a.y, a.x, a'.y, a'.x, a.z, a'.z, b.y, b.x);
    CongRefl(c.p, a.z * a'.z);
    LinearScaled(c.p, a.z, a.t, a'.z, a'.t, a.z, a'.z, b.z, -c.d * b.t);
    LinearScaled(c.p, a.z, a.t, a'.z, a'.t, a.z, a'.z, b.z, c.d * b.t);
    MoveOut(a.t, c.d, b.t);
    MoveOut(a'.t, c.d, b.t);
    MinusOut(a.t, c.d, b.t);
    MinusOut(a'.t, c.d, b.t);
  }

  lemma MinusOut(k: int, d: int, t: int)
    ensures k * (-d * t) == -(d * (k * t))
  {
    MoveOut(k, -d, t);
  }

  lemma CrossSixteen(p: nat, x: int, z: int, x': int, z': int, m: int, n: int, m': int, n': int)
    requires Cong(p, x, 4 * m) && Cong(p, z', 4 * n') && Cong(p, x', 4 * m') && Cong(p, z, 4 * n)
    requires Cong(p, m * n', m' * n)
    ensures Cong(p, x * z', x' * z)
  {
    hide Cong;
    CongMul(p, x, 4 * m, z', 4 * n');
    CongMul(p, x', 4 * m', z, 4 * n);
    Regroup(4, m, 4, n');
    Regroup(4, m', 4, n);
    assert (4 * m) * (4 * n') == 16 * (m * n') && (4 * m') * (4 * n) == 16 * (m' * n);
    CongScale(p, 16, m * n', m' * n);
    CongSym(p, x' * z, 16 * (m' * n));
    CongTrans(p, x * z', 16 * (m * n'), 16 * (m' * n));
    CongTrans(p, x * z', 16 * (m' * n), x' * z);
  }

  lemma SumRespectsSame(c: Curve, a: Point, a': Point, b: Point)
    requires Good(c) && OnCurve(c, a) && OnCurve(c, a') && Same(c, a, a')
    ensures c.p > 0 && Same(c, Add(c, a, b), Add(c, a', b))
  {
    assert Prime(c.p) && c.p > 0;
    hide Cong, Prime, E, F, G, H, Add, Good;
    var e, f, g, h := E(a, b), F(c, a, b), G(c, a, b), H(a, b);
    var e', f', g', h' := E(a', b), F(c, a', b), G(c, a', b), H(a', b);
    PartsScaled(c, a, a', b);
    RatioKept(c.p, e, g, e', g', a.z, a'.z);
    RatioKept(c.p, h, f, h', f', a.z, a'.z);
    SameByParts(c, a, b, a', b);
  }

  /** Sums are the same when E/G and H/F are. */
  lemma SameByParts(c: Curve, a: Point, b: Point, a': Point, b': Point)
    requires c.p > 0 && Cong(c.p, E(a, b) * G(c, a', b'), E(a', b') * G(c, a, b))
    requires Cong(c.p, H(a, b) * F(c, a', b'), H(a', b') * F(c, a, b))
    ensures Same(c, Add(c, a, b), Add(c, a', b'))
  {
    hide Cong, E, F, G, H, Add;
    var s, s' := Add(c, a, b), Add(c, a', b');
    var e, f, g, h := E(a, b), F(c, a, b), G(c, a, b), H(a, b);
    var e', f', g', h' := E(a', b'), F(c, a', b'), G(c, a', b'), H(a', b');
    SumIs(c, a, b);
    SumIs(c, a', b');
    CongScale(c.p, f * f', e * g', e' * g);
    CongScale(c.p, g * g', h * f', h' * f);
    CrossParts(e, f, g, h, e', f', g', h');
    CrossSixteen(c.p, s.x, s.z, s'.x, s'.z, e * f, f * g, e' * f', f' * g');
    CrossSixteen(c.p, s.y, s.z, s'.y, s'.z, g * h, f * g, g' * h', f' * g');
  }

  lemma CrossParts(e: int, f: int, g: int, h: int, e': int, f': int, g': int, h': int)
    ensures (e * f) * (f' * g') == (f * f') * (e * g') && (e' * f') * (f * g) == (f * f') * (e' * g)
    ensures (g * h) * (f' * g') == (g * g') * (h * f') && (g' * h') * (f * g) == (g * g') * (h' * f)
  {
    Cross(e, f, f', g');
    Cross(e', f', f, g);
    Cross(h, g, g', f');
    Cross(h', g', g, f);
  }

  lemma Cross(e: int, f: int, f': int, g': int)
    ensures (e * f) * (f' * g') == (f * f') * (e * g')
    ensures (f * e) * (g' * f') == (f * f') * (e * g')
  {
    Regroup(f, e, f', g');
  }

  lemma SumCommutes(c: Curve, a: Point, b: Point)
    requires c.p > 0
    ensures Add(c, a, b) == Add(c, b, a)
  {
    hide Mod;
    assert (a.y - a.x) * (b.y - b.x) == (b.y - b.x) * (a.y - a.x);
    assert (a.y + a.x) * (b.y + b.x) == (b.y + b.x) * (a.y + a.x);
    assert a.t * 2 * c.d * b.t == b.t * 2 * c.d * a.t by { MoveOut(a.t, c.d, b.t); MoveOut(b.t, c.d, a.t); }
    assert a.z * 2 * b.z == b.z * 2 * a.z;
  }

  lemma IdentityOnCurve(c: Curve)
    requires c.p > 1
    ensures OnCurve(c, Identity())
  {
    CongRefl(c.p, 0);
    CongRefl(c.p, 1);
    if Cong(c.p, 1, 0) { CongReduced(c.p, 1, 0); }
  }

  lemma RatioWithIdentity(p: nat, x: int, z: int, sx: int, sz: int)
    requires Cong(p, sx, 4 * (x * z)) && Cong(p, sz, 4 * (z * z))
    ensures Cong(p, sx * z, x * sz)
  {
    hide Cong;
    CongScale(p, z, sx, 4 * (x * z));
    CongScale(p, x, sz, 4 * (z * z));
    CongSym(p, x * sz, x * (4 * (z * z)));
    SameFour(x, z);
    CongTrans(p, z * sx, z * (4 * (x * z)), x * sz);
    assert z * sx == sx * z;
  }

  lemma SameFour(x: int, z: int)
    ensures z * (4 * (x * z)) == x * (4 * (z * z))
  {
  }

  lemma PartsWithIdentity(c: Curve, a: Point)
    ensures E(a, Identity()) == a.x && H(a, Identity()) == a.y && F(c, a, Identity()) == a.z &&
            G(c, a, Identity()) == a.z
  {
  }

  lemma SumWithIdentity(c: Curve, a: Point)
    requires c.p > 0
    ensures Same(c, Add(c, a, Identity()), a)
  {
    hide Cong, Add, E, F, G, H;
    var s := Add(c, a, Identity());
    SumIs(c, a, Identity());
    PartsWithIdentity(c, a);
    RatioWithIdentity(c.p, a.x, a.z, s.x, s.z);
    Swap(a.z, a.y);
    RatioWithIdentity(c.p, a.y, a.z, s.y, s.z);
  }

  // ---- Chains of equal points ----

  /** Same, with the middle point on the curve. */
  lemma Chain(c: Curve, a: Point, b: Point, d: Point)
    requires Good(c) && OnCurve(c, b) && Same(c, a, b) && Same(c, b, d)
    ensures Same(c, a, d)
  {
    hide Cong;
    SameTrans(c, a, b, d);
  }

  lemma SumLeft(c: Curve, a: Point, a': Point, b: Point)
    requires Good(c) && OnCurve(c, a) && OnCurve(c, a') && Same(c, a, a')
    ensures Same(c, Add(c, a, b), Add(c, a', b)) && Same(c, Add(c, b, a), Add(c, b, a'))
  {
    hide Cong, OnCurve, Same, Add;
    SumRespectsSame(c, a, a', b);
    SumCommutes(c, a, b);
    SumCommutes(c, a', b);
  }

  lemma Closed(c: Curve, a: Point, b: Point)
    requires Good(c) && OnCurve(c, a) && OnCurve(c, b)
    ensures OnCurve(c, Add(c, a, b))
  {
    hide OnCurve, Add;
    SumOnCurve(c, a, b);
  }
}
