/**
 * `utils::math::cubicBezier`: the Bernstein form of a cubic Bézier curve,
 * evaluated over the reals.
 */
module Bezier {
  import opened Vec

  /** Evaluates the curve with control points p0..p3 at parameter t, using
      the same grouping of terms as the source. */
  function CubicBezier(t: real, p0: Vec3, p1: Vec3, p2: Vec3, p3: Vec3): (r: Vec3)
    ensures t == 0.0 ==> r == p0
    ensures t == 1.0 ==> r == p3
  {
    var it := 1.0 - t;
    Add(Add(Add(Scale(it * it * it, p0), Scale(3.0 * t * it * it, p1)),
            Scale(3.0 * t * t * it, p2)),
        Scale(t * t * t, p3))
  }

  /** The four cubic Bernstein weights at t. */
  datatype Weights = Weights(w0: real, w1: real, w2: real, w3: real)

  function Bernstein(t: real): (w: Weights)
    ensures w.w0 + w.w1 + w.w2 + w.w3 == 1.0
    ensures 0.0 <= t <= 1.0 ==> 0.0 <= w.w0 && 0.0 <= w.w1 && 0.0 <= w.w2 && 0.0 <= w.w3
  {
    var it := 1.0 - t;
    NonNegProduct3(it, it, it);
    NonNegProduct3(t, it, it);
    NonNegProduct3(t, t, it);
    NonNegProduct3(t, t, t);
    assert it * it * it + 3.0 * t * it * it + 3.0 * t * t * it + t * t * t
        == (it + t) * (it + t) * (it + t);
    Weights(it * it * it, 3.0 * t * it * it, 3.0 * t * t * it, t * t * t)
  }

  lemma NonNegProduct3(a: real, b: real, c: real)
    ensures 0.0 <= a && 0.0 <= b && 0.0 <= c ==> 0.0 <= a * b * c
  {
    if 0.0 <= a && 0.0 <= b && 0.0 <= c {
      assert 0.0 <= a * b;
    }
  }

  /** w0*p0 + w1*p1 + w2*p2 + w3*p3. */
  function Combine(w: Weights, p0: Vec3, p1: Vec3, p2: Vec3, p3: Vec3): Vec3
  {
    Add(Add(Add(Scale(w.w0, p0), Scale(w.w1, p1)), Scale(w.w2, p2)), Scale(w.w3, p3))
  }

  function Min4(a: real, b: real, c: real, d: real): real
  {
    var ab := if a <= b then a else b;
    var cd := if c <= d then c else d;
    if ab <= cd then ab else cd
  }

  function Max4(a: real, b: real, c: real, d: real): real
  {
    var ab := if a <= b then b else a;
    var cd := if c <= d then d else c;
    if ab <= cd then cd else ab
  }

  /** The curve point is the combination of the control points with the
      Bernstein weights, whatever t is. */
  lemma BezierIsBernsteinCombination(t: real, p0: Vec3, p1: Vec3, p2: Vec3, p3: Vec3)
    ensures CubicBezier(t, p0, p1, p2, p3) == Combine(Bernstein(t), p0, p1, p2, p3)
  {
  }

  /** A combination with non-negative weights summing to one lies between the
      least and the greatest of the combined values. */
  lemma ConvexBounds(w: Weights, a0: real, a1: real, a2: real, a3: real)
    requires w.w0 + w.w1 + w.w2 + w.w3 == 1.0
    requires 0.0 <= w.w0 && 0.0 <= w.w1 && 0.0 <= w.w2 && 0.0 <= w.w3
    ensures Min4(a0, a1, a2, a3) <= w.w0 * a0 + w.w1 * a1 + w.w2 * a2 + w.w3 * a3
    ensures w.w0 * a0 + w.w1 * a1 + w.w2 * a2 + w.w3 * a3 <= Max4(a0, a1, a2, a3)
  {
    var lo, hi := Min4(a0, a1, a2, a3), Max4(a0, a1, a2, a3);
    WeightedAtLeast(w.w0, w.w1, w.w2, w.w3, lo, a0, a1, a2, a3);
    WeightedAtLeast(w.w0, w.w1, w.w2, w.w3, -hi, -a0, -a1, -a2, -a3);
    assert w.w0 * -a0 + w.w1 * -a1 + w.w2 * -a2 + w.w3 * -a3
        == -(w.w0 * a0 + w.w1 * a1 + w.w2 * a2 + w.w3 * a3);
  }

  lemma WeightedAtLeast(w0: real, w1: real, w2: real, w3: real, lo: real,
                        a0: real, a1: real, a2: real, a3: real)
    requires w0 + w1 + w2 + w3 == 1.0
    requires 0.0 <= w0 && 0.0 <= w1 && 0.0 <= w2 && 0.0 <= w3
    requires lo <= a0 && lo <= a1 && lo <= a2 && lo <= a3
    ensures lo <= w0 * a0 + w1 * a1 + w2 * a2 + w3 * a3
  {
    var d0, d1, d2, d3 := a0 - lo, a1 - lo, a2 - lo, a3 - lo;
    assert 0.0 <= w0 * d0 && 0.0 <= w1 * d1 && 0.0 <= w2 * d2 && 0.0 <= w3 * d3;
    assert w0 * a0 + w1 * a1 + w2 * a2 + w3 * a3
        == (w0 + w1 + w2 + w3) * lo + (w0 * d0 + w1 * d1 + w2 * d2 + w3 * d3);
  }

  /** Reading one coordinate of a combination combines that coordinate. */
  lemma CombineComponent(w: Weights, p0: Vec3, p1: Vec3, p2: Vec3, p3: Vec3, a: Axis)
    ensures Get(Combine(w, p0, p1, p2, p3), a)
         == w.w0 * Get(p0, a) + w.w1 * Get(p1, a) + w.w2 * Get(p2, a) + w.w3 * Get(p3, a)
  {
  }

  /** For t in [0, 1] every coordinate of the curve point lies between the
      least and the greatest of that coordinate over the control points: the
      point is in the control polygon's bounding box (a consequence of being
      a convex combination). */
  lemma BezierInHull(t: real, p0: Vec3, p1: Vec3, p2: Vec3, p3: Vec3, a: Axis)
    requires 0.0 <= t <= 1.0
    ensures Min4(Get(p0, a), Get(p1, a), Get(p2, a), Get(p3, a))
         <= Get(CubicBezier(t, p0, p1, p2, p3), a)
         <= Max4(Get(p0, a), Get(p1, a), Get(p2, a), Get(p3, a))
  {
    var w := Bernstein(t);
    BezierIsBernsteinCombination(t, p0, p1, p2, p3);
    CombineComponent(w, p0, p1, p2, p3, a);
    ConvexBounds(w, Get(p0, a), Get(p1, a), Get(p2, a), Get(p3, a));
  }

  /** The point a fraction t of the way from a to b. */
  function Lerp(a: Vec3, b: Vec3, t: real): Vec3
  {
    Add(Scale(1.0 - t, a), Scale(t, b))
  }

  /** One round of de Casteljau's construction: the points a fraction t along
      each leg of the polygon. */
  function Reduce(t: real, pts: seq<Vec3>): (r: seq<Vec3>)
    requires |pts| > 0
    ensures |r| == |pts| - 1
    ensures forall i | 0 <= i < |r| :: r[i] == Lerp(pts[i], pts[i + 1], t)
  {
    seq(|pts| - 1, i requires 0 <= i < |pts| - 1 => Lerp(pts[i], pts[i + 1], t))
  }

  /** De Casteljau's evaluation of the Bézier curve with control polygon pts:
      reduce the polygon until one point is left. */
  function DeCasteljau(t: real, pts: seq<Vec3>): Vec3
    requires |pts| > 0
    decreases |pts|
  {
    if |pts| == 1 then pts[0] else DeCasteljau(t, Reduce(t, pts))
  }

  /** At t = 0 the construction returns the first control point and at t = 1
      the last, for a polygon of any length. */
  lemma {:induction false} DeCasteljauEnds(pts: seq<Vec3>)
    requires |pts| > 0
    ensures DeCasteljau(0.0, pts) == pts[0]
    ensures DeCasteljau(1.0, pts) == pts[|pts| - 1]
    decreases |pts|
  {
    if |pts| > 1 {
      var r0, r1 := Reduce(0.0, pts), Reduce(1.0, pts);
      DeCasteljauEnds(r0);
      DeCasteljauEnds(r1);
      assert r0[0] == Lerp(pts[0], pts[1], 0.0) == pts[0];
      assert r1[|r1| - 1] == Lerp(pts[|pts| - 2], pts[|pts| - 1], 1.0) == pts[|pts| - 1];
    }
  }

  /** Linear interpolation of two reals. */
  function Mix(a: real, b: real, t: real): real
  {
    (1.0 - t) * a + t * b
  }

  /** Three rounds of linear interpolation on one coordinate give the cubic
      Bernstein polynomial of that coordinate. */
  lemma CubicLerps(t: real, a: real, b: real, c: real, d: real)
    ensures Mix(Mix(Mix(a, b, t), Mix(b, c, t), t), Mix(Mix(b, c, t), Mix(c, d, t), t), t)
         == CubicPoly(t, a, b, c, d)
  {
  }

  /** One de Casteljau round on one coordinate. */
  lemma LerpComponents(a: Vec3, b: Vec3, t: real)
    ensures Lerp(a, b, t) == Vec3(Mix(a.x, b.x, t), Mix(a.y, b.y, t), Mix(a.z, b.z, t))
  {
  }

  /** Three rounds on four points, written out. */
  lemma ThreeRounds(t: real, p0: Vec3, p1: Vec3, p2: Vec3, p3: Vec3)
    ensures DeCasteljau(t, [p0, p1, p2, p3])
         == Lerp(Lerp(Lerp(p0, p1, t), Lerp(p1, p2, t), t),
                 Lerp(Lerp(p1, p2, t), Lerp(p2, p3, t), t), t)
  {
    var pts := [p0, p1, p2, p3];
    var r1 := Reduce(t, pts);
    var r2 := Reduce(t, r1);
    var r3 := Reduce(t, r2);
    assert DeCasteljau(t, pts) == DeCasteljau(t, r1);
    assert DeCasteljau(t, r1) == DeCasteljau(t, r2);
    assert DeCasteljau(t, r2) == DeCasteljau(t, r3) == r3[0];
    assert r1 == [Lerp(p0, p1, t), Lerp(p1, p2, t), Lerp(p2, p3, t)];
    assert r2 == [Lerp(r1[0], r1[1], t), Lerp(r1[1], r1[2], t)];
  }

  /** The closed form, one coordinate at a time. */
  function CubicPoly(t: real, a: real, b: real, c: real, d: real): real
  {
    var w := Bernstein(t);
    w.w0 * a + w.w1 * b + w.w2 * c + w.w3 * d
  }

  lemma CubicBezierComponents(t: real, p0: Vec3, p1: Vec3, p2: Vec3, p3: Vec3)
    ensures CubicBezier(t, p0, p1, p2, p3)
         == Vec3(CubicPoly(t, p0.x, p1.x, p2.x, p3.x), CubicPoly(t, p0.y, p1.y, p2.y, p3.y),
                 CubicPoly(t, p0.z, p1.z, p2.z, p3.z))
  {
    BezierIsBernsteinCombination(t, p0, p1, p2, p3);
  }

  /** De Casteljau's construction on four points is the closed form of
      `CubicBezier`. */
  lemma DeCasteljauIsCubicBezier(t: real, p0: Vec3, p1: Vec3, p2: Vec3, p3: Vec3)
    ensures DeCasteljau(t, [p0, p1, p2, p3]) == CubicBezier(t, p0, p1, p2, p3)
  {
    ThreeRounds(t, p0, p1, p2, p3);
    var a, b, c := Lerp(p0, p1, t), Lerp(p1, p2, t), Lerp(p2, p3, t);
    var ab, bc := Lerp(a, b, t), Lerp(b, c, t);
    LerpComponents(p0, p1, t);
    LerpComponents(p1, p2, t);
    LerpComponents(p2, p3, t);
    LerpComponents(a, b, t);
    LerpComponents(b, c, t);
    LerpComponents(ab, bc, t);
    CubicLerps(t, p0.x, p1.x, p2.x, p3.x);
    CubicLerps(t, p0.y, p1.y, p2.y, p3.y);
    CubicLerps(t, p0.z, p1.z, p2.z, p3.z);
    CubicBezierComponents(t, p0, p1, p2, p3);
  }
}
