/**
 * The triangle: three vertex points and the quantities derived from them
 * (the three side lengths, the area, the perimeter and whether the vertices
 * span a proper triangle), which are recomputed after every change of a
 * vertex or of a vertex's coordinates.
 *
 * `TriangleView` is the read-only picture of a triangle that the drawing code
 * works on; `Measure` is what the recomputation produces, and `WellMeasured`
 * characterises it without the square root.
 */
module Triangles {
  import opened Drawing
  import opened Helpers
  import opened TrianglePoints

  /** The area above which three vertices count as a triangle. */
  const MinArea: real := 0.1

  /**
   * The determinant D: twice the signed area of the triangle abc. Its
   * cross-product form and symmetries are in `DeterminantIsCross` and
   * `DeterminantSymmetries`.
   */
  function Determinant(a: PointF, b: PointF, c: PointF): real
  {
    a.x * (b.y - c.y) + b.x * (c.y - a.y) + c.x * (a.y - b.y)
  }

  function Abs(x: real): (r: real)
    ensures 0.0 <= r
  {
    if x < 0.0 then -x else x
  }

  /** The area `|D / 2|`; it is zero exactly when the three points are collinear. */
  function AreaOf(a: PointF, b: PointF, c: PointF): (r: real)
    ensures 0.0 <= r
    ensures r == 0.0 <==> Cross(Subtract(b, a), Subtract(c, a)) == 0.0
  {
    DeterminantIsCross(a, b, c);
    Abs(Determinant(a, b, c) / 2.0)
  }

  /** Twice the area squares to D squared. */
  lemma AreaSquared(a: PointF, b: PointF, c: PointF)
    ensures 2.0 * AreaOf(a, b, c) * 2.0 * AreaOf(a, b, c) == Determinant(a, b, c) * Determinant(a, b, c)
  {
    var D := Determinant(a, b, c);
    assert 2.0 * AreaOf(a, b, c) == D || 2.0 * AreaOf(a, b, c) == -D;
  }

  /** D is the cross product of the two edge vectors leaving `a`. */
  lemma DeterminantIsCross(a: PointF, b: PointF, c: PointF)
    ensures Determinant(a, b, c) == Cross(Subtract(b, a), Subtract(c, a))
  {
  }

  /** Rotating the vertices keeps D, swapping two of them negates it, translating all three keeps it. */
  lemma DeterminantSymmetries(a: PointF, b: PointF, c: PointF, t: PointF)
    ensures Determinant(b, c, a) == Determinant(a, b, c)
    ensures Determinant(b, a, c) == -Determinant(a, b, c)
    ensures Determinant(Add(a, t), Add(b, t), Add(c, t)) == Determinant(a, b, c)
  {
  }

  /** Rotating the vertices changes neither D nor the area. */
  lemma DeterminantRotations(a: PointF, b: PointF, c: PointF)
    ensures Determinant(b, c, a) == Determinant(a, b, c) && Determinant(c, a, b) == Determinant(a, b, c)
    ensures AreaOf(b, c, a) == AreaOf(a, b, c) && AreaOf(c, a, b) == AreaOf(a, b, c)
  {
  }

  /** The area does not depend on the order of the vertices nor on where the triangle sits. */
  lemma AreaSymmetries(a: PointF, b: PointF, c: PointF, t: PointF)
    ensures AreaOf(b, c, a) == AreaOf(a, b, c)
    ensures AreaOf(b, a, c) == AreaOf(a, b, c)
    ensures AreaOf(Add(a, t), Add(b, t), Add(c, t)) == AreaOf(a, b, c)
  {
    DeterminantSymmetries(a, b, c, t);
  }

  /** The derived quantities of a triangle, as the drawing code reads them. */
  datatype TriangleView = TriangleView(
    a: PointF, b: PointF, c: PointF,
    sideA: real, sideB: real, sideC: real,
    area: real, perimeter: real, isTriangle: bool)

  /**
   * The derived fields agree with the vertices: each side is the non-negative
   * root of the squared distance between the two vertices it joins (SideA
   * joins B and C, SideB joins A and C, SideC joins A and B), the area is
   * `|D / 2|`, the perimeter is the sum of the sides, and the vertices form a
   * triangle exactly when the area exceeds `MinArea`.
   */
  predicate WellMeasured(v: TriangleView)
  {
    && 0.0 <= v.sideA && v.sideA * v.sideA == DistanceSquared(v.b, v.c)
    && 0.0 <= v.sideB && v.sideB * v.sideB == DistanceSquared(v.a, v.c)
    && 0.0 <= v.sideC && v.sideC * v.sideC == DistanceSquared(v.a, v.b)
    && v.area == AreaOf(v.a, v.b, v.c)
    && v.perimeter == v.sideA + v.sideB + v.sideC
    && v.isTriangle == (v.area > MinArea)
  }

  /** The recomputation of all derived quantities from the three vertices. */
  function Measure(sqrt: real -> real, a: PointF, b: PointF, c: PointF): (v: TriangleView)
    requires IsSqrt(sqrt)
    ensures v.a == a && v.b == b && v.c == c
    ensures WellMeasured(v)
  {
    var sideA := Distance(sqrt, b, c);
    var sideB := Distance(sqrt, a, c);
    var sideC := Distance(sqrt, a, b);
    var area := Abs(Determinant(a, b, c) / 2.0);
    TriangleView(a, b, c, sideA, sideB, sideC, area, sideA + sideB + sideC, area > MinArea)
  }

  /** `WellMeasured` pins the derived quantities down completely: they are those `Measure` computes. */
  lemma MeasureUnique(sqrt: real -> real, v: TriangleView)
    requires IsSqrt(sqrt) && WellMeasured(v)
    ensures v == Measure(sqrt, v.a, v.b, v.c)
  {
    SqrtUnique(sqrt, DistanceSquared(v.b, v.c), v.sideA);
    SqrtUnique(sqrt, DistanceSquared(v.a, v.c), v.sideB);
    SqrtUnique(sqrt, DistanceSquared(v.a, v.b), v.sideC);
  }

  /** Collinear vertices have zero area and do not form a triangle. */
  lemma CollinearIsNotTriangle(v: TriangleView)
    requires WellMeasured(v)
    requires Cross(Subtract(v.b, v.a), Subtract(v.c, v.a)) == 0.0
    ensures v.area == 0.0 && !v.isTriangle
  {
  }

  /** The vertices of a triangle are pairwise distinct, so its sides are positive. */
  lemma TriangleVerticesDistinct(v: TriangleView)
    requires WellMeasured(v) && v.isTriangle
    ensures v.a != v.b && v.b != v.c && v.a != v.c
    ensures 0.0 < v.sideA && 0.0 < v.sideB && 0.0 < v.sideC
  {
    DeterminantIsCross(v.a, v.b, v.c);
    DeterminantSymmetries(v.a, v.b, v.c, Origin);
    SquareFacts(v.sideA);
    SquareFacts(v.sideB);
    SquareFacts(v.sideC);
  }

  /** Each side of a triangle is strictly shorter than the other two together. */
  lemma StrictTriangleInequality(v: TriangleView)
    requires WellMeasured(v) && v.isTriangle
    ensures v.sideA < v.sideB + v.sideC
    ensures v.sideB < v.sideA + v.sideC
    ensures v.sideC < v.sideA + v.sideB
  {
    DeterminantSymmetries(v.a, v.b, v.c, Origin);
    DeterminantSymmetries(v.b, v.c, v.a, Origin);
    DistanceSquaredSymmetric(v.a, v.b);
    DistanceSquaredSymmetric(v.a, v.c);
    DistanceSquaredSymmetric(v.b, v.c);
    StrictSide(v.a, v.b, v.c, v.sideA, v.sideB, v.sideC);
    StrictSide(v.b, v.a, v.c, v.sideB, v.sideA, v.sideC);
    StrictSide(v.c, v.a, v.b, v.sideC, v.sideA, v.sideB);
  }

  /** For non-collinear a, b, c: |bc| < |ac| + |ab|. */
  lemma StrictSide(a: PointF, b: PointF, c: PointF, sa: real, sb: real, sc: real)
    requires 0.0 <= sa && sa * sa == DistanceSquared(b, c)
    requires 0.0 <= sb && sb * sb == DistanceSquared(a, c)
    requires 0.0 <= sc && sc * sc == DistanceSquared(a, b)
    requires Determinant(a, b, c) != 0.0
    ensures sa < sb + sc
  {
    var p, q := Subtract(b, a), Subtract(a, c);
    assert Add(p, q) == Subtract(b, c);
    assert Cross(p, q) == -Determinant(a, b, c);
    StrictSum(p, q, sc, sb, sa);
  }

  /** The strict triangle inequality for vectors: |p + q| < |p| + |q| when p and q are not parallel. */
  lemma StrictSum(p: PointF, q: PointF, lp: real, lq: real, lpq: real)
    requires 0.0 <= lp && lp * lp == DotProduct(p, p)
    requires 0.0 <= lq && lq * lq == DotProduct(q, q)
    requires 0.0 <= lpq && lpq * lpq == DotProduct(Add(p, q), Add(p, q))
    requires Cross(p, q) != 0.0
    ensures lpq < lp + lq
  {
    LagrangeIdentity(p, q);
    SquareFacts(Cross(p, q));
    ProductSquare(lp, lq);
    StrictUpperFromSquares(DotProduct(p, q), lp, lq);
    assert DotProduct(Add(p, q), Add(p, q)) == DotProduct(p, p) + 2.0 * DotProduct(p, q) + DotProduct(q, q);
    assert (lp + lq) * (lp + lq) == lp * lp + 2.0 * (lp * lq) + lq * lq;
    SquaresOrder(lpq, lp + lq);
  }

  /** If d * d is below (x * y) * (x * y) for non-negative x, y, then d is below x * y. */
  lemma StrictUpperFromSquares(d: real, x: real, y: real)
    requires 0.0 <= x && 0.0 <= y
    requires d * d < (x * x) * (y * y)
    ensures d < x * y
  {
    ProductSquare(x, y);
    MulPositive(x, y);
    SquareFacts(x);
    SquareFacts(y);
    SquaresOrder(d, x * y);
  }

  /** Between non-negative numbers the order of the squares is the order of the numbers. */
  lemma SquaresOrder(a: real, b: real)
    requires 0.0 <= b && a * a < b * b
    ensures a < b
  {
    assert (a - b) * (a + b) == a * a - b * b;
    MulPositive(a - b, a + b);
    MulPositive(b - a, -(a + b));
  }

  /** Heron's formula: 16 * area^2 == (a + b + c)(b + c - a)(a + c - b)(a + b - c) in the side lengths. */
  lemma HeronFormula(v: TriangleView)
    requires WellMeasured(v)
    ensures 16.0 * (v.area * v.area) ==
      (v.sideA + v.sideB + v.sideC) * (v.sideB + v.sideC - v.sideA) * (v.sideA + v.sideC - v.sideB) * (v.sideA + v.sideB - v.sideC)
  {
    HeronPolynomial(v.a, v.b, v.c);
    AreaSquared(v.a, v.b, v.c);
    HeronFromSquares(v.sideA, v.sideB, v.sideC, DistanceSquared(v.b, v.c), DistanceSquared(v.a, v.c), DistanceSquared(v.a, v.b), v.area);
  }

  /** Heron's formula in the squared side lengths: 2a²b² + 2b²c² + 2c²a² − a⁴ − b⁴ − c⁴ == 16 * area^2. */
  lemma SideSquaresIdentity(v: TriangleView)
    requires WellMeasured(v)
    ensures var a2, b2, c2 := DistanceSquared(v.b, v.c), DistanceSquared(v.a, v.c), DistanceSquared(v.a, v.b);
      2.0 * a2 * b2 + 2.0 * b2 * c2 + 2.0 * c2 * a2 - a2 * a2 - b2 * b2 - c2 * c2 == 16.0 * (v.area * v.area)
  {
    HeronPolynomial(v.a, v.b, v.c);
    AreaSquared(v.a, v.b, v.c);
  }

  /** Factoring the polynomial in the squares of three lengths into the four sums and differences of Heron's formula. */
  lemma HeronFromSquares(sa: real, sb: real, sc: real, a2: real, b2: real, c2: real, area: real)
    requires sa * sa == a2 && sb * sb == b2 && sc * sc == c2
    requires 2.0 * a2 * b2 + 2.0 * b2 * c2 + 2.0 * c2 * a2 - a2 * a2 - b2 * b2 - c2 * c2 == 16.0 * (area * area)
    ensures 16.0 * (area * area) == (sa + sb + sc) * (sb + sc - sa) * (sa + sc - sb) * (sa + sb - sc)
  {
    FactorHeron(sa, sb, sc);
  }

  lemma HeronPolynomial(a: PointF, b: PointF, c: PointF)
    ensures var a2, b2, c2 := DistanceSquared(b, c), DistanceSquared(a, c), DistanceSquared(a, b);
      var d := Determinant(a, b, c);
      2.0 * a2 * b2 + 2.0 * b2 * c2 + 2.0 * c2 * a2 - a2 * a2 - b2 * b2 - c2 * c2 == 4.0 * d * d
  {
  }

  lemma FactorHeron(a: real, b: real, c: real)
    ensures 2.0 * (a * a) * (b * b) + 2.0 * (b * b) * (c * c) + 2.0 * (c * c) * (a * a) - (a * a) * (a * a) - (b * b) * (b * b) - (c * c) * (c * c)
      == (a + b + c) * (b + c - a) * (a + c - b) * (a + b - c)
  {
  }

  /**
   * `x * A + y * B + z * C`, written out per coordinate (the source builds it
   * from the scaling and addition operators, which compute exactly this).
   */
  function BarycentricToCartesian(v: TriangleView, x: real, y: real, z: real): PointF
  {
    PointF(x * v.a.x + y * v.b.x + z * v.c.x, x * v.a.y + y * v.b.y + z * v.c.y)
  }

  /** The operator form of the weighted sum names the same point. */
  lemma BarycentricIsWeightedSum(v: TriangleView, x: real, y: real, z: real)
    ensures BarycentricToCartesian(v, x, y, z) == Add(Add(Scale(x, v.a), Scale(y, v.b)), Scale(z, v.c))
  {
  }

  /** With weights summing to one the result is A moved by y (B - A) + z (C - A): an affine combination. */
  lemma BarycentricAffine(v: TriangleView, x: real, y: real, z: real)
    requires x + y + z == 1.0
    ensures Subtract(BarycentricToCartesian(v, x, y, z), v.a) == Add(Scale(y, Subtract(v.b, v.a)), Scale(z, Subtract(v.c, v.a)))
  {
    var r := BarycentricToCartesian(v, x, y, z);
    assert r.x - v.a.x == y * (v.b.x - v.a.x) + z * (v.c.x - v.a.x) by {
      assert x * v.a.x == v.a.x - y * v.a.x - z * v.a.x;
    }
    assert r.y - v.a.y == y * (v.b.y - v.a.y) + z * (v.c.y - v.a.y) by {
      assert x * v.a.y == v.a.y - y * v.a.y - z * v.a.y;
    }
  }

  /** The unit weights select the vertices; equal thirds give the mean of the vertices. */
  lemma BarycentricSpecialWeights(v: TriangleView)
    ensures BarycentricToCartesian(v, 1.0, 0.0, 0.0) == v.a
    ensures BarycentricToCartesian(v, 0.0, 1.0, 0.0) == v.b
    ensures BarycentricToCartesian(v, 0.0, 0.0, 1.0) == v.c
    ensures var m := BarycentricToCartesian(v, 1.0 / 3.0, 1.0 / 3.0, 1.0 / 3.0);
      Scale(3.0, m) == Add(Add(v.a, v.b), v.c)
  {
  }

  /** Weights summing to one commute with translation: moving the vertices by t moves the point by t. */
  lemma BarycentricTranslate(v: TriangleView, t: PointF, x: real, y: real, z: real)
    requires x + y + z == 1.0
    ensures var moved := v.(a := Add(v.a, t), b := Add(v.b, t), c := Add(v.c, t));
      BarycentricToCartesian(moved, x, y, z) == Add(BarycentricToCartesian(v, x, y, z), t)
  {
    var moved := v.(a := Add(v.a, t), b := Add(v.b, t), c := Add(v.c, t));
    var r, s := BarycentricToCartesian(v, x, y, z), BarycentricToCartesian(moved, x, y, z);
    assert s.x == r.x + (x + y + z) * t.x;
    assert s.y == r.y + (x + y + z) * t.y;
  }

  /** The sum of trilinear weights scaled by the opposite side lengths. */
  function TrilinearDenominator(v: TriangleView, x: real, y: real, z: real): real
  {
    v.sideA * x + v.sideB * y + v.sideC * z
  }

  /**
   * The point with trilinear coordinates x : y : z: the vertices weighted by
   * `SideA * x`, `SideB * y` and `SideC * z`, divided by the sum of the
   * weights. The source divides unguarded, so the sum must not be zero.
   */
  function TrilinearToCartesian(v: TriangleView, x: real, y: real, z: real): (r: PointF)
    requires TrilinearDenominator(v, x, y, z) != 0.0
    ensures Scale(TrilinearDenominator(v, x, y, z), r) == BarycentricToCartesian(v, v.sideA * x, v.sideB * y, v.sideC * z)
  {
    var aX := v.sideA * x;
    var bY := v.sideB * y;
    var cZ := v.sideC * z;
    var denominator := aX + bY + cZ;
    PointF(WeightedMean(aX, bY, cZ, v.a.x, v.b.x, v.c.x), WeightedMean(aX, bY, cZ, v.a.y, v.b.y, v.c.y))
  }

  /** One coordinate of the trilinear point: `(wa * pa + wb * pb + wc * pc) / (wa + wb + wc)`. */
  function WeightedMean(wa: real, wb: real, wc: real, pa: real, pb: real, pc: real): real
    requires wa + wb + wc != 0.0
  {
    (wa * pa + wb * pb + wc * pc) / (wa + wb + wc)
  }

  /** The trilinear point is the barycentric point whose weights are the scaled weights over their sum. */
  lemma TrilinearIsNormalizedBarycentric(v: TriangleView, x: real, y: real, z: real)
    requires TrilinearDenominator(v, x, y, z) != 0.0
    ensures var d := TrilinearDenominator(v, x, y, z);
      TrilinearToCartesian(v, x, y, z) == BarycentricToCartesian(v, v.sideA * x / d, v.sideB * y / d, v.sideC * z / d)
  {
    var d := TrilinearDenominator(v, x, y, z);
    var r := TrilinearToCartesian(v, x, y, z);
    var wa, wb, wc := v.sideA * x, v.sideB * y, v.sideC * z;
    WeightsOverSum(d, wa, wb, wc, v.a.x, v.b.x, v.c.x, r.x);
    WeightsOverSum(d, wa, wb, wc, v.a.y, v.b.y, v.c.y, r.y);
  }

  /** If d * r == wa * pa + wb * pb + wc * pc and d != 0, then r == (wa / d) * pa + (wb / d) * pb + (wc / d) * pc. */
  lemma WeightsOverSum(d: real, wa: real, wb: real, wc: real, pa: real, pb: real, pc: real, r: real)
    requires d != 0.0 && d * r == wa * pa + wb * pb + wc * pc
    ensures r == (wa / d) * pa + (wb / d) * pb + (wc / d) * pc
  {
    var qa, qb, qc := wa / d, wb / d, wc / d;
    assert qa * d == wa && qb * d == wb && qc * d == wc;
    assert (qa * pa + qb * pb + qc * pc) * d == wa * pa + wb * pb + wc * pc;
    CancelNonZero(r - (qa * pa + qb * pb + qc * pc), d);
  }

  /** A factor of a zero product whose other factor is non-zero is zero. */
  lemma CancelNonZero(e: real, m: real)
    requires m != 0.0 && e * m == 0.0
    ensures e == 0.0
  {
    ProductZero(e, m);
  }

  /** Trilinear coordinates are homogeneous: scaling all three by k != 0 names the same point. */
  lemma TrilinearScaleInvariant(v: TriangleView, x: real, y: real, z: real, k: real)
    requires TrilinearDenominator(v, x, y, z) != 0.0 && k != 0.0
    ensures TrilinearDenominator(v, k * x, k * y, k * z) != 0.0
      && TrilinearToCartesian(v, k * x, k * y, k * z) == TrilinearToCartesian(v, x, y, z)
  {
    var d := TrilinearDenominator(v, x, y, z);
    var wa, wb, wc := v.sideA * x, v.sideB * y, v.sideC * z;
    assert v.sideA * (k * x) == k * wa && v.sideB * (k * y) == k * wb && v.sideC * (k * z) == k * wc;
    ProductZero(k, d);
    WeightedMeanScale(wa, wb, wc, v.a.x, v.b.x, v.c.x, k);
    WeightedMeanScale(wa, wb, wc, v.a.y, v.b.y, v.c.y, k);
  }

  /** Scaling all three weights by a non-zero k leaves the weighted mean unchanged. */
  lemma WeightedMeanScale(wa: real, wb: real, wc: real, pa: real, pb: real, pc: real, k: real)
    requires wa + wb + wc != 0.0 && k != 0.0
    ensures k * wa + k * wb + k * wc != 0.0
    ensures WeightedMean(k * wa, k * wb, k * wc, pa, pb, pc) == WeightedMean(wa, wb, wc, pa, pb, pc)
  {
    var d := wa + wb + wc;
    var n := wa * pa + wb * pb + wc * pc;
    assert k * wa + k * wb + k * wc == k * d;
    assert (k * wa) * pa + (k * wb) * pb + (k * wc) * pc == k * n;
    ProductZero(k, d);
    QuotientScale(n, d, k);
  }

  /** `(k * n) / (k * d) == n / d` for non-zero `k` and `d`. */
  lemma QuotientScale(n: real, d: real, k: real)
    requires d != 0.0 && k != 0.0
    ensures (k * n) / (k * d) == n / d
  {
    ProductZero(k, d);
    var q := n / d;
    assert q * d == n;
    assert (k * d) * q == k * n;
  }

  /**
   * The conversion in coordinates: d times the point is the sum of the
   * vertices weighted by a x, b y and c z, where d is their sum.
   */
  lemma TrilinearWeightedCoordinates(v: TriangleView, x: real, y: real, z: real)
    requires TrilinearDenominator(v, x, y, z) != 0.0
    ensures var p, d := TrilinearToCartesian(v, x, y, z), TrilinearDenominator(v, x, y, z);
      && d * p.x == (v.sideA * x) * v.a.x + (v.sideB * y) * v.b.x + (v.sideC * z) * v.c.x
      && d * p.y == (v.sideA * x) * v.a.y + (v.sideB * y) * v.b.y + (v.sideC * z) * v.c.y
  {
  }

  /**
   * The defining property of trilinear coordinates: the point x : y : z lies
   * at distances proportional to |x|, |y| and |z| from the three side lines.
   * The distance to a side is twice the area the point spans with it over the
   * side's length; with r times the weight sum equal to twice the triangle's
   * area, the distances are r |x|, r |y| and r |z|.
   */
  lemma TrilinearDistancesToSides(v: TriangleView, x: real, y: real, z: real, r: real)
    requires 0.0 <= v.sideA && 0.0 <= v.sideB && 0.0 <= v.sideC
    requires TrilinearDenominator(v, x, y, z) > 0.0
    requires r * TrilinearDenominator(v, x, y, z) == 2.0 * AreaOf(v.a, v.b, v.c)
    ensures var p := TrilinearToCartesian(v, x, y, z);
      && 2.0 * AreaOf(p, v.b, v.c) == r * v.sideA * Abs(x)
      && 2.0 * AreaOf(p, v.c, v.a) == r * v.sideB * Abs(y)
      && 2.0 * AreaOf(p, v.a, v.b) == r * v.sideC * Abs(z)
    ensures var p := TrilinearToCartesian(v, x, y, z);
      && (Abs(x) == 1.0 ==> 2.0 * AreaOf(p, v.b, v.c) == r * v.sideA)
      && (Abs(y) == 1.0 ==> 2.0 * AreaOf(p, v.c, v.a) == r * v.sideB)
      && (Abs(z) == 1.0 ==> 2.0 * AreaOf(p, v.a, v.b) == r * v.sideC)
  {
    TrilinearWeightedCoordinates(v, x, y, z);
    WeightedPointDistancesToSides(v, TrilinearToCartesian(v, x, y, z), x, y, z, r);
  }

  /** `TrilinearDistancesToSides` for any point p given by its weighted coordinates. */
  lemma WeightedPointDistancesToSides(v: TriangleView, p: PointF, x: real, y: real, z: real, r: real)
    requires 0.0 <= v.sideA && 0.0 <= v.sideB && 0.0 <= v.sideC
    requires TrilinearDenominator(v, x, y, z) > 0.0
    requires r * TrilinearDenominator(v, x, y, z) == 2.0 * AreaOf(v.a, v.b, v.c)
    requires var d := TrilinearDenominator(v, x, y, z);
      && d * p.x == (v.sideA * x) * v.a.x + (v.sideB * y) * v.b.x + (v.sideC * z) * v.c.x
      && d * p.y == (v.sideA * x) * v.a.y + (v.sideB * y) * v.b.y + (v.sideC * z) * v.c.y
    ensures 2.0 * AreaOf(p, v.b, v.c) == r * v.sideA * Abs(x)
    ensures Abs(x) == 1.0 ==> 2.0 * AreaOf(p, v.b, v.c) == r * v.sideA
    ensures 2.0 * AreaOf(p, v.c, v.a) == r * v.sideB * Abs(y)
    ensures Abs(y) == 1.0 ==> 2.0 * AreaOf(p, v.c, v.a) == r * v.sideB
    ensures 2.0 * AreaOf(p, v.a, v.b) == r * v.sideC * Abs(z)
    ensures Abs(z) == 1.0 ==> 2.0 * AreaOf(p, v.a, v.b) == r * v.sideC
  {
    WeightedPointDistances(v.a, v.b, v.c, p, v.sideA, v.sideB, v.sideC, x, y, z, TrilinearDenominator(v, x, y, z), r);
  }

  /** The same, with the vertices, side lengths and weight sum as plain values. */
  lemma WeightedPointDistances(a: PointF, b: PointF, c: PointF, p: PointF, sa: real, sb: real, sc: real,
                               x: real, y: real, z: real, d: real, r: real)
    requires 0.0 <= sa && 0.0 <= sb && 0.0 <= sc
    requires d == sa * x + sb * y + sc * z && d > 0.0
    requires d * p.x == (sa * x) * a.x + (sb * y) * b.x + (sc * z) * c.x
    requires d * p.y == (sa * x) * a.y + (sb * y) * b.y + (sc * z) * c.y
    requires r * d == 2.0 * AreaOf(a, b, c)
    ensures 2.0 * AreaOf(p, b, c) == r * sa * Abs(x)
    ensures Abs(x) == 1.0 ==> 2.0 * AreaOf(p, b, c) == r * sa
    ensures 2.0 * AreaOf(p, c, a) == r * sb * Abs(y)
    ensures Abs(y) == 1.0 ==> 2.0 * AreaOf(p, c, a) == r * sb
    ensures 2.0 * AreaOf(p, a, b) == r * sc * Abs(z)
    ensures Abs(z) == 1.0 ==> 2.0 * AreaOf(p, a, b) == r * sc
  {
    DeterminantRotations(a, b, c);
    WeightedSideDistance(a, b, c, p, sa, sb, sc, x, y, z, d, r);
    WeightedSideDistance(b, c, a, p, sb, sc, sa, y, z, x, d, r);
    WeightedSideDistance(c, a, b, p, sc, sa, sb, z, x, y, d, r);
  }

  /** The distance from a weighted point to the side bc. */
  lemma WeightedSideDistance(a: PointF, b: PointF, c: PointF, p: PointF, sa: real, sb: real, sc: real,
                             x: real, y: real, z: real, d: real, r: real)
    requires 0.0 <= sa
    requires d == sa * x + sb * y + sc * z && d > 0.0
    requires d * p.x == (sa * x) * a.x + (sb * y) * b.x + (sc * z) * c.x
    requires d * p.y == (sa * x) * a.y + (sb * y) * b.y + (sc * z) * c.y
    requires r * d == 2.0 * AreaOf(a, b, c)
    ensures 2.0 * AreaOf(p, b, c) == r * sa * Abs(x)
    ensures Abs(x) == 1.0 ==> 2.0 * AreaOf(p, b, c) == r * sa
  {
    WeightedDeterminant(a, b, c, p, sa * x, sb * y, sc * z, d);
    SideDistance(a, b, c, b, c, p, d, sa, x, r);
  }

  /**
   * If d * D(p, e, f) == s t D(a, b, c) and r d is twice the area of abc,
   * then p lies at distance r |t| from the line ef, whose length is s.
   */
  lemma SideDistance(a: PointF, b: PointF, c: PointF, e: PointF, f: PointF, p: PointF, d: real, s: real, t: real, r: real)
    requires 0.0 < d && 0.0 <= s
    requires d * Determinant(p, e, f) == s * t * Determinant(a, b, c)
    requires r * d == 2.0 * AreaOf(a, b, c)
    ensures 2.0 * AreaOf(p, e, f) == r * s * Abs(t)
    ensures Abs(t) == 1.0 ==> 2.0 * AreaOf(p, e, f) == r * s
  {
    ScaledDistance(Determinant(p, e, f), d, s, t, Determinant(a, b, c), r);
  }

  /** A determinant e with d e == s t D, where r d == |D|, has |e| == r s |t|. */
  lemma ScaledDistance(e: real, d: real, s: real, t: real, D: real, r: real)
    requires 0.0 < d && 0.0 <= s
    requires d * e == s * t * D
    requires r * d == 2.0 * Abs(D / 2.0)
    ensures 2.0 * Abs(e / 2.0) == r * s * Abs(t)
    ensures Abs(t) == 1.0 ==> 2.0 * Abs(e / 2.0) == r * s
  {
    AbsProduct(e / 2.0, d);
    AbsProduct(s * t, D / 2.0);
    AbsProduct(s, t);
    assert (e / 2.0) * d == (s * t) * (D / 2.0);
    assert Abs(e / 2.0) * d == s * Abs(t) * Abs(D / 2.0);
    assert (2.0 * Abs(e / 2.0)) * d == (r * s * Abs(t)) * d;
    CancelPositive(2.0 * Abs(e / 2.0) - r * s * Abs(t), d);
  }

  /** Replacing one vertex by a weighted combination of all three scales D by that vertex's weight. */
  lemma WeightedDeterminant(a: PointF, b: PointF, c: PointF, p: PointF, wa: real, wb: real, wc: real, d: real)
    requires d == wa + wb + wc
    requires d * p.x == wa * a.x + wb * b.x + wc * c.x
    requires d * p.y == wa * a.y + wb * b.y + wc * c.y
    ensures d * Determinant(p, b, c) == wa * Determinant(a, b, c)
  {
    assert d * Determinant(p, b, c) == (d * p.x) * (b.y - c.y) + b.x * (c.y * d - d * p.y) + c.x * (d * p.y - b.y * d);
  }

  /** |x * y| == |x| * |y|. */
  lemma AbsProduct(x: real, y: real)
    ensures Abs(x * y) == Abs(x) * Abs(y)
  {
    if x < 0.0 {
      MulPositive(-x, y);
      MulPositive(-x, -y);
    } else {
      MulPositive(x, y);
      MulPositive(x, -y);
    }
  }

  /** The result of assigning through the indexer. */
  datatype Outcome = Done | IndexOutOfRange

  class Triangle {
    /** The platform square root used for the side lengths. */
    const sqrt: real -> real

    var a: TrianglePoint
    var b: TrianglePoint
    var c: TrianglePoint

    var sideA: real
    var sideB: real
    var sideC: real
    var area: real
    var perimeter: real
    var isTriangle: bool

    /** The current vertices and derived fields as a value. */
    function View(): (v: TriangleView)
      reads this, a, b, c
      ensures v.a == a.ToPointF() && v.b == b.ToPointF() && v.c == c.ToPointF()
    {
      TriangleView(a.ToPointF(), b.ToPointF(), c.ToPointF(), sideA, sideB, sideC, area, perimeter, isTriangle)
    }

    /** The derived fields are those recomputed from the current vertices. */
    ghost predicate Valid()
      reads this, a, b, c
    {
      IsSqrt(sqrt) && View() == Measure(sqrt, a.ToPointF(), b.ToPointF(), c.ToPointF())
    }

    /** Takes the three vertex objects and computes the derived fields. */
    constructor (sqrt0: real -> real, pa: TrianglePoint, pb: TrianglePoint, pc: TrianglePoint)
      requires IsSqrt(sqrt0)
      ensures sqrt == sqrt0 && a == pa && b == pb && c == pc
      ensures Valid()
    {
      sqrt := sqrt0;
      a, b, c := pa, pb, pc;
      new;
      UpdateAll();
    }

    /** Recomputes the side lengths, the area, the perimeter and the triangle test. */
    method UpdateAll()
      requires IsSqrt(sqrt)
      modifies this
      ensures a == old(a) && b == old(b) && c == old(c)
      ensures Valid()
    {
      sideA := Distance(sqrt, b.ToPointF(), c.ToPointF());
      sideB := Distance(sqrt, a.ToPointF(), c.ToPointF());
      sideC := Distance(sqrt, a.ToPointF(), b.ToPointF());
      var d := Determinant(a.ToPointF(), b.ToPointF(), c.ToPointF());
      area := Abs(d / 2.0);
      perimeter := sideA + sideB + sideC;
      isTriangle := area > MinArea;
    }

    /** Replaces vertex A; the change notification recomputes the derived fields. */
    method SetA(p: TrianglePoint)
      requires Valid()
      modifies this
      ensures a == p && b == old(b) && c == old(c)
      ensures Valid()
    {
      a := p;
      UpdateAll();
    }

    /** Replaces vertex B; the change notification recomputes the derived fields. */
    method SetB(p: TrianglePoint)
      requires Valid()
      modifies this
      ensures b == p && a == old(a) && c == old(c)
      ensures Valid()
    {
      b := p;
      UpdateAll();
    }

    /** Replaces vertex C; the change notification recomputes the derived fields. */
    method SetC(p: TrianglePoint)
      requires Valid()
      modifies this
      ensures c == p && a == old(a) && b == old(b)
      ensures Valid()
    {
      c := p;
      UpdateAll();
    }

    /**
     * Sets the X coordinate of one of the vertex objects: the point's
     * notification reaches the triangle, which recomputes its derived fields.
     */
    method SetPointX(p: TrianglePoint, value: real)
      requires Valid() && (p == a || p == b || p == c)
      modifies this, p
      ensures a == old(a) && b == old(b) && c == old(c)
      ensures p.x == value && p.y == old(p.y)
      ensures Valid()
    {
      var _ := p.SetX(value);
      UpdateAll();
    }

    /** Sets the Y coordinate of one of the vertex objects and recomputes. */
    method SetPointY(p: TrianglePoint, value: real)
      requires Valid() && (p == a || p == b || p == c)
      modifies this, p
      ensures a == old(a) && b == old(b) && c == old(c)
      ensures p.y == value && p.x == old(p.x)
      ensures Valid()
    {
      var _ := p.SetY(value);
      UpdateAll();
    }

    /** The indexer's getter: 0, 1 and 2 name A, B and C; any other index gives null. */
    function Vertex(index: int): (r: TrianglePoint?)
      reads this
      ensures r != null <==> 0 <= index < 3
      ensures index == 0 ==> r == a
      ensures index == 1 ==> r == b
      ensures index == 2 ==> r == c
    {
      if index == 0 then a
      else if index == 1 then b
      else if index == 2 then c
      else null
    }

    /** The indexer's setter: an index outside [0, 3) is an error and changes nothing. */
    method SetVertex(index: int, p: TrianglePoint) returns (r: Outcome)
      requires Valid()
      modifies this
      ensures r == IndexOutOfRange <==> !(0 <= index < 3)
      ensures r == IndexOutOfRange ==> unchanged(this)
      ensures r == Done ==> Vertex(index) == p
      ensures forall i :: 0 <= i < 3 && i != index ==> Vertex(i) == old(Vertex(i))
      ensures Valid()
    {
      if index < 0 || index >= 3 {
        return IndexOutOfRange;
      }
      if index == 0 {
        SetA(p);
      } else if index == 1 {
        SetB(p);
      } else {
        SetC(p);
      }
      r := Done;
    }
  }
}
