/**
 * The constructions drawn over the triangle (centroid, circumcircle,
 * incircle, excircles, altitudes, orthocenter, Euler line, side bisectors,
 * nine-point circle, ...) and the groups that switch them on and off.
 *
 * Each construction is a function of the triangle's current measurements
 * (a `TriangleView`); drawing is modelled as the sequence of `Command`s a
 * visualizer emits. A group keeps its entries in insertion order and, when
 * asked to draw, emits the commands of its active entries in that order.
 */
module Visualizers {
  import opened Drawing
  import opened Helpers
  import opened TrianglePoints
  import opened Triangles

  /** The radius of the dot a point visualizer fills. */
  const Radius: real := 5.0

  /** How far the Euler line is drawn on each side of the centroid. */
  const EulerLineReach: real := 2000.0

  /** How far a side bisector is drawn on each side of the side's midpoint. */
  const SideBisectorReach: real := 10.0

  /** Trilinear coordinates x : y : z. */
  datatype Trilinears = Trilinears(x: real, y: real, z: real)

  /** A segment from one point to another. */
  datatype Segment = Segment(from: PointF, to: PointF)

  // ---------------------------------------------------------------------
  // Centroid

  /** The centroid: the barycentric point with equal weights 1/3. */
  function GetCentroid(v: TriangleView): (r: PointF)
    ensures Scale(3.0, r) == Add(Add(v.a, v.b), v.c)
  {
    BarycentricSpecialWeights(v);
    BarycentricToCartesian(v, 1.0 / 3.0, 1.0 / 3.0, 1.0 / 3.0)
  }

  // ---------------------------------------------------------------------
  // Circumcenter

  /** The circumcenter's trilinears a(-a² + b² + c²) : b(a² - b² + c²) : c(a² + b² - c²). */
  function CircumcenterTrilinears(v: TriangleView): Trilinears
  {
    var a, b, c := v.sideA, v.sideB, v.sideC;
    var a2, b2, c2 := a * a, b * b, c * c;
    Trilinears(a * (-a2 + b2 + c2), b * (a2 - b2 + c2), c * (a2 + b2 - c2))
  }

  /** The sum of the circumcenter's weights, by which the conversion divides. */
  function CircumcenterDenominator(v: TriangleView): real
  {
    var t := CircumcenterTrilinears(v);
    TrilinearDenominator(v, t.x, t.y, t.z)
  }

  /**
   * The circumcenter's denominator is 16 * area^2 (Heron's formula in the
   * squared sides), so it is positive for every triangle.
   */
  lemma CircumcenterDenominatorIsArea(v: TriangleView)
    requires WellMeasured(v)
    ensures CircumcenterDenominator(v) == 16.0 * (v.area * v.area)
    ensures v.isTriangle ==> CircumcenterDenominator(v) > 0.0
  {
    SideSquaresIdentity(v);
    CircumcenterWeightSum(v.sideA, v.sideB, v.sideC,
      DistanceSquared(v.b, v.c), DistanceSquared(v.a, v.c), DistanceSquared(v.a, v.b));
    if v.isTriangle {
      MulPositive(v.area, v.area);
    }
  }

  /** The circumcenter's weight sum, written in the squares of the sides. */
  lemma CircumcenterWeightSum(a: real, b: real, c: real, a2: real, b2: real, c2: real)
    requires a * a == a2 && b * b == b2 && c * c == c2
    ensures a * (a * (-a * a + b * b + c * c)) + b * (b * (a * a - b * b + c * c)) + c * (c * (a * a + b * b - c * c))
      == 2.0 * a2 * b2 + 2.0 * b2 * c2 + 2.0 * c2 * a2 - a2 * a2 - b2 * b2 - c2 * c2
  {
    assert a * (a * (-a * a + b * b + c * c)) == a2 * (-a2 + b2 + c2);
    assert b * (b * (a * a - b * b + c * c)) == b2 * (a2 - b2 + c2);
    assert c * (c * (a * a + b * b - c * c)) == c2 * (a2 + b2 - c2);
  }

  /**
   * The circumcenter's barycentric weights: each side times its trilinear
   * (`CircumcenterWeights` shows these are the classical ones).
   */
  function CircumcenterBarycentrics(v: TriangleView): Trilinears
  {
    var t := CircumcenterTrilinears(v);
    Trilinears(v.sideA * t.x, v.sideB * t.y, v.sideC * t.z)
  }

  /**
   * The circumcenter: the barycentric point with the circumcenter's weights,
   * over their sum.
   */
  function GetCircumcenter(v: TriangleView): (r: PointF)
    requires CircumcenterDenominator(v) != 0.0
    ensures var w := CircumcenterBarycentrics(v);
      Scale(CircumcenterDenominator(v), r) == BarycentricToCartesian(v, w.x, w.y, w.z)
  {
    var t := CircumcenterTrilinears(v);
    TrilinearToCartesian(v, t.x, t.y, t.z)
  }

  /**
   * The circumcenter's weights are the classical barycentrics
   * a²(-a² + b² + c²) : b²(a² - b² + c²) : c²(a² + b² - c²).
   */
  lemma CircumcenterWeights(v: TriangleView)
    ensures var w, a2, b2, c2 := CircumcenterBarycentrics(v), v.sideA * v.sideA, v.sideB * v.sideB, v.sideC * v.sideC;
      && w.x == a2 * (-a2 + b2 + c2)
      && w.y == b2 * (a2 - b2 + c2)
      && w.z == c2 * (a2 + b2 - c2)
  {
    var a, b, c := v.sideA, v.sideB, v.sideC;
    var a2, b2, c2 := a * a, b * b, c * c;
    SideTimesWeight(a, -a2 + b2 + c2);
    SideTimesWeight(b, a2 - b2 + c2);
    SideTimesWeight(c, a2 + b2 - c2);
  }

  /** s * (s * w) == (s * s) * w. */
  lemma SideTimesWeight(s: real, w: real)
    ensures s * (s * w) == (s * s) * w
  {
  }

  /** The circumradius as the source measures it: the distance from the circumcenter to A. */
  function Circumradius(sqrt: real -> real, v: TriangleView): (r: real)
    requires IsSqrt(sqrt) && CircumcenterDenominator(v) != 0.0
    ensures 0.0 <= r && r * r == DistanceSquared(GetCircumcenter(v), v.a)
  {
    Distance(sqrt, GetCircumcenter(v), v.a)
  }

  /**
   * The circumcircle the source draws (about the circumcenter, through A)
   * passes through B and C as well: the circumcenter is equidistant from the
   * three vertices of every triangle whose vertices are not collinear.
   */
  lemma CircumcenterEquidistant(v: TriangleView)
    requires WellMeasured(v) && CircumcenterDenominator(v) != 0.0
    ensures var o := GetCircumcenter(v);
      DistanceSquared(o, v.b) == DistanceSquared(o, v.a) && DistanceSquared(o, v.c) == DistanceSquared(o, v.a)
  {
    var u, w := Subtract(v.b, v.a), Subtract(v.c, v.a);
    var o, d, bw := GetCircumcenter(v), CircumcenterDenominator(v), CircumcenterBarycentrics(v);
    var x := Subtract(o, v.a);
    CircumcenterOffset(v);
    ProjectionsOfCombination(x, u, w, d, bw.y, bw.z);
    CircumcenterWeightsInSquares(v);
    SquaredSidesInEdges(v.a, v.b, v.c);
    CircumcenterDenominatorIsCross(v);
    LagrangeAt(u, w);
    CircumcenterAlgebra(DotProduct(u, u), DotProduct(w, w), DotProduct(u, w), Cross(u, w),
      DistanceSquared(v.b, v.c), DistanceSquared(v.a, v.c), DistanceSquared(v.a, v.b),
      bw.y, bw.z, d, DotProduct(x, u), DotProduct(x, w));
    EquidistantFromHalfProjection(o, v.a, v.b);
    EquidistantFromHalfProjection(o, v.a, v.c);
  }

  /** `CircumcenterEquidistant` for callers that only know the fields might be well measured. */
  lemma CircumcenterEquidistantWhenMeasured(v: TriangleView)
    requires CircumcenterDenominator(v) != 0.0
    ensures var o := GetCircumcenter(v);
      WellMeasured(v) ==> DistanceSquared(o, v.b) == DistanceSquared(o, v.a) && DistanceSquared(o, v.c) == DistanceSquared(o, v.a)
  {
    if WellMeasured(v) {
      CircumcenterEquidistant(v);
    }
  }

  /** The circumcenter relative to A: d (O - A) == wB (B - A) + wC (C - A), the weights summing to d. */
  lemma CircumcenterOffset(v: TriangleView)
    requires CircumcenterDenominator(v) != 0.0
    ensures var w := CircumcenterBarycentrics(v);
      Scale(CircumcenterDenominator(v), Subtract(GetCircumcenter(v), v.a))
        == Add(Scale(w.y, Subtract(v.b, v.a)), Scale(w.z, Subtract(v.c, v.a)))
  {
    var w := CircumcenterBarycentrics(v);
    var d := CircumcenterDenominator(v);
    assert d == w.x + w.y + w.z;
    WeightedOffset(v, w.x, w.y, w.z, d, GetCircumcenter(v));
  }

  /** A point whose d-multiple is the weighted sum of the vertices, with weights summing to d, relative to A. */
  lemma WeightedOffset(v: TriangleView, x: real, y: real, z: real, d: real, o: PointF)
    requires Scale(d, o) == BarycentricToCartesian(v, x, y, z) && x + y + z == d
    ensures Scale(d, Subtract(o, v.a)) == Add(Scale(y, Subtract(v.b, v.a)), Scale(z, Subtract(v.c, v.a)))
  {
    assert d * (o.x - v.a.x) == y * (v.b.x - v.a.x) + z * (v.c.x - v.a.x) by {
      assert d * o.x == x * v.a.x + y * v.b.x + z * v.c.x;
      assert d * v.a.x == x * v.a.x + y * v.a.x + z * v.a.x;
    }
    assert d * (o.y - v.a.y) == y * (v.b.y - v.a.y) + z * (v.c.y - v.a.y) by {
      assert d * o.y == x * v.a.y + y * v.b.y + z * v.c.y;
      assert d * v.a.y == x * v.a.y + y * v.a.y + z * v.a.y;
    }
  }

  /** Dotting d x == wy u + wz w with u and with w. */
  lemma ProjectionsOfCombination(x: PointF, u: PointF, w: PointF, d: real, wy: real, wz: real)
    requires Scale(d, x) == Add(Scale(wy, u), Scale(wz, w))
    ensures Projections(d, DotProduct(x, u), DotProduct(x, w), wy, wz, DotProduct(u, u), DotProduct(w, w), DotProduct(u, w))
  {
    assert d * x.x == wy * u.x + wz * w.x;
    assert d * x.y == wy * u.y + wz * w.y;
    assert d * DotProduct(x, u) == (d * x.x) * u.x + (d * x.y) * u.y;
    assert d * DotProduct(x, w) == (d * x.x) * w.x + (d * x.y) * w.y;
  }

  /** d (x.u) == wy |u|^2 + wz (u.w) and d (x.w) == wy (u.w) + wz |w|^2. */
  predicate Projections(d: real, xu: real, xw: real, wy: real, wz: real, p: real, q: real, m: real)
  {
    d * xu == wy * p + wz * m && d * xw == wy * m + wz * q
  }

  /** The weights at B and C: b^2 (a^2 - b^2 + c^2) and c^2 (a^2 + b^2 - c^2). */
  predicate ClassicalWeights(wy: real, wz: real, a2: real, b2: real, c2: real)
  {
    wy == b2 * (a2 - b2 + c2) && wz == c2 * (a2 + b2 - c2)
  }

  /** The circumcenter's weights at B and C, in the squared distances between the vertices. */
  lemma CircumcenterWeightsInSquares(v: TriangleView)
    requires WellMeasured(v)
    ensures var w := CircumcenterBarycentrics(v);
      ClassicalWeights(w.y, w.z, DistanceSquared(v.b, v.c), DistanceSquared(v.a, v.c), DistanceSquared(v.a, v.b))
  {
    CircumcenterWeights(v);
  }

  /** The squared sides in the edge vectors u = B - A and w = C - A. */
  lemma SquaredSidesInEdges(a: PointF, b: PointF, c: PointF)
    ensures var u, w := Subtract(b, a), Subtract(c, a);
      && DistanceSquared(b, c) == DotProduct(u, u) + DotProduct(w, w) - 2.0 * DotProduct(u, w)
      && DistanceSquared(a, c) == DotProduct(w, w)
      && DistanceSquared(a, b) == DotProduct(u, u)
  {
  }

  /** d == 4 cross^2. */
  predicate FourSquares(d: real, cross: real)
  {
    d == 4.0 * (cross * cross)
  }

  /** The circumcenter's denominator is four times the squared cross product of the edge vectors. */
  lemma CircumcenterDenominatorIsCross(v: TriangleView)
    requires WellMeasured(v)
    ensures FourSquares(CircumcenterDenominator(v), Cross(Subtract(v.b, v.a), Subtract(v.c, v.a)))
  {
    CircumcenterDenominatorIsArea(v);
    AreaSquared(v.a, v.b, v.c);
    DeterminantIsCross(v.a, v.b, v.c);
  }

  /** The circumcenter's algebra: its projections on the edges are half their squared lengths. */
  lemma CircumcenterAlgebra(p: real, q: real, m: real, cross: real, a2: real, b2: real, c2: real,
                            wy: real, wz: real, d: real, xu: real, xw: real)
    requires a2 == p + q - 2.0 * m && b2 == q && c2 == p
    requires ClassicalWeights(wy, wz, a2, b2, c2)
    requires FourSquares(d, cross) && d != 0.0
    requires LagrangeHolds(p, q, m, cross)
    requires Projections(d, xu, xw, wy, wz, p, q, m)
    ensures 2.0 * xu == p && 2.0 * xw == q
  {
    assert wy == 2.0 * q * (p - m) && wz == 2.0 * p * (q - m);
    assert d * (2.0 * xu) == 4.0 * p * (p * q - m * m);
    assert d * (2.0 * xu) == d * p;
    assert (2.0 * xu - p) * d == 0.0;
    CancelNonZero(2.0 * xu - p, d);
    assert d * (2.0 * xw) == 4.0 * q * (p * q - m * m);
    assert d * (2.0 * xw) == d * q;
    assert (2.0 * xw - q) * d == 0.0;
    CancelNonZero(2.0 * xw - q, d);
  }

  /** A point whose projection on the edge from A to B is half that edge is as far from B as from A. */
  lemma EquidistantFromHalfProjection(o: PointF, a: PointF, b: PointF)
    requires 2.0 * DotProduct(Subtract(o, a), Subtract(b, a)) == DotProduct(Subtract(b, a), Subtract(b, a))
    ensures DistanceSquared(o, b) == DistanceSquared(o, a)
  {
  }

  // ---------------------------------------------------------------------
  // Incenter, incircle

  /** The incenter: the trilinear point 1 : 1 : 1. */
  function GetIncenter(v: TriangleView): (r: PointF)
    requires TrilinearDenominator(v, 1.0, 1.0, 1.0) != 0.0
    ensures Scale(v.sideA + v.sideB + v.sideC, r) == BarycentricToCartesian(v, v.sideA, v.sideB, v.sideC)
  {
    TrilinearToCartesian(v, 1.0, 1.0, 1.0)
  }

  /** Half the perimeter. */
  function Semiperimeter(v: TriangleView): real
  {
    v.perimeter / 2.0
  }

  /** The inradius: the area over the semiperimeter. */
  function Inradius(v: TriangleView): (r: real)
    requires Semiperimeter(v) != 0.0
    ensures r * Semiperimeter(v) == v.area
  {
    v.area / Semiperimeter(v)
  }

  /**
   * The incircle touches all three side lines: the distance from the incenter
   * to each side (twice the area it spans with the side, over the side's
   * length) is the inradius, the r with r times the semiperimeter equal to
   * the area (`Inradius`).
   */
  lemma IncircleTouchesSides(v: TriangleView, r: real)
    requires WellMeasured(v) && v.isTriangle
    requires r * Semiperimeter(v) == v.area
    ensures TrilinearDenominator(v, 1.0, 1.0, 1.0) == v.perimeter > 0.0
    ensures var i := GetIncenter(v);
      && 2.0 * AreaOf(i, v.b, v.c) == r * v.sideA
      && 2.0 * AreaOf(i, v.c, v.a) == r * v.sideB
      && 2.0 * AreaOf(i, v.a, v.b) == r * v.sideC
  {
    TriangleVerticesDistinct(v);
    IncenterDistances(v, r);
  }

  /** `UnitTrilinearDistances` for the incenter, whose weight sum is the perimeter. */
  lemma IncenterDistances(v: TriangleView, r: real)
    requires 0.0 <= v.sideA && 0.0 <= v.sideB && 0.0 <= v.sideC
    requires v.perimeter == v.sideA + v.sideB + v.sideC > 0.0
    requires r * Semiperimeter(v) == AreaOf(v.a, v.b, v.c)
    ensures var p := TrilinearToCartesian(v, 1.0, 1.0, 1.0);
      && 2.0 * AreaOf(p, v.b, v.c) == r * v.sideA
      && 2.0 * AreaOf(p, v.c, v.a) == r * v.sideB
      && 2.0 * AreaOf(p, v.a, v.b) == r * v.sideC
  {
    DoubleGap(r, Semiperimeter(v), v.perimeter, AreaOf(v.a, v.b, v.c));
    assert Abs(1.0) == 1.0;
    UnitTrilinearDistances(v, 1.0, 1.0, 1.0, v.perimeter, r);
  }

  /**
   * `TrilinearDistancesToSides` for a point whose trilinears are all 1 or -1
   * and whose weight sum d is positive: its distance to every side line is r.
   */
  lemma UnitTrilinearDistances(v: TriangleView, x: real, y: real, z: real, d: real, r: real)
    requires Abs(x) == 1.0 && Abs(y) == 1.0 && Abs(z) == 1.0
    requires 0.0 <= v.sideA && 0.0 <= v.sideB && 0.0 <= v.sideC
    requires TrilinearDenominator(v, x, y, z) == d > 0.0
    requires r * d == 2.0 * AreaOf(v.a, v.b, v.c)
    ensures var p := TrilinearToCartesian(v, x, y, z);
      && 2.0 * AreaOf(p, v.b, v.c) == r * v.sideA
      && 2.0 * AreaOf(p, v.c, v.a) == r * v.sideB
      && 2.0 * AreaOf(p, v.a, v.b) == r * v.sideC
  {
    TrilinearDistancesToSides(v, x, y, z, r);
  }

  // ---------------------------------------------------------------------
  // Excenters, excircles

  /** A vertex of the triangle, naming the excircle opposite it. */
  datatype Corner = CornerA | CornerB | CornerC

  /** The side opposite a vertex. */
  function OppositeSide(v: TriangleView, k: Corner): real
  {
    match k
    case CornerA => v.sideA
    case CornerB => v.sideB
    case CornerC => v.sideC
  }

  /** The excenter opposite a vertex: trilinear -1 at that vertex and 1 at the other two. */
  function ExcenterTrilinears(k: Corner): (t: Trilinears)
    ensures Abs(t.x) == 1.0 && Abs(t.y) == 1.0 && Abs(t.z) == 1.0
  {
    match k
    case CornerA => Trilinears(-1.0, 1.0, 1.0)
    case CornerB => Trilinears(1.0, -1.0, 1.0)
    case CornerC => Trilinears(1.0, 1.0, -1.0)
  }

  /** The weight sum of an excenter's conversion. */
  function ExcenterDenominator(v: TriangleView, k: Corner): real
  {
    var t := ExcenterTrilinears(k);
    TrilinearDenominator(v, t.x, t.y, t.z)
  }

  /**
   * For measured sides the excenter's weight sum is the perimeter less twice
   * the opposite side, which the strict triangle inequality makes positive.
   */
  lemma ExcenterDenominatorPositive(v: TriangleView, k: Corner)
    requires WellMeasured(v)
    ensures ExcenterDenominator(v, k) == 2.0 * ExcircleGap(v, k)
    ensures v.isTriangle ==> ExcenterDenominator(v, k) > 0.0
  {
    if v.isTriangle {
      StrictTriangleInequality(v);
    }
  }

  /** The excenter opposite a vertex. */
  function GetExcenter(v: TriangleView, k: Corner): (r: PointF)
    requires ExcenterDenominator(v, k) != 0.0
    ensures var t := ExcenterTrilinears(k);
      Scale(ExcenterDenominator(v, k), r) == BarycentricToCartesian(v, v.sideA * t.x, v.sideB * t.y, v.sideC * t.z)
  {
    var t := ExcenterTrilinears(k);
    TrilinearToCartesian(v, t.x, t.y, t.z)
  }

  /**
   * An exradius as the source computes it from the semiperimeter s:
   * the square root of s(s - p)(s - q) / (s - opposite). When s and the
   * three gaps are positive it is positive, and the radius times the gap
   * s - opposite squares to Heron's product s(s - opposite)(s - p)(s - q).
   */
  function Exradius(sqrt: real -> real, s: real, opposite: real, p: real, q: real): (r: real)
    requires s - opposite != 0.0
    ensures IsSqrt(sqrt) && 0.0 < s && 0.0 < s - opposite && 0.0 < s - p && 0.0 < s - q ==>
      && 0.0 < r
      && (r * (s - opposite)) * (r * (s - opposite)) == s * (s - opposite) * (s - p) * (s - q)
  {
    MulPositive(s, s - p);
    MulPositive(s * (s - p), s - q);
    RootOfQuotient(sqrt, s * (s - p) * (s - q), s - opposite);
    sqrt(s * (s - p) * (s - q) / (s - opposite))
  }

  /** The root of n / g, for positive n and g, is positive, and times g it squares to n g. */
  lemma RootOfQuotient(sqrt: real -> real, n: real, g: real)
    requires g != 0.0
    ensures IsSqrt(sqrt) && 0.0 < n && 0.0 < g ==>
      0.0 < sqrt(n / g) && (sqrt(n / g) * g) * (sqrt(n / g) * g) == n * g
  {
    if IsSqrt(sqrt) && 0.0 < n && 0.0 < g {
      var y := n / g;
      assert 0.0 < y && y * g == n;
      var r := sqrt(y);
      assert r * r == y;
      SqrtZero(sqrt, y);
      assert (r * g) * (r * g) == (r * r) * (g * g);
    }
  }

  /** The two sides that meet at a vertex, in the order the source's exradius formula names them. */
  function AdjacentSides(v: TriangleView, k: Corner): (real, real)
  {
    match k
    case CornerA => (v.sideB, v.sideC)
    case CornerB => (v.sideA, v.sideC)
    case CornerC => (v.sideA, v.sideB)
  }

  /** The semiperimeter less a side. */
  function Gap(v: TriangleView, side: real): real
  {
    Semiperimeter(v) - side
  }

  /** The semiperimeter less the side opposite a vertex. */
  function ExcircleGap(v: TriangleView, k: Corner): real
  {
    Gap(v, OppositeSide(v, k))
  }

  /** The radius of the excircle opposite a vertex, from the triangle's semiperimeter and sides. */
  function ExcircleRadius(sqrt: real -> real, v: TriangleView, k: Corner): (r: real)
    requires ExcircleGap(v, k) != 0.0
    ensures IsSqrt(sqrt) && WellMeasured(v) && v.isTriangle ==> 0.0 < r
  {
    GapsPositiveWhenTriangle(v);
    Exradius(sqrt, Semiperimeter(v), OppositeSide(v, k), AdjacentSides(v, k).0, AdjacentSides(v, k).1)
  }

  /**
   * By Heron's formula the source's exradius is the area over the gap
   * s - opposite between the semiperimeter and the opposite side.
   */
  lemma ExcircleRadiusIsAreaOverGap(sqrt: real -> real, v: TriangleView, k: Corner)
    requires IsSqrt(sqrt) && WellMeasured(v) && v.isTriangle
    ensures ExcircleGap(v, k) > 0.0
    ensures ExcircleRadius(sqrt, v, k) * ExcircleGap(v, k) == v.area
  {
    GapsPositive(v);
    HeronGaps(v);
    ExcircleRadiusFromGaps(sqrt, v, k);
  }

  /** For a triangle every gap between the semiperimeter and a side is positive. */
  lemma GapsPositive(v: TriangleView)
    requires WellMeasured(v) && v.isTriangle
    ensures 0.0 <= v.area
    ensures Gap(v, v.sideA) > 0.0 && Gap(v, v.sideB) > 0.0 && Gap(v, v.sideC) > 0.0
  {
    StrictTriangleInequality(v);
  }

  /** `GapsPositive` for callers that do not yet know they have a triangle; the semiperimeter is the sum of the gaps. */
  lemma GapsPositiveWhenTriangle(v: TriangleView)
    ensures WellMeasured(v) && v.isTriangle ==>
      && Gap(v, v.sideA) > 0.0 && Gap(v, v.sideB) > 0.0 && Gap(v, v.sideC) > 0.0
      && Semiperimeter(v) > 0.0
  {
    if WellMeasured(v) && v.isTriangle {
      GapsPositive(v);
    }
  }

  /** Heron's formula in the gaps: area^2 == s(s - a)(s - b)(s - c). */
  lemma HeronGaps(v: TriangleView)
    requires WellMeasured(v)
    ensures v.area * v.area == Semiperimeter(v) * Gap(v, v.sideA) * Gap(v, v.sideB) * Gap(v, v.sideC)
  {
    HeronFormula(v);
    HeronSemiperimeter(v);
  }

  /** Heron's formula in the sides, rewritten in the semiperimeter and the gaps. */
  lemma HeronSemiperimeter(v: TriangleView)
    requires v.perimeter == v.sideA + v.sideB + v.sideC
    requires 16.0 * (v.area * v.area) ==
      (v.sideA + v.sideB + v.sideC) * (v.sideB + v.sideC - v.sideA) * (v.sideA + v.sideC - v.sideB) * (v.sideA + v.sideB - v.sideC)
    ensures v.area * v.area == Semiperimeter(v) * Gap(v, v.sideA) * Gap(v, v.sideB) * Gap(v, v.sideC)
  {
    var a, b, c := v.sideA, v.sideB, v.sideC;
    assert a + b + c == 2.0 * Semiperimeter(v);
    assert b + c - a == 2.0 * Gap(v, a);
    assert a + c - b == 2.0 * Gap(v, b);
    assert a + b - c == 2.0 * Gap(v, c);
  }

  /** The exradius for one vertex from Heron's formula in the gaps. */
  lemma ExcircleRadiusFromGaps(sqrt: real -> real, v: TriangleView, k: Corner)
    requires IsSqrt(sqrt) && 0.0 <= v.area
    requires Gap(v, v.sideA) > 0.0 && Gap(v, v.sideB) > 0.0 && Gap(v, v.sideC) > 0.0
    requires v.area * v.area == Semiperimeter(v) * Gap(v, v.sideA) * Gap(v, v.sideB) * Gap(v, v.sideC)
    ensures ExcircleGap(v, k) > 0.0
    ensures ExcircleRadius(sqrt, v, k) * ExcircleGap(v, k) == v.area
  {
    HeronAtCorner(v, k);
    ExradiusAtCorner(sqrt, v, k);
  }

  /** `ExradiusFromHeron` for the sides at one vertex. */
  lemma ExradiusAtCorner(sqrt: real -> real, v: TriangleView, k: Corner)
    requires IsSqrt(sqrt) && 0.0 <= v.area && Gap(v, OppositeSide(v, k)) > 0.0
    requires v.area * v.area == Semiperimeter(v) * Gap(v, OppositeSide(v, k))
      * Gap(v, AdjacentSides(v, k).0) * Gap(v, AdjacentSides(v, k).1)
    ensures ExcircleRadius(sqrt, v, k) * ExcircleGap(v, k) == v.area
  {
    var o, p, q := OppositeSide(v, k), AdjacentSides(v, k).0, AdjacentSides(v, k).1;
    ExradiusFromHeron(sqrt, Semiperimeter(v), o, p, q, Gap(v, o), Gap(v, p), Gap(v, q), v.area);
  }

  /** Heron's product with the opposite side's gap first. */
  lemma HeronAtCorner(v: TriangleView, k: Corner)
    requires Gap(v, v.sideA) > 0.0 && Gap(v, v.sideB) > 0.0 && Gap(v, v.sideC) > 0.0
    requires v.area * v.area == Semiperimeter(v) * Gap(v, v.sideA) * Gap(v, v.sideB) * Gap(v, v.sideC)
    ensures Gap(v, OppositeSide(v, k)) > 0.0
    ensures v.area * v.area == Semiperimeter(v) * Gap(v, OppositeSide(v, k))
      * Gap(v, AdjacentSides(v, k).0) * Gap(v, AdjacentSides(v, k).1)
  {
  }

  /**
   * area^2 == s(s - o)(s - p)(s - q) with s > o makes
   * sqrt(s(s - p)(s - q) / (s - o)) the area over the gap s - o.
   */
  lemma ExradiusFromHeron(sqrt: real -> real, s: real, o: real, p: real, q: real, go: real, gp: real, gq: real, area: real)
    requires IsSqrt(sqrt) && 0.0 <= area
    requires go == s - o && gp == s - p && gq == s - q && go > 0.0
    requires area * area == s * go * gp * gq
    ensures Exradius(sqrt, s, o, p, q) * go == area
  {
    var e := area / go;
    assert e * go == area;
    QuotientSquare(area, go, e, s * (s - p) * (s - q));
    SqrtUnique(sqrt, s * (s - p) * (s - q) / go, e);
  }

  /** If e * g == area and area^2 == n * g with g > 0, then e^2 == n / g. */
  lemma QuotientSquare(area: real, g: real, e: real, n: real)
    requires g > 0.0 && 0.0 <= area && e * g == area
    requires area * area == n * g
    ensures 0.0 <= e && e * e == n / g
  {
    assert (e * e) * (g * g) == n * g;
    assert (e * e) * g == n by {
      assert ((e * e) * g - n) * g == 0.0;
      CancelPositive((e * e) * g - n, g);
    }
  }

  /**
   * The excircle opposite a vertex touches all three side lines: the
   * excenter's distance to each side is r whenever r times the gap
   * s - opposite is the area (`ExcircleRadiusIsAreaOverGap`).
   */
  lemma ExcircleTouchesSides(v: TriangleView, k: Corner, r: real)
    requires WellMeasured(v) && v.isTriangle
    requires r * ExcircleGap(v, k) == v.area
    ensures ExcenterDenominator(v, k) > 0.0
    ensures var e := GetExcenter(v, k);
      && 2.0 * AreaOf(e, v.b, v.c) == r * v.sideA
      && 2.0 * AreaOf(e, v.c, v.a) == r * v.sideB
      && 2.0 * AreaOf(e, v.a, v.b) == r * v.sideC
  {
    ExcenterDenominatorPositive(v, k);
    ExcenterDistancesFromGap(v, k, r);
  }

  /** `ExcenterDistances` for an r with r times the excircle's gap equal to the area. */
  lemma ExcenterDistancesFromGap(v: TriangleView, k: Corner, r: real)
    requires 0.0 <= v.sideA && 0.0 <= v.sideB && 0.0 <= v.sideC
    requires ExcenterDenominator(v, k) == 2.0 * ExcircleGap(v, k) > 0.0
    requires r * ExcircleGap(v, k) == AreaOf(v.a, v.b, v.c)
    ensures var e := GetExcenter(v, k);
      && 2.0 * AreaOf(e, v.b, v.c) == r * v.sideA
      && 2.0 * AreaOf(e, v.c, v.a) == r * v.sideB
      && 2.0 * AreaOf(e, v.a, v.b) == r * v.sideC
  {
    DoubleGap(r, ExcircleGap(v, k), ExcenterDenominator(v, k), AreaOf(v.a, v.b, v.c));
    ExcenterDistances(v, k, r);
  }

  /** r * g == area and d == 2g give r * d == 2 * area. */
  lemma DoubleGap(r: real, g: real, d: real, area: real)
    requires r * g == area && d == 2.0 * g
    ensures r * d == 2.0 * area
  {
  }

  /** `UnitTrilinearDistances` for an excenter with a positive weight sum. */
  lemma ExcenterDistances(v: TriangleView, k: Corner, r: real)
    requires 0.0 <= v.sideA && 0.0 <= v.sideB && 0.0 <= v.sideC
    requires ExcenterDenominator(v, k) > 0.0
    requires r * ExcenterDenominator(v, k) == 2.0 * AreaOf(v.a, v.b, v.c)
    ensures var e := GetExcenter(v, k);
      && 2.0 * AreaOf(e, v.b, v.c) == r * v.sideA
      && 2.0 * AreaOf(e, v.c, v.a) == r * v.sideB
      && 2.0 * AreaOf(e, v.a, v.b) == r * v.sideC
  {
    var t := ExcenterTrilinears(k);
    UnitTrilinearDistances(v, t.x, t.y, t.z, ExcenterDenominator(v, k), r);
  }

  // ---------------------------------------------------------------------
  // Orthocenter

  /** The cosine of the angle at A, as the source measures it: between the rays to B and to C. */
  function CosA(sqrt: real -> real, v: TriangleView): real
    requires IsSqrt(sqrt) && v.a != v.b && v.b != v.c && v.a != v.c
  {
    Cosine(sqrt, v.b, v.a, v.c)
  }

  /** The cosine of the angle at B: between the rays to A and to C. */
  function CosB(sqrt: real -> real, v: TriangleView): real
    requires IsSqrt(sqrt) && v.a != v.b && v.b != v.c && v.a != v.c
  {
    Cosine(sqrt, v.a, v.b, v.c)
  }

  /** The cosine of the angle at C: between the rays to A and to B. */
  function CosC(sqrt: real -> real, v: TriangleView): real
    requires IsSqrt(sqrt) && v.a != v.b && v.b != v.c && v.a != v.c
  {
    Cosine(sqrt, v.a, v.c, v.b)
  }

  /**
   * The orthocenter's trilinears as the source computes them:
   * cos A - sin B sin C : cos B - sin C sin A : cos C - sin A sin B.
   * `OrthocenterTrilinearsClassical` gives their classical form.
   */
  function OrthocenterTrilinears(sqrt: real -> real, v: TriangleView): Trilinears
    requires IsSqrt(sqrt) && v.a != v.b && v.b != v.c && v.a != v.c
  {
    var sinA, sinB, sinC := Sine(sqrt, v.b, v.a, v.c), Sine(sqrt, v.a, v.b, v.c), Sine(sqrt, v.a, v.c, v.b);
    Trilinears(CosA(sqrt, v) - sinB * sinC, CosB(sqrt, v) - sinC * sinA, CosC(sqrt, v) - sinA * sinB)
  }

  /**
   * Since the angles of a triangle add up to a straight angle,
   * cos A - sin B sin C == -cos B cos C, and likewise at B and C: the
   * source's trilinears are the classical -cos B cos C : -cos C cos A :
   * -cos A cos B, proportional to sec A : sec B : sec C.
   */
  lemma OrthocenterTrilinearsClassical(sqrt: real -> real, v: TriangleView)
    requires IsSqrt(sqrt) && v.a != v.b && v.b != v.c && v.a != v.c
    ensures var t := OrthocenterTrilinears(sqrt, v);
      && t.x == -(CosB(sqrt, v) * CosC(sqrt, v))
      && t.y == -(CosC(sqrt, v) * CosA(sqrt, v))
      && t.z == -(CosA(sqrt, v) * CosB(sqrt, v))
  {
    OrthocenterFirstTrilinear(sqrt, v);
    OrthocenterSecondTrilinear(sqrt, v);
    OrthocenterThirdTrilinear(sqrt, v);
  }

  lemma OrthocenterFirstTrilinear(sqrt: real -> real, v: TriangleView)
    requires IsSqrt(sqrt) && v.a != v.b && v.b != v.c && v.a != v.c
    ensures OrthocenterTrilinears(sqrt, v).x == -(CosB(sqrt, v) * CosC(sqrt, v))
  {
    AngleIdentityAt(sqrt, v.a, v.b, v.c);
  }

  lemma OrthocenterSecondTrilinear(sqrt: real -> real, v: TriangleView)
    requires IsSqrt(sqrt) && v.a != v.b && v.b != v.c && v.a != v.c
    ensures OrthocenterTrilinears(sqrt, v).y == -(CosC(sqrt, v) * CosA(sqrt, v))
  {
    AngleIdentityAt(sqrt, v.b, v.a, v.c);
    CosineSymmetric(sqrt, v.b, v.c, v.a);
    SineSymmetric(sqrt, v.b, v.c, v.a);
  }

  lemma OrthocenterThirdTrilinear(sqrt: real -> real, v: TriangleView)
    requires IsSqrt(sqrt) && v.a != v.b && v.b != v.c && v.a != v.c
    ensures OrthocenterTrilinears(sqrt, v).z == -(CosA(sqrt, v) * CosB(sqrt, v))
  {
    AngleIdentityAt(sqrt, v.c, v.a, v.b);
    CosineSymmetric(sqrt, v.c, v.a, v.b);
    CosineSymmetric(sqrt, v.c, v.b, v.a);
    SineSymmetric(sqrt, v.c, v.a, v.b);
    SineSymmetric(sqrt, v.c, v.b, v.a);
  }

  /**
   * cos A + cos B cos C == sin B sin C for three distinct points, with the
   * angles at A, B and C measured as the source does (between the rays to
   * B and C, to A and C, and to A and B respectively).
   */
  lemma AngleIdentityAt(sqrt: real -> real, a: PointF, b: PointF, c: PointF)
    requires IsSqrt(sqrt) && a != b && b != c && a != c
    ensures Cosine(sqrt, b, a, c) - Sine(sqrt, a, b, c) * Sine(sqrt, a, c, b)
      == -(Cosine(sqrt, a, b, c) * Cosine(sqrt, a, c, b))
  {
    var u, w, x := PointF(b.x - a.x, b.y - a.y), PointF(c.x - a.x, c.y - a.y), PointF(c.x - b.x, c.y - b.y);
    LengthBetween(sqrt, a, b);
    LengthBetween(sqrt, a, c);
    LengthBetween(sqrt, b, c);
    OppositeIntensity(sqrt, a, b);
    OppositeIntensity(sqrt, a, c);
    OppositeIntensity(sqrt, b, c);
    CosineAt(sqrt, b, a, c);
    CosineAt(sqrt, a, b, c);
    CosineAt(sqrt, a, c, b);
    SineAt(sqrt, a, b, c);
    SineAt(sqrt, a, c, b);
    LagrangeAt(u, w);
    DotsAtVertices(a, b, c);
    AngleIdentityCore(DotProduct(u, u), DotProduct(w, w), DotProduct(u, w), Cross(u, w), DotProduct(x, x),
      DotProduct(PointF(a.x - b.x, a.y - b.y), PointF(c.x - b.x, c.y - b.y)),
      DotProduct(PointF(a.x - c.x, a.y - c.y), PointF(b.x - c.x, b.y - c.y)),
      Intensity(sqrt, x), Intensity(sqrt, w), Intensity(sqrt, u),
      Intensity(sqrt, PointF(b.x - c.x, b.y - c.y)), Intensity(sqrt, PointF(a.x - c.x, a.y - c.y)),
      Intensity(sqrt, PointF(a.x - b.x, a.y - b.y)),
      Cosine(sqrt, b, a, c), Cosine(sqrt, a, b, c), Cosine(sqrt, a, c, b), Sine(sqrt, a, b, c), Sine(sqrt, a, c, b));
  }

  /** |u|^2 |w|^2 == (u . w)^2 + (u x w)^2. */
  predicate LagrangeHolds(p: real, q: real, m: real, cross: real)
  {
    p * q == m * m + cross * cross
  }

  /** Lagrange's identity for two given vectors. */
  lemma LagrangeAt(u: PointF, w: PointF)
    ensures LagrangeHolds(DotProduct(u, u), DotProduct(w, w), DotProduct(u, w), Cross(u, w))
  {
    LagrangeIdentity(u, w);
  }

  /** The length of q - p is the length of p - q. */
  lemma OppositeIntensity(sqrt: real -> real, p: PointF, q: PointF)
    requires IsSqrt(sqrt)
    ensures Intensity(sqrt, PointF(q.x - p.x, q.y - p.y)) == Intensity(sqrt, PointF(p.x - q.x, p.y - q.y))
  {
    var l, m := Intensity(sqrt, PointF(q.x - p.x, q.y - p.y)), Intensity(sqrt, PointF(p.x - q.x, p.y - q.y));
    assert l * l == m * m;
    UpperFromSquares(l, m);
    UpperFromSquares(m, l);
  }

  /** The dot products at B and at C, in those at A: with u = B - A and w = C - A. */
  lemma DotsAtVertices(a: PointF, b: PointF, c: PointF)
    ensures var u, w := PointF(b.x - a.x, b.y - a.y), PointF(c.x - a.x, c.y - a.y);
      && DotProduct(PointF(a.x - b.x, a.y - b.y), PointF(c.x - b.x, c.y - b.y)) == DotProduct(u, u) - DotProduct(u, w)
      && DotProduct(PointF(a.x - c.x, a.y - c.y), PointF(b.x - c.x, b.y - c.y)) == DotProduct(w, w) - DotProduct(u, w)
      && DotProduct(PointF(c.x - b.x, c.y - b.y), PointF(c.x - b.x, c.y - b.y))
        == DotProduct(u, u) + DotProduct(w, w) - 2.0 * DotProduct(u, w)
  {
  }

  /**
   * The angle identity on plain numbers: p = |u|^2, q = |w|^2, m = u.w,
   * cross = u x w and sa the squared length of the third side; la, lb, lc
   * the side lengths (primed: the same lengths measured the other way);
   * cA, cB, cC the cosines and sB, sC the sines at B and C.
   */
  lemma AngleIdentityCore(p: real, q: real, m: real, cross: real, sa: real, dB: real, dC: real,
                          la: real, lb: real, lc: real, la': real, lb': real, lc': real,
                          cA: real, cB: real, cC: real, sB: real, sC: real)
    requires IsLength(lc, p) && IsLength(lb, q) && IsLength(la, sa)
    requires sa == p + q - 2.0 * m && dB == p - m && dC == q - m
    requires LagrangeHolds(p, q, m, cross)
    requires la' == la && lb' == lb && lc' == lc
    requires IsCosine(cA, lc, lb, m) && IsCosine(cB, lc', la, dB) && IsCosine(cC, lb', la', dC)
    requires IsSine(sB, cB) && IsSine(sC, cC)
    ensures cA - sB * sC == -(cB * cC)
  {
    var d2 := cross * cross;
    var lB, lC := lc * la, lb * la;
    MulPositive(lc, la);
    MulPositive(lb, la);
    MulPositive(lB, lC);
    LengthsAtVertex(lc, la, p, q, m, dB, d2);
    LengthsAtVertex(lb, la, q, p, m, dC, d2);
    SineTimesLengths(sB, cB, lB, dB, d2);
    SineTimesLengths(sC, cC, lC, dC, d2);
    SameRootProduct(sB * lB, sC * lC, d2);
    ProductOfProducts(cB, cC, lB, lC, dB, dC);
    ProductOfProducts(sB, sC, lB, lC, sB * lB, sC * lC);
    Regroup(cA, lc, lb, la, m, lB, lC);
    AngleSumCancel(cA, cB * cC, sB * sC, lB * lC, m, la * la, dB, dC, d2, p, q);
  }

  /**
   * (l1 l2)^2 == d^2 + d2 when l1^2 == p1, l2^2 == p1 + p2 - 2m,
   * d == p1 - m and p1 p2 == m^2 + d2.
   */
  lemma LengthsAtVertex(l1: real, l2: real, p1: real, p2: real, m: real, d: real, d2: real)
    requires l1 * l1 == p1 && l2 * l2 == p1 + p2 - 2.0 * m && d == p1 - m && p1 * p2 == m * m + d2
    ensures (l1 * l2) * (l1 * l2) == d * d + d2
  {
    assert (l1 * l2) * (l1 * l2) == (l1 * l1) * (l2 * l2);
    assert p1 * (p1 + p2 - 2.0 * m) == d * d + d2;
  }

  /** Two non-negative roots of d2 multiply to d2. */
  lemma SameRootProduct(e1: real, e2: real, d2: real)
    requires 0.0 <= e1 && 0.0 <= e2 && e1 * e1 == d2 && e2 * e2 == d2
    ensures e1 * e2 == d2
  {
    UpperFromSquares(e1, e2);
    UpperFromSquares(e2, e1);
  }

  /** x X == d1 and y Y == d2 give (x y)(X Y) == d1 d2. */
  lemma ProductOfProducts(x: real, y: real, bigX: real, bigY: real, d1: real, d2: real)
    requires x * bigX == d1 && y * bigY == d2
    ensures (x * y) * (bigX * bigY) == d1 * d2
  {
    assert (x * y) * (bigX * bigY) == (x * bigX) * (y * bigY);
  }

  /** cA (lc lb) == m gives cA ((lc la)(lb la)) == m la^2. */
  lemma Regroup(cA: real, lc: real, lb: real, la: real, m: real, lB: real, lC: real)
    requires cA * (lc * lb) == m && lB == lc * la && lC == lb * la
    ensures cA * (lB * lC) == m * (la * la)
  {
    assert cA * ((lc * la) * (lb * la)) == (cA * (lc * lb)) * (la * la);
  }

  /** The three terms of cos A + cos B cos C - sin B sin C, times n > 0, cancel. */
  lemma AngleSumCancel(cA: real, cc: real, ss: real, n: real, m: real, a2: real, dB: real, dC: real, d2: real, p: real, q: real)
    requires 0.0 < n
    requires cA * n == m * a2 && cc * n == dB * dC
    requires a2 == p + q - 2.0 * m && dB == p - m && dC == q - m && p * q == m * m + d2
    requires ss * n == d2
    ensures cA - ss == -cc
  {
    assert d2 == dB * dC + m * a2;
    assert (cA + cc - ss) * n == 0.0;
    CancelPositive(cA + cc - ss, n);
  }

  /** A sine times the two lengths whose cosine it pairs with is the root of d2. */
  lemma SineTimesLengths(s: real, cs: real, l: real, d: real, d2: real)
    requires 0.0 <= s && s * s + cs * cs == 1.0
    requires 0.0 < l && cs * l == d && l * l == d * d + d2
    ensures 0.0 <= s * l && (s * l) * (s * l) == d2
  {
    assert (s * l) * (s * l) == (s * s) * (l * l);
    assert (cs * cs) * (l * l) == d * d;
    MulPositive(s, l);
  }

  /** The sum of the orthocenter's weights, by which the conversion divides. */
  function OrthocenterDenominator(sqrt: real -> real, v: TriangleView): real
    requires IsSqrt(sqrt) && v.a != v.b && v.b != v.c && v.a != v.c
  {
    var t := OrthocenterTrilinears(sqrt, v);
    TrilinearDenominator(v, t.x, t.y, t.z)
  }

  /**
   * The orthocenter's barycentric weights, the side lengths times its
   * trilinears: the classical -a cos B cos C : -b cos C cos A : -c cos A cos B.
   */
  function OrthocenterBarycentrics(sqrt: real -> real, v: TriangleView): (w: Trilinears)
    requires IsSqrt(sqrt) && v.a != v.b && v.b != v.c && v.a != v.c
    ensures var cA, cB, cC := CosA(sqrt, v), CosB(sqrt, v), CosC(sqrt, v);
      && w.x == v.sideA * -(cB * cC)
      && w.y == v.sideB * -(cC * cA)
      && w.z == v.sideC * -(cA * cB)
  {
    OrthocenterTrilinearsClassical(sqrt, v);
    var t := OrthocenterTrilinears(sqrt, v);
    Trilinears(v.sideA * t.x, v.sideB * t.y, v.sideC * t.z)
  }

  /**
   * The orthocenter, converted from the source's trilinears: the weighted
   * sum of the vertices by its barycentric weights. The source divides
   * unguarded, so the weight sum must not be zero.
   */
  function GetOrthocenter(sqrt: real -> real, v: TriangleView): (r: PointF)
    requires IsSqrt(sqrt) && v.a != v.b && v.b != v.c && v.a != v.c
    requires OrthocenterDenominator(sqrt, v) != 0.0
    ensures var w := OrthocenterBarycentrics(sqrt, v);
      Scale(OrthocenterDenominator(sqrt, v), r) == BarycentricToCartesian(v, w.x, w.y, w.z)
  {
    var t := OrthocenterTrilinears(sqrt, v);
    OrthocenterBarycentricsFromTrilinears(sqrt, v);
    TrilinearToCartesian(v, t.x, t.y, t.z)
  }

  /** The orthocenter's barycentric weights are the side lengths times the source's trilinears. */
  lemma OrthocenterBarycentricsFromTrilinears(sqrt: real -> real, v: TriangleView)
    requires IsSqrt(sqrt) && v.a != v.b && v.b != v.c && v.a != v.c
    ensures var t := OrthocenterTrilinears(sqrt, v);
      && OrthocenterBarycentrics(sqrt, v) == Trilinears(v.sideA * t.x, v.sideB * t.y, v.sideC * t.z)
      && OrthocenterDenominator(sqrt, v) == TrilinearDenominator(v, t.x, t.y, t.z)
  {
  }

  // ---------------------------------------------------------------------
  // Altitudes

  /**
   * The foot of the altitude from `altitudeVertex` onto the line through
   * `referentVertex` and `thirdVertex`: the referent vertex moved along the
   * side by the projection of the altitude vertex. It lies on that line and
   * the altitude is perpendicular to it.
   */
  function GetAltitudeFoot(altitudeVertex: PointF, referentVertex: PointF, thirdVertex: PointF): (r: PointF)
    requires referentVertex != thirdVertex
    ensures Cross(Subtract(r, referentVertex), Subtract(thirdVertex, referentVertex)) == 0.0
    ensures DotProduct(Subtract(altitudeVertex, r), Subtract(thirdVertex, referentVertex)) == 0.0
  {
    var lengthSquared := DistanceSquared(referentVertex, thirdVertex);
    var referentToAltitude := Subtract(altitudeVertex, referentVertex);
    var referentToThird := Subtract(thirdVertex, referentVertex);
    var k := DotProduct(referentToThird, referentToAltitude) / lengthSquared;
    var r := Add(referentVertex, ScaleRight(referentToThird, k));
    FootFacts(altitudeVertex, referentVertex, referentToThird, lengthSquared, k, r);
    r
  }

  /** The foot lies on the side's line and the altitude meets that line at a right angle. */
  lemma FootFacts(v: PointF, origin: PointF, d: PointF, lengthSquared: real, k: real, r: PointF)
    requires lengthSquared == DotProduct(d, d) && lengthSquared != 0.0
    requires k == DotProduct(d, Subtract(v, origin)) / lengthSquared
    requires r == Add(origin, ScaleRight(d, k))
    ensures Cross(Subtract(r, origin), d) == 0.0
    ensures DotProduct(Subtract(v, r), d) == 0.0
  {
    assert k * lengthSquared == DotProduct(d, Subtract(v, origin));
    assert Subtract(r, origin) == PointF(k * d.x, k * d.y);
    assert DotProduct(Subtract(v, r), d) == DotProduct(d, Subtract(v, origin)) - k * lengthSquared;
  }

  /** The squared distance between two points is the dot product of their difference with itself. */
  lemma DistanceSquaredIsDot(p: PointF, q: PointF)
    ensures DistanceSquared(p, q) == DotProduct(Subtract(q, p), Subtract(q, p))
  {
  }

  /**
   * The foot is the point of the side's line nearest to the altitude vertex:
   * no point `referent + t * (third - referent)` is closer.
   */
  lemma AltitudeFootIsNearest(altitudeVertex: PointF, referentVertex: PointF, thirdVertex: PointF, t: real)
    requires referentVertex != thirdVertex
    ensures var f, d := GetAltitudeFoot(altitudeVertex, referentVertex, thirdVertex), Subtract(thirdVertex, referentVertex);
      DistanceSquared(altitudeVertex, f) <= DistanceSquared(altitudeVertex, Add(referentVertex, Scale(t, d)))
  {
    var f, d := GetAltitudeFoot(altitudeVertex, referentVertex, thirdVertex), Subtract(thirdVertex, referentVertex);
    var p := Add(referentVertex, Scale(t, d));
    var w, u := Subtract(altitudeVertex, f), Subtract(p, f);
    assert Cross(u, d) == t * Cross(d, d) - Cross(Subtract(f, referentVertex), d);
    PerpendicularToParallel(w, u, d);
    Pythagoras(w, u);
    assert Subtract(altitudeVertex, p) == PointF(w.x - u.x, w.y - u.y);
  }

  /** In the plane, a vector perpendicular to a non-zero `d` is perpendicular to every vector parallel to `d`. */
  lemma PerpendicularToParallel(w: PointF, u: PointF, d: PointF)
    requires d != Origin && DotProduct(w, d) == 0.0 && Cross(u, d) == 0.0
    ensures DotProduct(w, u) == 0.0
  {
    assert DotProduct(w, u) * DotProduct(d, d) == DotProduct(w, d) * DotProduct(u, d) + Cross(w, d) * Cross(u, d);
    DotSelf(d);
    CancelPositive(DotProduct(w, u), DotProduct(d, d));
  }

  /** For perpendicular `w` and `u`, |w - u|^2 == |w|^2 + |u|^2 >= |w|^2. */
  lemma Pythagoras(w: PointF, u: PointF)
    requires DotProduct(w, u) == 0.0
    ensures var e := PointF(w.x - u.x, w.y - u.y); DotProduct(e, e) == DotProduct(w, w) + DotProduct(u, u)
    ensures DotProduct(w, w) <= DotProduct(w, w) + DotProduct(u, u)
  {
    SquareFacts(u.x);
    SquareFacts(u.y);
  }

  /**
   * The altitude times the side it falls on is twice the triangle's area
   * (in squares: the source never takes the root).
   */
  lemma AltitudeTimesSide(altitudeVertex: PointF, referentVertex: PointF, thirdVertex: PointF)
    requires referentVertex != thirdVertex
    ensures var f, area := GetAltitudeFoot(altitudeVertex, referentVertex, thirdVertex), AreaOf(altitudeVertex, referentVertex, thirdVertex);
      DistanceSquared(altitudeVertex, f) * DistanceSquared(referentVertex, thirdVertex) == (2.0 * area) * (2.0 * area)
  {
    var f, d := GetAltitudeFoot(altitudeVertex, referentVertex, thirdVertex), Subtract(thirdVertex, referentVertex);
    var w := Subtract(altitudeVertex, f);
    LagrangeIdentity(w, d);
    assert Cross(w, d) == Cross(Subtract(altitudeVertex, referentVertex), d) - Cross(Subtract(f, referentVertex), d);
    DeterminantIsCross(referentVertex, altitudeVertex, thirdVertex);
    DeterminantSymmetries(altitudeVertex, referentVertex, thirdVertex, Origin);
    AreaSquared(altitudeVertex, referentVertex, thirdVertex);
    DistanceSquaredIsDot(altitudeVertex, f);
    DistanceSquaredIsDot(referentVertex, thirdVertex);
  }

  // ---------------------------------------------------------------------
  // Excircle tangents

  /**
   * The second point where the line from `from` through `to` meets the
   * circle about `center` that passes through `to`: it lies on that line
   * and on that circle.
   */
  function TangentCircleIntersection(from: PointF, to: PointF, center: PointF): (r: PointF)
    requires from != to
    ensures Cross(Subtract(r, to), Subtract(to, from)) == 0.0
    ensures DistanceSquared(center, r) == DistanceSquared(center, to)
  {
    var fromTo := Subtract(to, from);
    var toCenter := Subtract(center, to);
    var lengthSquared := DistanceSquared(from, to);
    var k := DotProduct(fromTo, toCenter) / lengthSquared;
    var r := Add(Scale(2.0 * k, fromTo), to);
    SecondIntersectionFacts(fromTo, toCenter, lengthSquared, k, center, to, r);
    r
  }

  /** Moving from `to` by twice the projection of `center - to` lands on the same circle, on the same line. */
  lemma SecondIntersectionFacts(d: PointF, toCenter: PointF, lengthSquared: real, k: real, center: PointF, to: PointF, r: PointF)
    requires lengthSquared == DotProduct(d, d) && lengthSquared != 0.0
    requires toCenter == Subtract(center, to) && k == DotProduct(d, toCenter) / lengthSquared
    requires r == Add(Scale(2.0 * k, d), to)
    ensures Cross(Subtract(r, to), d) == 0.0
    ensures DistanceSquared(center, r) == DistanceSquared(center, to)
  {
    var e := Scale(2.0 * k, d);
    assert Subtract(r, to) == e;
    assert Subtract(center, r) == PointF(toCenter.x - e.x, toCenter.y - e.y);
    StepSquared(toCenter, e);
    ScaledVectorDots(2.0 * k, d, toCenter);
    StepCancels(k, lengthSquared, DotProduct(d, toCenter));
    DistanceSquaredIsDot(r, center);
    DistanceSquaredIsDot(to, center);
  }

  /** |t - e|^2 == |t|^2 - 2 t.e + |e|^2. */
  lemma StepSquared(t: PointF, e: PointF)
    ensures var g := PointF(t.x - e.x, t.y - e.y);
      DotProduct(g, g) == DotProduct(t, t) - 2.0 * DotProduct(t, e) + DotProduct(e, e)
  {
  }

  /** Dot and cross products with a scaled vector scale with it. */
  lemma ScaledVectorDots(c: real, d: PointF, t: PointF)
    ensures DotProduct(t, Scale(c, d)) == c * DotProduct(d, t)
    ensures DotProduct(Scale(c, d), Scale(c, d)) == (c * c) * DotProduct(d, d)
    ensures Cross(Scale(c, d), d) == 0.0
  {
    assert DotProduct(Scale(c, d), Scale(c, d)) == (c * c) * (d.x * d.x) + (c * c) * (d.y * d.y);
  }

  /** With k L == D, the terms -2 (2k) D and (2k)^2 L cancel. */
  lemma StepCancels(k: real, lengthSquared: real, dot: real)
    requires lengthSquared != 0.0 && k == dot / lengthSquared
    ensures -2.0 * ((2.0 * k) * dot) + ((2.0 * k) * (2.0 * k)) * lengthSquared == 0.0
  {
    assert k * lengthSquared == dot;
    assert ((2.0 * k) * (2.0 * k)) * lengthSquared == 4.0 * k * (k * lengthSquared);
  }

  /**
   * The segment the excircle-tangent visualizer draws from the second
   * intersection to `to` is centred on the foot of the perpendicular from
   * `center` onto the line: for an excircle, the point where it touches
   * that side line.
   */
  lemma TangentSegmentCentredOnFoot(from: PointF, to: PointF, center: PointF)
    requires from != to
    ensures Midpoint(TangentCircleIntersection(from, to, center), to) == GetAltitudeFoot(center, from, to)
  {
    var d := Subtract(to, from);
    var lengthSquared := DistanceSquared(from, to);
    var k := DotProduct(d, Subtract(center, to)) / lengthSquared;
    var k' := DotProduct(d, Subtract(center, from)) / lengthSquared;
    assert TangentCircleIntersection(from, to, center) == Add(Scale(2.0 * k, d), to);
    assert GetAltitudeFoot(center, from, to) == Add(from, ScaleRight(d, k'));
    DistanceSquaredIsDot(from, to);
    ProjectionShift(d, Subtract(center, to), Subtract(center, from), lengthSquared, k, k');
    MidpointOfStep(k, d, from, to);
  }

  /** Halfway between `to + 2k d` and `to` is `from + (k + 1) d`, for d == to - from. */
  lemma MidpointOfStep(k: real, d: PointF, from: PointF, to: PointF)
    requires d == Subtract(to, from)
    ensures Midpoint(Add(Scale(2.0 * k, d), to), to) == Add(from, ScaleRight(d, k + 1.0))
  {
    assert (2.0 * k * d.x + to.x + to.x) / 2.0 == from.x + (k + 1.0) * d.x;
    assert (2.0 * k * d.y + to.y + to.y) / 2.0 == from.y + (k + 1.0) * d.y;
  }

  /** Projecting from `from` rather than from `to` adds exactly one step along `d`. */
  lemma ProjectionShift(d: PointF, toCenter: PointF, fromCenter: PointF, lengthSquared: real, k: real, k': real)
    requires lengthSquared == DotProduct(d, d) && lengthSquared != 0.0
    requires fromCenter == PointF(toCenter.x + d.x, toCenter.y + d.y)
    requires k == DotProduct(d, toCenter) / lengthSquared && k' == DotProduct(d, fromCenter) / lengthSquared
    ensures k' == k + 1.0
  {
    assert DotProduct(d, fromCenter) == DotProduct(d, toCenter) + lengthSquared;
    assert k * lengthSquared == DotProduct(d, toCenter);
    assert k' * lengthSquared == DotProduct(d, fromCenter);
    assert (k' - k - 1.0) * lengthSquared == 0.0;
    CancelNonZero(k' - k - 1.0, lengthSquared);
  }

  /** The six tangent segments, two per excircle, in the order the source draws them. */
  function ExcircleTangentSegments(v: TriangleView): (s: seq<Segment>)
    requires v.a != v.b && v.b != v.c && v.a != v.c
    requires ExcenterDenominator(v, CornerA) != 0.0 && ExcenterDenominator(v, CornerB) != 0.0
    requires ExcenterDenominator(v, CornerC) != 0.0
    ensures |s| == 6
    ensures s[0].to == v.b && s[1].to == v.c && s[2].to == v.a && s[3].to == v.c && s[4].to == v.b && s[5].to == v.a
  {
    var cA, cB, cC := GetExcenter(v, CornerA), GetExcenter(v, CornerB), GetExcenter(v, CornerC);
    [Segment(TangentCircleIntersection(v.a, v.b, cA), v.b),
     Segment(TangentCircleIntersection(v.a, v.c, cA), v.c),
     Segment(TangentCircleIntersection(v.b, v.a, cB), v.a),
     Segment(TangentCircleIntersection(v.b, v.c, cB), v.c),
     Segment(TangentCircleIntersection(v.c, v.b, cC), v.b),
     Segment(TangentCircleIntersection(v.c, v.a, cC), v.a)]
  }

  // ---------------------------------------------------------------------
  // Euler line, side bisectors

  /**
   * The segment centred on `center` along the unit vector towards `target`,
   * reaching `reach` on each side: `center + u * reach` to `center - u * reach`.
   */
  function SegmentToward(sqrt: real -> real, center: PointF, target: PointF, reach: real): (s: Segment)
    requires IsSqrt(sqrt) && center != target
    ensures Subtract(s.from, center) == Subtract(center, s.to)
    ensures DistanceSquared(s.from, center) == reach * reach
    ensures Cross(Subtract(s.from, center), Subtract(target, center)) == 0.0
    ensures 0.0 < reach ==> DotProduct(Subtract(s.from, center), Subtract(target, center)) > 0.0
  {
    var direction := Subtract(target, center);
    assert direction != Origin;
    var u := Normalize(sqrt, direction);
    var offset := ScaleRight(u, reach);
    SegmentTowardFacts(u, direction, reach, offset);
    DistanceSquaredIsDot(center, Add(center, offset));
    Segment(Add(center, offset), Subtract(center, offset))
  }

  /** A unit vector parallel to `direction`, scaled by `reach`, has length `reach` and stays parallel. */
  lemma SegmentTowardFacts(u: PointF, direction: PointF, reach: real, offset: PointF)
    requires DotProduct(u, u) == 1.0 && Cross(u, direction) == 0.0 && DotProduct(u, direction) > 0.0
    requires offset == ScaleRight(u, reach)
    ensures DotProduct(offset, offset) == reach * reach
    ensures Cross(offset, direction) == 0.0
    ensures 0.0 < reach ==> DotProduct(offset, direction) > 0.0
  {
    assert DotProduct(offset, offset) == (reach * reach) * DotProduct(u, u);
    assert Cross(offset, direction) == reach * Cross(u, direction);
    assert DotProduct(offset, direction) == reach * DotProduct(u, direction);
    MulPositive(reach, DotProduct(u, direction));
  }

  /**
   * The Euler line as drawn: centred on the centroid, reaching 2000 on each
   * side, along the line from the centroid through the circumcenter. When
   * the two coincide (an equilateral triangle) the source normalises the
   * zero vector; that case is excluded here.
   */
  function EulerLine(sqrt: real -> real, v: TriangleView): (s: Segment)
    requires IsSqrt(sqrt) && CircumcenterDenominator(v) != 0.0
    requires GetCentroid(v) != GetCircumcenter(v)
    ensures var g, o := GetCentroid(v), GetCircumcenter(v);
      && Subtract(s.from, g) == Subtract(g, s.to)
      && DistanceSquared(s.from, g) == EulerLineReach * EulerLineReach
      && Cross(Subtract(s.from, g), Subtract(o, g)) == 0.0
      && DotProduct(Subtract(s.from, g), Subtract(o, g)) > 0.0
  {
    SegmentToward(sqrt, GetCentroid(v), GetCircumcenter(v), EulerLineReach)
  }

  /**
   * The three short side bisectors: each centred on a side's midpoint
   * (AB, AC, BC in that order), reaching 10 towards and away from the
   * circumcenter.
   */
  function SideBisectors(sqrt: real -> real, v: TriangleView): (s: seq<Segment>)
    requires IsSqrt(sqrt) && CircumcenterDenominator(v) != 0.0
    requires Midpoint(v.a, v.b) != GetCircumcenter(v) && Midpoint(v.a, v.c) != GetCircumcenter(v)
    requires Midpoint(v.b, v.c) != GetCircumcenter(v)
    ensures |s| == 3
    ensures forall i :: 0 <= i < 3 ==>
      var m := [Midpoint(v.a, v.b), Midpoint(v.a, v.c), Midpoint(v.b, v.c)][i];
      && Subtract(s[i].from, m) == Subtract(m, s[i].to)
      && DistanceSquared(s[i].from, m) == SideBisectorReach * SideBisectorReach
      && Cross(Subtract(s[i].from, m), Subtract(GetCircumcenter(v), m)) == 0.0
  {
    var o := GetCircumcenter(v);
    [SegmentToward(sqrt, Midpoint(v.a, v.b), o, SideBisectorReach),
     SegmentToward(sqrt, Midpoint(v.a, v.c), o, SideBisectorReach),
     SegmentToward(sqrt, Midpoint(v.b, v.c), o, SideBisectorReach)]
  }

  /** Each side bisector the source draws is perpendicular to its side. */
  lemma SideBisectorsPerpendicular(sqrt: real -> real, v: TriangleView)
    requires IsSqrt(sqrt) && WellMeasured(v) && CircumcenterDenominator(v) != 0.0
    requires Midpoint(v.a, v.b) != GetCircumcenter(v) && Midpoint(v.a, v.c) != GetCircumcenter(v)
    requires Midpoint(v.b, v.c) != GetCircumcenter(v)
    ensures var s := SideBisectors(sqrt, v);
      && DotProduct(Subtract(s[0].from, Midpoint(v.a, v.b)), Subtract(v.b, v.a)) == 0.0
      && DotProduct(Subtract(s[1].from, Midpoint(v.a, v.c)), Subtract(v.c, v.a)) == 0.0
      && DotProduct(Subtract(s[2].from, Midpoint(v.b, v.c)), Subtract(v.c, v.b)) == 0.0
  {
    var o := GetCircumcenter(v);
    CircumcenterEquidistant(v);
    BisectorPerpendicular(sqrt, v.a, v.b, o);
    BisectorPerpendicular(sqrt, v.a, v.c, o);
    BisectorPerpendicular(sqrt, v.b, v.c, o);
  }

  /** A segment from the midpoint of p q toward a point equidistant from p and q is perpendicular to p q. */
  lemma BisectorPerpendicular(sqrt: real -> real, p: PointF, q: PointF, o: PointF)
    requires IsSqrt(sqrt) && DistanceSquared(o, p) == DistanceSquared(o, q) && Midpoint(p, q) != o
    ensures var m := Midpoint(p, q);
      DotProduct(Subtract(SegmentToward(sqrt, m, o, SideBisectorReach).from, m), Subtract(q, p)) == 0.0
  {
    var m := Midpoint(p, q);
    var s := SegmentToward(sqrt, m, o, SideBisectorReach);
    EquidistantOnBisector(o, p, q);
    assert Subtract(o, m) != Origin;
    PerpendicularToParallel(Subtract(q, p), Subtract(s.from, m), Subtract(o, m));
    DotProductSymmetric(Subtract(q, p), Subtract(s.from, m));
  }

  /** A point equidistant from p and q lies on the perpendicular bisector of p q. */
  lemma EquidistantOnBisector(o: PointF, p: PointF, q: PointF)
    requires DistanceSquared(o, p) == DistanceSquared(o, q)
    ensures DotProduct(Subtract(q, p), Subtract(o, Midpoint(p, q))) == 0.0
  {
  }

  /**
   * For the right triangle A(0, 0), B(4, 0), C(0, 3) the circumcenter is the
   * midpoint of the hypotenuse BC, so the direction the source normalises
   * for that side's bisector is the zero vector.
   */
  lemma RightTriangleBisectorDirectionZero()
    ensures var v := TriangleView(PointF(0.0, 0.0), PointF(4.0, 0.0), PointF(0.0, 3.0), 5.0, 3.0, 4.0, 6.0, 12.0, true);
      && WellMeasured(v) && v.isTriangle && CircumcenterDenominator(v) != 0.0
      && Subtract(GetCircumcenter(v), Midpoint(v.b, v.c)) == Origin
  {
    var v := TriangleView(PointF(0.0, 0.0), PointF(4.0, 0.0), PointF(0.0, 3.0), 5.0, 3.0, 4.0, 6.0, 12.0, true);
    assert DistanceSquared(v.b, v.c) == 25.0;
    assert DistanceSquared(v.a, v.c) == 9.0;
    assert DistanceSquared(v.a, v.b) == 16.0;
    assert Determinant(v.a, v.b, v.c) == 12.0;
    assert AreaOf(v.a, v.b, v.c) == 6.0;
    assert v.sideA * v.sideA == DistanceSquared(v.b, v.c);
    assert v.sideB * v.sideB == DistanceSquared(v.a, v.c);
    assert v.sideC * v.sideC == DistanceSquared(v.a, v.b);
    assert v.area == AreaOf(v.a, v.b, v.c);
    assert v.perimeter == v.sideA + v.sideB + v.sideC;
    assert v.isTriangle == (v.area > MinArea);
    assert CircumcenterTrilinears(v) == Trilinears(0.0, 96.0, 72.0);
    assert CircumcenterDenominator(v) == 576.0;
    assert WeightedMean(0.0, 288.0, 288.0, 0.0, 4.0, 0.0) == 2.0;
    assert WeightedMean(0.0, 288.0, 288.0, 0.0, 0.0, 3.0) == 1.5;
    assert GetCircumcenter(v) == PointF(2.0, 1.5);
  }

  /** The vector turned a quarter turn counter-clockwise: perpendicular to it and as long. */
  function QuarterTurn(d: PointF): (r: PointF)
    ensures DotProduct(r, d) == 0.0 && DotProduct(r, r) == DotProduct(d, d)
    ensures r == Origin <==> d == Origin
  {
    PointF(-d.y, d.x)
  }

  /** Crossing with the quarter-turned vector is the dot product with the vector. */
  lemma CrossWithQuarterTurn(w: PointF, d: PointF)
    ensures Cross(w, QuarterTurn(d)) == DotProduct(w, d)
  {
  }

  /**
   * The side bisector as evidently intended: centred on the midpoint of p q
   * and reaching `SideBisectorReach` each way along the side's
   * perpendicular, which, unlike the direction toward the circumcenter,
   * is non-zero for every side of positive length.
   */
  function PerpendicularBisector(sqrt: real -> real, p: PointF, q: PointF): (s: Segment)
    requires IsSqrt(sqrt) && p != q
    ensures var m := Midpoint(p, q);
      && Subtract(s.from, m) == Subtract(m, s.to)
      && DistanceSquared(s.from, m) == SideBisectorReach * SideBisectorReach
      && DotProduct(Subtract(s.from, m), Subtract(q, p)) == 0.0
  {
    var m := Midpoint(p, q);
    DifferenceNonZero(p, q);
    var turn := QuarterTurn(Subtract(q, p));
    assert Subtract(Add(m, turn), m) == turn;
    var s := SegmentToward(sqrt, m, Add(m, turn), SideBisectorReach);
    CrossWithQuarterTurn(Subtract(s.from, m), Subtract(q, p));
    s
  }

  /** The difference of two distinct points is not the zero vector. */
  lemma DifferenceNonZero(p: PointF, q: PointF)
    requires p != q
    ensures Subtract(q, p) != Origin
  {
    if q.x != p.x {
      assert Subtract(q, p).x != 0.0;
    } else {
      assert q.y != p.y;
      assert Subtract(q, p).y != 0.0;
    }
  }

  /** Two vectors perpendicular to the same non-zero vector are parallel. */
  lemma PerpendicularsParallel(w: PointF, u: PointF, d: PointF)
    requires d != Origin && DotProduct(w, d) == 0.0 && DotProduct(u, d) == 0.0
    ensures Cross(w, u) == 0.0
  {
    assert Cross(w, u) * DotProduct(d, d) == DotProduct(w, d) * Cross(d, u) + Cross(w, d) * DotProduct(d, u);
    DotSelf(d);
    CancelPositive(Cross(w, u), DotProduct(d, d));
  }

  /** The intended bisector's line passes through every point equidistant from p and q. */
  lemma PerpendicularBisectorThroughEquidistant(sqrt: real -> real, p: PointF, q: PointF, o: PointF)
    requires IsSqrt(sqrt) && p != q && DistanceSquared(o, p) == DistanceSquared(o, q)
    ensures var m := Midpoint(p, q);
      Cross(Subtract(PerpendicularBisector(sqrt, p, q).from, m), Subtract(o, m)) == 0.0
  {
    var m := Midpoint(p, q);
    var s := PerpendicularBisector(sqrt, p, q);
    EquidistantOnBisector(o, p, q);
    DotProductSymmetric(Subtract(q, p), Subtract(o, m));
    DifferenceNonZero(p, q);
    PerpendicularsParallel(Subtract(s.from, m), Subtract(o, m), Subtract(q, p));
  }

  /**
   * Wherever the source's side bisector is defined it is the intended one,
   * possibly with its ends swapped: the same segment on the screen.
   */
  lemma PerpendicularBisectorAgrees(sqrt: real -> real, p: PointF, q: PointF, o: PointF)
    requires IsSqrt(sqrt) && p != q && DistanceSquared(o, p) == DistanceSquared(o, q) && Midpoint(p, q) != o
    ensures var s, t := PerpendicularBisector(sqrt, p, q), SegmentToward(sqrt, Midpoint(p, q), o, SideBisectorReach);
      s == t || (s.from == t.to && s.to == t.from)
  {
    var m := Midpoint(p, q);
    var s, t := PerpendicularBisector(sqrt, p, q), SegmentToward(sqrt, m, o, SideBisectorReach);
    BisectorPerpendicular(sqrt, p, q, o);
    DifferenceNonZero(p, q);
    PerpendicularsParallel(Subtract(s.from, m), Subtract(t.from, m), Subtract(q, p));
    DistanceSquaredIsDot(m, s.from);
    DistanceSquaredIsDot(m, t.from);
    DistanceSquaredSymmetric(s.from, m);
    DistanceSquaredSymmetric(t.from, m);
    EqualLengthParallel(Subtract(s.from, m), Subtract(t.from, m), SideBisectorReach * SideBisectorReach);
  }

  /** Parallel vectors of the same positive squared length are equal or opposite. */
  lemma EqualLengthParallel(w: PointF, u: PointF, l: real)
    requires 0.0 < l && DotProduct(w, w) == l && DotProduct(u, u) == l && Cross(w, u) == 0.0
    ensures w == u || w == PointF(-u.x, -u.y)
  {
    LagrangeIdentity(w, u);
    var dot := DotProduct(w, u);
    assert dot * dot == l * l;
    assert (dot - l) * (dot + l) == 0.0;
    ProductZero(dot - l, dot + l);
    var e, f := PointF(w.x - u.x, w.y - u.y), PointF(w.x + u.x, w.y + u.y);
    assert DotProduct(e, e) == 2.0 * l - 2.0 * dot;
    assert DotProduct(f, f) == 2.0 * l + 2.0 * dot;
    if dot == l {
      SquareFacts(e.x);
      SquareFacts(e.y);
    } else {
      SquareFacts(f.x);
      SquareFacts(f.y);
    }
  }

  /** The three intended side bisectors, of AB, AC and BC in the source's order. */
  function CorrectedSideBisectors(sqrt: real -> real, v: TriangleView): (s: seq<Segment>)
    requires IsSqrt(sqrt) && v.a != v.b && v.b != v.c && v.a != v.c
    ensures |s| == 3
    ensures s[0] == PerpendicularBisector(sqrt, v.a, v.b)
    ensures s[1] == PerpendicularBisector(sqrt, v.a, v.c)
    ensures s[2] == PerpendicularBisector(sqrt, v.b, v.c)
  {
    [PerpendicularBisector(sqrt, v.a, v.b), PerpendicularBisector(sqrt, v.a, v.c), PerpendicularBisector(sqrt, v.b, v.c)]
  }

  /**
   * Each intended side bisector is centred on its side's midpoint,
   * perpendicular to the side, and on the line through the circumcenter.
   */
  lemma CorrectedSideBisectorsThroughCircumcenter(sqrt: real -> real, v: TriangleView)
    requires IsSqrt(sqrt) && WellMeasured(v) && v.a != v.b && v.b != v.c && v.a != v.c
    requires CircumcenterDenominator(v) != 0.0
    ensures var s, o := CorrectedSideBisectors(sqrt, v), GetCircumcenter(v);
      && Cross(Subtract(s[0].from, Midpoint(v.a, v.b)), Subtract(o, Midpoint(v.a, v.b))) == 0.0
      && Cross(Subtract(s[1].from, Midpoint(v.a, v.c)), Subtract(o, Midpoint(v.a, v.c))) == 0.0
      && Cross(Subtract(s[2].from, Midpoint(v.b, v.c)), Subtract(o, Midpoint(v.b, v.c))) == 0.0
  {
    var o := GetCircumcenter(v);
    CircumcenterEquidistant(v);
    PerpendicularBisectorThroughEquidistant(sqrt, v.a, v.b, o);
    PerpendicularBisectorThroughEquidistant(sqrt, v.a, v.c, o);
    PerpendicularBisectorThroughEquidistant(sqrt, v.b, v.c, o);
  }

  /** The circumcircle drawn with radius |OA| passes through all three vertices. */
  lemma CircumcircleThroughVertices(sqrt: real -> real, v: TriangleView)
    requires IsSqrt(sqrt) && WellMeasured(v) && CircumcenterDenominator(v) != 0.0
    ensures var r, o := Circumradius(sqrt, v), GetCircumcenter(v);
      r * r == DistanceSquared(o, v.b) && r * r == DistanceSquared(o, v.c)
  {
    CircumcenterEquidistant(v);
  }

  // ---------------------------------------------------------------------
  // The orthocenter on the altitudes; Euler's relation

  /** The dot product of the two edges leaving A: (B - A) . (C - A). */
  function DotAtA(v: TriangleView): real
  {
    DotProduct(Subtract(v.b, v.a), Subtract(v.c, v.a))
  }

  /** The dot product of the two edges leaving B: (A - B) . (C - B). */
  function DotAtB(v: TriangleView): real
  {
    DotProduct(Subtract(v.a, v.b), Subtract(v.c, v.b))
  }

  /** The dot product of the two edges leaving C: (A - C) . (B - C). */
  function DotAtC(v: TriangleView): real
  {
    DotProduct(Subtract(v.a, v.c), Subtract(v.b, v.c))
  }

  /** The length of the vector between two points, either way round, is the side joining them. */
  lemma IntensityOfSide(sqrt: real -> real, p: PointF, q: PointF, s: real)
    requires IsSqrt(sqrt) && 0.0 <= s && s * s == DistanceSquared(p, q)
    ensures Intensity(sqrt, PointF(p.x - q.x, p.y - q.y)) == s
    ensures Intensity(sqrt, PointF(q.x - p.x, q.y - p.y)) == s
  {
    var l, m := Intensity(sqrt, PointF(p.x - q.x, p.y - q.y)), Intensity(sqrt, PointF(q.x - p.x, q.y - p.y));
    assert l * l == s * s && m * m == s * s;
    UpperFromSquares(l, s);
    UpperFromSquares(s, l);
    UpperFromSquares(m, s);
    UpperFromSquares(s, m);
  }

  /** Each angle's cosine times the two sides that enclose it is the dot product at that vertex. */
  lemma CosinesTimesSides(sqrt: real -> real, v: TriangleView)
    requires IsSqrt(sqrt) && WellMeasured(v) && v.a != v.b && v.b != v.c && v.a != v.c
    ensures IsCosine(CosA(sqrt, v), v.sideC, v.sideB, DotAtA(v))
    ensures IsCosine(CosB(sqrt, v), v.sideC, v.sideA, DotAtB(v))
    ensures IsCosine(CosC(sqrt, v), v.sideB, v.sideA, DotAtC(v))
  {
    IntensityOfSide(sqrt, v.b, v.c, v.sideA);
    IntensityOfSide(sqrt, v.a, v.c, v.sideB);
    IntensityOfSide(sqrt, v.a, v.b, v.sideC);
    CosineAt(sqrt, v.b, v.a, v.c);
    CosineAt(sqrt, v.a, v.b, v.c);
    CosineAt(sqrt, v.a, v.c, v.b);
  }

  /** `x` is the orthocenter's barycentric weight `-l c1 c2` for the side `l` and the cosines `c1`, `c2`. */
  predicate IsOrthocenterWeight(x: real, l: real, c1: real, c2: real)
  {
    x == l * -(c1 * c2)
  }

  /** The product of a vertex's weight and the three sides is minus the product of the other two vertices' dot products. */
  lemma WeightTimesSides(l: real, l1: real, l2: real, c1: real, c2: real, d1: real, d2: real, x: real)
    requires IsOrthocenterWeight(x, l, c1, c2)
    requires IsCosine(c1, l2, l, d1) && IsCosine(c2, l1, l, d2)
    ensures x * (l * (l1 * l2)) == -(d1 * d2)
  {
    assert x * (l * (l1 * l2)) == -((c1 * (l2 * l)) * (c2 * (l1 * l)));
  }

  /** y e1 + z e2 == 0: two weights balance the dot products e1 and e2. */
  predicate Balanced(y: real, e1: real, z: real, e2: real)
  {
    y * e1 + z * e2 == 0.0
  }

  /** The weights x, y, z summed and multiplied by the three sides give minus the square of `cross`. */
  predicate SumTimesSides(x: real, y: real, z: real, la: real, lb: real, lc: real, cross: real)
  {
    (x + y + z) * (la * (lb * lc)) == -(cross * cross)
  }

  /**
   * The orthocenter's weights on plain numbers: with la, lb, lc the sides,
   * dA, dB, dC the dot products at the vertices, and p, q, m, cross the
   * squared edges from A, their dot product and their cross product, the
   * weights sum to -cross^2 / (la lb lc), and each pair of weights balances
   * the dot products along the opposite side (eAB, eAC along BC; eBA, eBC
   * along CA; eCA, eCB along AB).
   */
  lemma OrthocenterWeightAlgebra(la: real, lb: real, lc: real, cA: real, cB: real, cC: real,
                                 x: real, y: real, z: real, dA: real, dB: real, dC: real,
                                 p: real, q: real, m: real, cross: real,
                                 eAB: real, eAC: real, eBA: real, eBC: real, eCA: real, eCB: real)
    requires 0.0 < la && 0.0 < lb && 0.0 < lc
    requires IsCosine(cA, lc, lb, dA) && IsCosine(cB, lc, la, dB) && IsCosine(cC, lb, la, dC)
    requires IsOrthocenterWeight(x, la, cB, cC) && IsOrthocenterWeight(y, lb, cC, cA)
    requires IsOrthocenterWeight(z, lc, cA, cB)
    requires dA == m && dB == p - m && dC == q - m && LagrangeHolds(p, q, m, cross)
    requires eAB == -dB && eAC == dC && eBA == -dA && eBC == dC && eCA == -dA && eCB == dB
    ensures SumTimesSides(x, y, z, la, lb, lc, cross)
    ensures Balanced(y, eAB, z, eAC) && Balanced(x, eBA, z, eBC) && Balanced(x, eCA, y, eCB)
  {
    var l := la * (lb * lc);
    MulPositive(lb, lc);
    MulPositive(la, lb * lc);
    WeightTimesSides(la, lb, lc, cB, cC, dB, dC, x);
    assert lb * (lc * la) == l && lc * (la * lb) == l;
    WeightTimesSides(lb, lc, la, cC, cA, dC, dA, y);
    WeightTimesSides(lc, la, lb, cA, cB, dA, dB, z);
    assert (x + y + z) * l == -(dB * dC + dC * dA + dA * dB);
    assert dB * dC + dC * dA + dA * dB == p * q - m * m;
    assert (y * eAB + z * eAC) * l == 0.0;
    CancelNonZero(y * eAB + z * eAC, l);
    assert (x * eBA + z * eBC) * l == 0.0;
    CancelNonZero(x * eBA + z * eBC, l);
    assert (x * eCA + y * eCB) * l == 0.0;
    CancelNonZero(x * eCA + y * eCB, l);
  }

  /** The dot products at the vertices, with the edges written the other way round. */
  lemma DotsAlongSides(v: TriangleView)
    ensures DotProduct(Subtract(v.b, v.a), Subtract(v.c, v.b)) == -DotAtB(v)
    ensures DotProduct(Subtract(v.c, v.a), Subtract(v.c, v.b)) == DotAtC(v)
    ensures DotProduct(Subtract(v.a, v.b), Subtract(v.c, v.a)) == -DotAtA(v)
    ensures DotProduct(Subtract(v.c, v.b), Subtract(v.c, v.a)) == DotAtC(v)
    ensures DotProduct(Subtract(v.a, v.c), Subtract(v.b, v.a)) == -DotAtA(v)
    ensures DotProduct(Subtract(v.b, v.c), Subtract(v.b, v.a)) == DotAtB(v)
  {
  }

  /**
   * The orthocenter's weights, for three distinct vertices: they sum to a
   * negative multiple of the squared cross product of the edges from A, and
   * balance along each side.
   */
  lemma OrthocenterWeightFacts(sqrt: real -> real, v: TriangleView)
    requires IsSqrt(sqrt) && WellMeasured(v) && v.a != v.b && v.b != v.c && v.a != v.c
    ensures var w, cross := OrthocenterBarycentrics(sqrt, v), Cross(Subtract(v.b, v.a), Subtract(v.c, v.a));
      && 0.0 < v.sideA * (v.sideB * v.sideC)
      && OrthocenterDenominator(sqrt, v) == w.x + w.y + w.z
      && SumTimesSides(w.x, w.y, w.z, v.sideA, v.sideB, v.sideC, cross)
      && Balanced(w.y, DotProduct(Subtract(v.b, v.a), Subtract(v.c, v.b)), w.z, DotProduct(Subtract(v.c, v.a), Subtract(v.c, v.b)))
      && Balanced(w.x, DotProduct(Subtract(v.a, v.b), Subtract(v.c, v.a)), w.z, DotProduct(Subtract(v.c, v.b), Subtract(v.c, v.a)))
      && Balanced(w.x, DotProduct(Subtract(v.a, v.c), Subtract(v.b, v.a)), w.y, DotProduct(Subtract(v.b, v.c), Subtract(v.b, v.a)))
  {
    var w := OrthocenterBarycentrics(sqrt, v);
    var u, e := Subtract(v.b, v.a), Subtract(v.c, v.a);
    CosinesTimesSides(sqrt, v);
    OrthocenterWeightsAre(sqrt, v);
    DotsInEdges(v);
    DotsAlongSides(v);
    LagrangeAt(u, e);
    SidesPositive(v);
    OrthocenterWeightAlgebra(v.sideA, v.sideB, v.sideC, CosA(sqrt, v), CosB(sqrt, v), CosC(sqrt, v),
      w.x, w.y, w.z, DotAtA(v), DotAtB(v), DotAtC(v), DotProduct(u, u), DotProduct(e, e), DotProduct(u, e), Cross(u, e),
      DotProduct(Subtract(v.b, v.a), Subtract(v.c, v.b)), DotProduct(Subtract(v.c, v.a), Subtract(v.c, v.b)),
      DotProduct(Subtract(v.a, v.b), Subtract(v.c, v.a)), DotProduct(Subtract(v.c, v.b), Subtract(v.c, v.a)),
      DotProduct(Subtract(v.a, v.c), Subtract(v.b, v.a)), DotProduct(Subtract(v.b, v.c), Subtract(v.b, v.a)));
  }

  /** The orthocenter's weights are -a cos B cos C, -b cos C cos A and -c cos A cos B. */
  lemma OrthocenterWeightsAre(sqrt: real -> real, v: TriangleView)
    requires IsSqrt(sqrt) && v.a != v.b && v.b != v.c && v.a != v.c
    ensures var w := OrthocenterBarycentrics(sqrt, v);
      && IsOrthocenterWeight(w.x, v.sideA, CosB(sqrt, v), CosC(sqrt, v))
      && IsOrthocenterWeight(w.y, v.sideB, CosC(sqrt, v), CosA(sqrt, v))
      && IsOrthocenterWeight(w.z, v.sideC, CosA(sqrt, v), CosB(sqrt, v))
      && OrthocenterDenominator(sqrt, v) == w.x + w.y + w.z
  {
  }

  /** The dot products at B and C in terms of the edges leaving A. */
  lemma DotsInEdges(v: TriangleView)
    ensures DotAtA(v) == DotProduct(Subtract(v.b, v.a), Subtract(v.c, v.a))
    ensures DotAtB(v) == DotProduct(Subtract(v.b, v.a), Subtract(v.b, v.a)) - DotAtA(v)
    ensures DotAtC(v) == DotProduct(Subtract(v.c, v.a), Subtract(v.c, v.a)) - DotAtA(v)
  {
  }

  /** The sides of a triangle with distinct vertices are positive, and so is their product. */
  lemma SidesPositive(v: TriangleView)
    requires WellMeasured(v) && v.a != v.b && v.b != v.c && v.a != v.c
    ensures 0.0 < v.sideA && 0.0 < v.sideB && 0.0 < v.sideC && 0.0 < v.sideA * (v.sideB * v.sideC)
  {
    SquareFacts(v.sideA);
    SquareFacts(v.sideB);
    SquareFacts(v.sideC);
    MulPositive(v.sideB, v.sideC);
    MulPositive(v.sideA, v.sideB * v.sideC);
  }

  /**
   * For every triangle the orthocenter's weight sum is negative, so the
   * source's division by it is defined.
   */
  lemma OrthocenterDenominatorNegative(sqrt: real -> real, v: TriangleView)
    requires IsSqrt(sqrt) && WellMeasured(v) && v.isTriangle
    ensures v.a != v.b && v.b != v.c && v.a != v.c
    ensures OrthocenterDenominator(sqrt, v) < 0.0
  {
    TriangleVerticesDistinct(v);
    OrthocenterWeightFacts(sqrt, v);
    var w := OrthocenterBarycentrics(sqrt, v);
    var cross := Cross(Subtract(v.b, v.a), Subtract(v.c, v.a));
    assert cross != 0.0;
    SumNegative(w.x, w.y, w.z, v.sideA, v.sideB, v.sideC, cross);
  }

  /** Weights whose sum times positive sides is minus a positive square sum to a negative number. */
  lemma SumNegative(x: real, y: real, z: real, la: real, lb: real, lc: real, cross: real)
    requires SumTimesSides(x, y, z, la, lb, lc, cross)
    requires 0.0 < la * (lb * lc) && cross != 0.0
    ensures x + y + z < 0.0
  {
    SquareFacts(cross);
    NegativeFactor(x + y + z, la * (lb * lc), cross * cross);
  }

  /** A number whose product with a positive number is negative is negative. */
  lemma NegativeFactor(n: real, l: real, s: real)
    requires n * l == -s && 0.0 < l && 0.0 < s
    ensures n < 0.0
  {
  }

  /** d h == x a + y b + z c: `h` is the point with weights x, y, z summing to d. */
  predicate IsWeightedPoint(h: PointF, d: real, a: PointF, b: PointF, c: PointF, x: real, y: real, z: real)
  {
    Scale(d, h) == PointF(x * a.x + y * b.x + z * c.x, x * a.y + y * b.y + z * c.y)
  }

  /**
   * A point `h` with d h == x a + y b + z c (d the weight sum) lies on the
   * line through `a` perpendicular to c - b when the weights of b and c
   * balance along that side.
   */
  lemma WeightedPointOnAltitude(a: PointF, b: PointF, c: PointF, h: PointF, x: real, y: real, z: real, d: real)
    requires d == x + y + z && d != 0.0 && IsWeightedPoint(h, d, a, b, c, x, y, z)
    requires Balanced(y, DotProduct(Subtract(b, a), Subtract(c, b)), z, DotProduct(Subtract(c, a), Subtract(c, b)))
    ensures DotProduct(Subtract(h, a), Subtract(c, b)) == 0.0
  {
    WeightedPointOffset(a, b, c, h, x, y, z, d);
    PerpendicularCombination(Subtract(h, a), Subtract(b, a), Subtract(c, a), Subtract(c, b), d, y, z);
  }

  /** The weighted point relative to the first point: d (h - a) == y (b - a) + z (c - a). */
  lemma WeightedPointOffset(a: PointF, b: PointF, c: PointF, h: PointF, x: real, y: real, z: real, d: real)
    requires d == x + y + z && IsWeightedPoint(h, d, a, b, c, x, y, z)
    ensures var u, p, q := Subtract(h, a), Subtract(b, a), Subtract(c, a);
      Combination(d, u.x, y, p.x, z, q.x) && Combination(d, u.y, y, p.y, z, q.y)
  {
    assert d * h.x == x * a.x + y * b.x + z * c.x && d * h.y == x * a.y + y * b.y + z * c.y;
    OffsetCoordinate(a.x, b.x, c.x, h.x, x, y, z, d);
    OffsetCoordinate(a.y, b.y, c.y, h.y, x, y, z, d);
  }

  /** d u == y p + z q, for one coordinate. */
  predicate Combination(d: real, u: real, y: real, p: real, z: real, q: real)
  {
    d * u == y * p + z * q
  }

  /** One coordinate of a weighted point relative to the first point: d (h - a) == y (b - a) + z (c - a). */
  lemma OffsetCoordinate(ax: real, bx: real, cx: real, hx: real, x: real, y: real, z: real, d: real)
    requires d == x + y + z && d * hx == x * ax + y * bx + z * cx
    ensures Combination(d, hx - ax, y, bx - ax, z, cx - ax)
  {
    assert d * ax == x * ax + y * ax + z * ax;
  }

  /** If d u == y p + z q with d != 0, and y (p . s) + z (q . s) == 0, then u is perpendicular to s. */
  lemma PerpendicularCombination(u: PointF, p: PointF, q: PointF, s: PointF, d: real, y: real, z: real)
    requires Combination(d, u.x, y, p.x, z, q.x) && Combination(d, u.y, y, p.y, z, q.y)
    requires d != 0.0 && Balanced(y, DotProduct(p, s), z, DotProduct(q, s))
    ensures DotProduct(u, s) == 0.0
  {
    var e := DotProduct(u, s);
    assert e * d == (d * u.x) * s.x + (d * u.y) * s.y;
    assert e * d == y * DotProduct(p, s) + z * DotProduct(q, s);
    CancelNonZero(e, d);
  }

  /**
   * The orthocenter the source computes lies on the three altitudes: the
   * line from each vertex to it is perpendicular to the opposite side.
   */
  lemma OrthocenterOnAltitudes(sqrt: real -> real, v: TriangleView)
    requires IsSqrt(sqrt) && WellMeasured(v) && v.a != v.b && v.b != v.c && v.a != v.c
    requires OrthocenterDenominator(sqrt, v) != 0.0
    ensures var h := GetOrthocenter(sqrt, v);
      && DotProduct(Subtract(h, v.a), Subtract(v.c, v.b)) == 0.0
      && DotProduct(Subtract(h, v.b), Subtract(v.c, v.a)) == 0.0
      && DotProduct(Subtract(h, v.c), Subtract(v.b, v.a)) == 0.0
  {
    var h, w, d := GetOrthocenter(sqrt, v), OrthocenterBarycentrics(sqrt, v), OrthocenterDenominator(sqrt, v);
    OrthocenterWeightFacts(sqrt, v);
    assert Scale(d, h) == BarycentricToCartesian(v, w.x, w.y, w.z);
    assert IsWeightedPoint(h, d, v.a, v.b, v.c, w.x, w.y, w.z);
    assert IsWeightedPoint(h, d, v.b, v.a, v.c, w.y, w.x, w.z);
    assert IsWeightedPoint(h, d, v.c, v.a, v.b, w.z, w.x, w.y);
    WeightedPointOnAltitude(v.a, v.b, v.c, h, w.x, w.y, w.z, d);
    WeightedPointOnAltitude(v.b, v.a, v.c, h, w.y, w.x, w.z, d);
    WeightedPointOnAltitude(v.c, v.a, v.b, h, w.z, w.x, w.y, d);
  }

  /**
   * The point A + B + C - 2 O, for O equidistant from the three vertices,
   * lies on the three altitudes.
   */
  lemma EulerPointOnAltitudes(a: PointF, b: PointF, c: PointF, o: PointF)
    requires DistanceSquared(o, b) == DistanceSquared(o, a) && DistanceSquared(o, c) == DistanceSquared(o, a)
    ensures var e := Subtract(Add(Add(a, b), c), Scale(2.0, o));
      && DotProduct(Subtract(e, a), Subtract(c, b)) == 0.0
      && DotProduct(Subtract(e, b), Subtract(c, a)) == 0.0
      && DotProduct(Subtract(e, c), Subtract(b, a)) == 0.0
  {
    var oa, ob, oc := Subtract(a, o), Subtract(b, o), Subtract(c, o);
    DistanceSquaredIsDot(o, a);
    DistanceSquaredIsDot(o, b);
    DistanceSquaredIsDot(o, c);
    SumTimesDifference(ob, oc);
    SumTimesDifference(oa, oc);
    SumTimesDifference(oa, ob);
  }

  /** (u + w) . (w - u) == w . w - u . u. */
  lemma SumTimesDifference(u: PointF, w: PointF)
    ensures DotProduct(Add(u, w), Subtract(w, u)) == DotProduct(w, w) - DotProduct(u, u)
  {
  }

  /** A vector perpendicular to two non-parallel vectors is the zero vector. */
  lemma PerpendicularToTwo(u: PointF, d1: PointF, d2: PointF)
    requires DotProduct(u, d1) == 0.0 && DotProduct(u, d2) == 0.0 && Cross(d1, d2) != 0.0
    ensures u == Origin
  {
    assert u.x * Cross(d1, d2) == d2.y * DotProduct(u, d1) - d1.y * DotProduct(u, d2);
    assert u.y * Cross(d1, d2) == d1.x * DotProduct(u, d2) - d2.x * DotProduct(u, d1);
    CancelNonZero(u.x, Cross(d1, d2));
    CancelNonZero(u.y, Cross(d1, d2));
  }

  /**
   * In a triangle with a right angle at C the circumcenter is the midpoint
   * of the hypotenuse AB (Thales).
   */
  lemma RightAngleCircumcenterAtMidpoint(v: TriangleView)
    requires WellMeasured(v) && v.isTriangle
    requires DotProduct(Subtract(v.a, v.c), Subtract(v.b, v.c)) == 0.0
    ensures CircumcenterDenominator(v) != 0.0
    ensures GetCircumcenter(v) == Midpoint(v.a, v.b)
  {
    CircumcenterDenominatorIsArea(v);
    CircumcenterEquidistant(v);
    var o, m := GetCircumcenter(v), Midpoint(v.a, v.b);
    MidpointOfHypotenuse(v.a, v.b, v.c);
    EquidistantOnBisector(o, v.a, v.c);
    EquidistantOnBisector(m, v.a, v.c);
    EquidistantOnBisector(o, v.a, v.b);
    EquidistantOnBisector(m, v.a, v.b);
    DifferencePerpendicular(o, m, Midpoint(v.a, v.c), Subtract(v.c, v.a));
    DifferencePerpendicular(o, m, Midpoint(v.a, v.b), Subtract(v.b, v.a));
    assert Cross(Subtract(v.b, v.a), Subtract(v.c, v.a)) != 0.0;
    assert Cross(Subtract(v.c, v.a), Subtract(v.b, v.a)) == -Cross(Subtract(v.b, v.a), Subtract(v.c, v.a));
    PerpendicularToTwo(Subtract(o, m), Subtract(v.c, v.a), Subtract(v.b, v.a));
  }

  /** The midpoint of AB is equidistant from A, B and C when the angle at C is right. */
  lemma MidpointOfHypotenuse(a: PointF, b: PointF, c: PointF)
    requires DotProduct(Subtract(a, c), Subtract(b, c)) == 0.0
    ensures var m := Midpoint(a, b);
      DistanceSquared(m, a) == DistanceSquared(m, b) && DistanceSquared(m, c) == DistanceSquared(m, a)
  {
    var m := Midpoint(a, b);
    assert DotProduct(Subtract(c, a), Subtract(c, b)) == DotProduct(Subtract(a, c), Subtract(b, c));
    Thales(c, a, b);
    assert Scale(2.0, Subtract(m, a)) == Subtract(b, a);
    HalfVector(m, a, b, a);
    DistanceSquaredSymmetric(a, b);
    DistanceSquaredSymmetric(m, a);
  }

  /** If p and q both satisfy (x - m) . d == 0, their difference is perpendicular to d. */
  lemma DifferencePerpendicular(p: PointF, q: PointF, m: PointF, d: PointF)
    requires DotProduct(d, Subtract(p, m)) == 0.0 && DotProduct(d, Subtract(q, m)) == 0.0
    ensures DotProduct(Subtract(p, q), d) == 0.0
  {
    assert DotProduct(Subtract(p, q), d) == DotProduct(d, Subtract(p, m)) - DotProduct(d, Subtract(q, m));
  }

  /**
   * The triangle the application starts with, A(100, 100), B(100, 300),
   * C(200, 200), has a right angle at C: its circumcenter (100, 200) is the
   * midpoint of AB, so the direction the source normalises for the side
   * bisector of AB is the zero vector, whatever the measured side lengths.
   */
  lemma StartingTriangleBisectorDirectionZero(v: TriangleView)
    requires WellMeasured(v)
    requires v.a == StartA && v.b == StartB && v.c == StartC
    ensures v.isTriangle && CircumcenterDenominator(v) != 0.0
    ensures GetCircumcenter(v) == Midpoint(v.a, v.b) == PointF(100.0, 200.0)
    ensures Subtract(GetCircumcenter(v), Midpoint(v.a, v.b)) == Origin
  {
    StartingTriangleArea();
    StartingTriangleIsRightAngled();
    RightAngleCircumcenterAtMidpoint(v);
  }

  /** The vertices of the triangle the window starts with (Form1.cs:36). */
  const StartA: PointF := PointF(100.0, 100.0)
  const StartB: PointF := PointF(100.0, 300.0)
  const StartC: PointF := PointF(200.0, 200.0)

  /** The starting triangle's area is 10000. */
  lemma StartingTriangleArea()
    ensures AreaOf(StartA, StartB, StartC) == 10000.0 > MinArea
  {
    assert Determinant(StartA, StartB, StartC) == -20000.0;
  }

  /** The starting triangle has a right angle at C, and AB's midpoint is (100, 200). */
  lemma StartingTriangleIsRightAngled()
    ensures DotProduct(Subtract(StartA, StartC), Subtract(StartB, StartC)) == 0.0
    ensures Midpoint(StartA, StartB) == PointF(100.0, 200.0)
  {
    assert Subtract(StartA, StartC) == PointF(-100.0, -100.0);
    assert Subtract(StartB, StartC) == PointF(-100.0, 100.0);
  }

  /** Two points on both the altitude from A and the altitude from B of a proper triangle coincide. */
  lemma AltitudesMeetOnce(h: PointF, e: PointF, a: PointF, b: PointF, c: PointF)
    requires DotProduct(Subtract(h, a), Subtract(c, b)) == 0.0 && DotProduct(Subtract(e, a), Subtract(c, b)) == 0.0
    requires DotProduct(Subtract(h, b), Subtract(c, a)) == 0.0 && DotProduct(Subtract(e, b), Subtract(c, a)) == 0.0
    requires Cross(Subtract(b, a), Subtract(c, a)) != 0.0
    ensures h == e
  {
    var u := Subtract(h, e);
    assert DotProduct(u, Subtract(c, b)) == DotProduct(Subtract(h, a), Subtract(c, b)) - DotProduct(Subtract(e, a), Subtract(c, b));
    assert DotProduct(u, Subtract(c, a)) == DotProduct(Subtract(h, b), Subtract(c, a)) - DotProduct(Subtract(e, b), Subtract(c, a));
    assert Cross(Subtract(c, b), Subtract(c, a)) == -Cross(Subtract(b, a), Subtract(c, a));
    PerpendicularToTwo(u, Subtract(c, b), Subtract(c, a));
  }

  /**
   * Euler's relation: for every triangle the orthocenter the source
   * computes is A + B + C - 2 O, O the circumcenter; equivalently
   * H - G == 2 (G - O) for the centroid G, so H lies on the Euler line.
   */
  lemma EulerRelation(sqrt: real -> real, v: TriangleView)
    requires IsSqrt(sqrt) && WellMeasured(v) && v.isTriangle
    ensures v.a != v.b && v.b != v.c && v.a != v.c
    ensures OrthocenterDenominator(sqrt, v) != 0.0 && CircumcenterDenominator(v) != 0.0
    ensures Add(GetOrthocenter(sqrt, v), Scale(2.0, GetCircumcenter(v))) == Add(Add(v.a, v.b), v.c)
  {
    OrthocenterDenominatorNegative(sqrt, v);
    CircumcenterDenominatorIsArea(v);
    var h, o := GetOrthocenter(sqrt, v), GetCircumcenter(v);
    OrthocenterOnAltitudes(sqrt, v);
    CircumcenterEquidistant(v);
    EulerPointOnAltitudes(v.a, v.b, v.c, o);
    assert Cross(Subtract(v.b, v.a), Subtract(v.c, v.a)) != 0.0;
    AltitudesMeetOnce(h, Subtract(Add(Add(v.a, v.b), v.c), Scale(2.0, o)), v.a, v.b, v.c);
  }

  /** The orthocenter lies on the line through the centroid and the circumcenter: H - G == 2 (G - O). */
  lemma OrthocenterOnEulerLine(sqrt: real -> real, v: TriangleView)
    requires IsSqrt(sqrt) && WellMeasured(v) && v.isTriangle
    ensures OrthocenterDenominator(sqrt, v) != 0.0 && CircumcenterDenominator(v) != 0.0
    ensures var h, g, o := GetOrthocenter(sqrt, v), GetCentroid(v), GetCircumcenter(v);
      Subtract(h, g) == Scale(2.0, Subtract(g, o)) && Cross(Subtract(h, g), Subtract(o, g)) == 0.0
  {
    EulerRelation(sqrt, v);
  }

  // ---------------------------------------------------------------------
  // Nine-point circle

  /**
   * The nine-point center: halfway between the orthocenter and the
   * circumcenter. For a triangle, Euler's relation puts it at
   * (A + B + C - O) / 2.
   */
  function NinePointCenter(sqrt: real -> real, v: TriangleView): (r: PointF)
    requires IsSqrt(sqrt) && v.a != v.b && v.b != v.c && v.a != v.c
    requires OrthocenterDenominator(sqrt, v) != 0.0 && CircumcenterDenominator(v) != 0.0
    ensures Subtract(r, GetOrthocenter(sqrt, v)) == Subtract(GetCircumcenter(v), r)
    ensures WellMeasured(v) && v.isTriangle ==> Add(Scale(2.0, r), GetCircumcenter(v)) == Add(Add(v.a, v.b), v.c)
  {
    EulerRelationWhenTriangle(sqrt, v);
    Midpoint(GetOrthocenter(sqrt, v), GetCircumcenter(v))
  }

  /** `EulerRelation` wherever the view is a well-measured triangle. */
  lemma EulerRelationWhenTriangle(sqrt: real -> real, v: TriangleView)
    requires IsSqrt(sqrt) && v.a != v.b && v.b != v.c && v.a != v.c
    requires OrthocenterDenominator(sqrt, v) != 0.0 && CircumcenterDenominator(v) != 0.0
    ensures WellMeasured(v) && v.isTriangle ==>
      Add(GetOrthocenter(sqrt, v), Scale(2.0, GetCircumcenter(v))) == Add(Add(v.a, v.b), v.c)
  {
    if WellMeasured(v) && v.isTriangle {
      EulerRelation(sqrt, v);
    }
  }

  /**
   * The nine-point radius: half the circumradius, measured as the distance
   * from the circumcenter to A; for a well-measured view twice it also
   * reaches B and C.
   */
  function NinePointRadius(sqrt: real -> real, v: TriangleView): (r: real)
    requires IsSqrt(sqrt) && CircumcenterDenominator(v) != 0.0
    ensures 0.0 <= r && 2.0 * r == Circumradius(sqrt, v)
    ensures (2.0 * r) * (2.0 * r) == DistanceSquared(GetCircumcenter(v), v.a)
    ensures WellMeasured(v) ==>
      && (2.0 * r) * (2.0 * r) == DistanceSquared(GetCircumcenter(v), v.b)
      && (2.0 * r) * (2.0 * r) == DistanceSquared(GetCircumcenter(v), v.c)
  {
    CircumcenterEquidistantWhenMeasured(v);
    Distance(sqrt, GetCircumcenter(v), v.a) / 2.0
  }

  /** p lies on the circle about `center` with radius `radius`. */
  predicate OnCircle(center: PointF, radius: real, p: PointF)
  {
    radius * radius == DistanceSquared(center, p)
  }

  /** A point n with 2 (n - m) == p - q lies at a quarter of the squared distance of p and q from m. */
  lemma HalfVector(n: PointF, m: PointF, p: PointF, q: PointF)
    requires Scale(2.0, Subtract(n, m)) == Subtract(p, q)
    ensures 4.0 * DistanceSquared(n, m) == DistanceSquared(q, p)
  {
    var dx, dy := n.x - m.x, n.y - m.y;
    assert q.x - p.x == -2.0 * dx && q.y - p.y == -2.0 * dy;
    assert DistanceSquared(n, m) == dx * dx + dy * dy;
    assert DistanceSquared(q, p) == (-2.0 * dx) * (-2.0 * dx) + (-2.0 * dy) * (-2.0 * dy);
  }

  /**
   * With Euler's relation H + 2 O == A + B + C and n the midpoint of H and
   * O, n is half of A - O (B - O, C - O) away from the opposite side's
   * midpoint and half of O - A away from the midpoint of A and H, and n is
   * the midpoint of those two midpoints.
   */
  lemma NinePointOffsets(a: PointF, b: PointF, c: PointF, o: PointF, h: PointF, n: PointF)
    requires Add(h, Scale(2.0, o)) == Add(Add(a, b), c) && n == Midpoint(h, o)
    ensures Scale(2.0, Subtract(n, Midpoint(b, c))) == Subtract(a, o)
    ensures Scale(2.0, Subtract(n, Midpoint(a, h))) == Subtract(o, a)
    ensures n == Midpoint(Midpoint(a, h), Midpoint(b, c))
  {
  }

  /** Thales: f sees the segment xy at a right angle exactly on the circle with diameter xy. */
  lemma Thales(f: PointF, x: PointF, y: PointF)
    requires DotProduct(Subtract(f, x), Subtract(f, y)) == 0.0
    ensures 4.0 * DistanceSquared(Midpoint(x, y), f) == DistanceSquared(x, y)
  {
    var u, w := Subtract(f, x), Subtract(f, y);
    assert 4.0 * DistanceSquared(Midpoint(x, y), f) == DotProduct(Add(u, w), Add(u, w));
    assert DistanceSquared(x, y) == DotProduct(Subtract(u, w), Subtract(u, w));
  }

  /**
   * The foot F of the altitude from A, on the side BC, sees the segment from
   * the midpoint of A and H to the midpoint of B and C at a right angle.
   */
  lemma FootSeesDiameter(a: PointF, b: PointF, c: PointF, h: PointF)
    requires b != c && DotProduct(Subtract(h, a), Subtract(c, b)) == 0.0
    ensures var f := GetAltitudeFoot(a, b, c);
      DotProduct(Subtract(f, Midpoint(a, h)), Subtract(f, Midpoint(b, c))) == 0.0
  {
    var f, d := GetAltitudeFoot(a, b, c), Subtract(c, b);
    var w, u := Subtract(f, Midpoint(a, h)), Subtract(f, Midpoint(b, c));
    assert DotProduct(w, d) == -(DotProduct(Subtract(a, f), d) + DotProduct(Subtract(h, a), d)) / 2.0;
    assert Cross(u, d) == Cross(Subtract(f, b), d);
    PerpendicularToParallel(w, u, d);
  }

  /** The foot of the altitude from A lies on the circle through the two midpoints as diameter. */
  lemma FootOnNinePointCircle(a: PointF, b: PointF, c: PointF, h: PointF, n: PointF)
    requires b != c && DotProduct(Subtract(h, a), Subtract(c, b)) == 0.0
    requires n == Midpoint(Midpoint(a, h), Midpoint(b, c))
    ensures DistanceSquared(n, GetAltitudeFoot(a, b, c)) == DistanceSquared(n, Midpoint(b, c))
  {
    var x, y := Midpoint(a, h), Midpoint(b, c);
    FootSeesDiameter(a, b, c, h);
    Thales(GetAltitudeFoot(a, b, c), x, y);
    assert Scale(2.0, Subtract(n, y)) == Subtract(x, y);
    HalfVector(n, y, x, y);
  }

  /**
   * The nine-point circle the source draws, about `NinePointCenter` with
   * `NinePointRadius`, passes through the midpoints of the three sides, the
   * three feet of the altitudes and the midpoints of the segments joining
   * each vertex to the orthocenter, for every triangle.
   */
  lemma NinePointCircleThroughNinePoints(sqrt: real -> real, v: TriangleView)
    requires IsSqrt(sqrt) && WellMeasured(v) && v.isTriangle
    ensures v.a != v.b && v.b != v.c && v.a != v.c
    ensures OrthocenterDenominator(sqrt, v) != 0.0 && CircumcenterDenominator(v) != 0.0
    ensures var n, r, h := NinePointCenter(sqrt, v), NinePointRadius(sqrt, v), GetOrthocenter(sqrt, v);
      && OnCircle(n, r, Midpoint(v.b, v.c))
      && OnCircle(n, r, Midpoint(v.c, v.a))
      && OnCircle(n, r, Midpoint(v.a, v.b))
      && OnCircle(n, r, GetAltitudeFoot(v.a, v.b, v.c))
      && OnCircle(n, r, GetAltitudeFoot(v.b, v.c, v.a))
      && OnCircle(n, r, GetAltitudeFoot(v.c, v.a, v.b))
      && OnCircle(n, r, Midpoint(v.a, h))
      && OnCircle(n, r, Midpoint(v.b, h))
      && OnCircle(n, r, Midpoint(v.c, h))
  {
    NinePointConfigurationHolds(sqrt, v);
    NinePointsOnCircle(v.a, v.b, v.c, GetCircumcenter(v), GetOrthocenter(sqrt, v),
                       NinePointCenter(sqrt, v), NinePointRadius(sqrt, v));
  }

  /**
   * The facts about a triangle's circumcenter o, orthocenter h, nine-point
   * center n and nine-point radius r that the nine-point circle theorem uses.
   */
  predicate NinePointConfiguration(a: PointF, b: PointF, c: PointF, o: PointF, h: PointF, n: PointF, r: real)
  {
    && a != b && b != c && a != c
    && DistanceSquared(o, b) == DistanceSquared(o, a) && DistanceSquared(o, c) == DistanceSquared(o, a)
    && DotProduct(Subtract(h, a), Subtract(c, b)) == 0.0
    && DotProduct(Subtract(h, b), Subtract(c, a)) == 0.0
    && DotProduct(Subtract(h, c), Subtract(b, a)) == 0.0
    && Add(h, Scale(2.0, o)) == Add(Add(a, b), c)
    && Subtract(n, h) == Subtract(o, n) && (2.0 * r) * (2.0 * r) == DistanceSquared(o, a)
  }

  /** Every triangle's centers satisfy `NinePointConfiguration`. */
  lemma NinePointConfigurationHolds(sqrt: real -> real, v: TriangleView)
    requires IsSqrt(sqrt) && WellMeasured(v) && v.isTriangle
    ensures v.a != v.b && v.b != v.c && v.a != v.c
    ensures OrthocenterDenominator(sqrt, v) != 0.0 && CircumcenterDenominator(v) != 0.0
    ensures NinePointConfiguration(v.a, v.b, v.c, GetCircumcenter(v), GetOrthocenter(sqrt, v),
                                   NinePointCenter(sqrt, v), NinePointRadius(sqrt, v))
  {
    EulerRelation(sqrt, v);
    OrthocenterOnAltitudes(sqrt, v);
    CircumcenterEquidistant(v);
  }

  /** `NinePointCircleThroughNinePoints` for any points with the circumcenter's and orthocenter's properties. */
  lemma NinePointsOnCircle(a: PointF, b: PointF, c: PointF, o: PointF, h: PointF, n: PointF, r: real)
    requires NinePointConfiguration(a, b, c, o, h, n, r)
    ensures && OnCircle(n, r, Midpoint(b, c))
            && OnCircle(n, r, Midpoint(c, a))
            && OnCircle(n, r, Midpoint(a, b))
            && OnCircle(n, r, GetAltitudeFoot(a, b, c))
            && OnCircle(n, r, GetAltitudeFoot(b, c, a))
            && OnCircle(n, r, GetAltitudeFoot(c, a, b))
            && OnCircle(n, r, Midpoint(a, h))
            && OnCircle(n, r, Midpoint(b, h))
            && OnCircle(n, r, Midpoint(c, h))
  {
    assert n == Midpoint(h, o);
    assert h.x + 2.0 * o.x == a.x + b.x + c.x && h.y + 2.0 * o.y == a.y + b.y + c.y;
    NinePointAt(a, b, c, o, h, n);
    NinePointAt(b, c, a, o, h, n);
    NinePointAt(c, a, b, o, h, n);
    DistanceSquaredSymmetric(o, a);
    DistanceSquaredSymmetric(o, b);
    DistanceSquaredSymmetric(o, c);
  }

  /** One vertex's share of `NinePointCircleThroughNinePoints`. */
  lemma NinePointAt(a: PointF, b: PointF, c: PointF, o: PointF, h: PointF, n: PointF)
    requires b != c
    requires DotProduct(Subtract(h, a), Subtract(c, b)) == 0.0 || DotProduct(Subtract(h, a), Subtract(b, c)) == 0.0
    requires h.x + 2.0 * o.x == a.x + b.x + c.x && h.y + 2.0 * o.y == a.y + b.y + c.y && n == Midpoint(h, o)
    ensures 4.0 * DistanceSquared(n, Midpoint(b, c)) == DistanceSquared(o, a)
    ensures 4.0 * DistanceSquared(n, Midpoint(a, h)) == DistanceSquared(a, o)
    ensures DistanceSquared(n, GetAltitudeFoot(a, b, c)) == DistanceSquared(n, Midpoint(b, c))
  {
    assert DotProduct(Subtract(h, a), Subtract(b, c)) == -DotProduct(Subtract(h, a), Subtract(c, b));
    NinePointOffsets(a, b, c, o, h, n);
    HalfVector(n, Midpoint(b, c), a, o);
    HalfVector(n, Midpoint(a, h), o, a);
    FootOnNinePointCircle(a, b, c, h, n);
  }

  // ---------------------------------------------------------------------
  // Medians, angle bisectors

  /** The centroid lies two thirds of the way along each median, from the vertex to the opposite midpoint. */
  lemma MediansThroughCentroid(v: TriangleView)
    ensures var g := GetCentroid(v);
      && Scale(3.0, Subtract(g, v.a)) == Scale(2.0, Subtract(Midpoint(v.b, v.c), v.a))
      && Scale(3.0, Subtract(g, v.b)) == Scale(2.0, Subtract(Midpoint(v.a, v.c), v.b))
      && Scale(3.0, Subtract(g, v.c)) == Scale(2.0, Subtract(Midpoint(v.a, v.b), v.c))
  {
  }

  /** `WeightedOffset` seen from B: d (o - B) == wA (A - B) + wC (C - B). */
  lemma WeightedOffsetFromB(v: TriangleView, x: real, y: real, z: real, d: real, o: PointF)
    requires Scale(d, o) == BarycentricToCartesian(v, x, y, z) && x + y + z == d
    ensures Scale(d, Subtract(o, v.b)) == Add(Scale(x, Subtract(v.a, v.b)), Scale(z, Subtract(v.c, v.b)))
  {
    assert d * (o.x - v.b.x) == x * (v.a.x - v.b.x) + z * (v.c.x - v.b.x) by {
      assert d * o.x == x * v.a.x + y * v.b.x + z * v.c.x;
      assert d * v.b.x == x * v.b.x + y * v.b.x + z * v.b.x;
    }
    assert d * (o.y - v.b.y) == x * (v.a.y - v.b.y) + z * (v.c.y - v.b.y) by {
      assert d * o.y == x * v.a.y + y * v.b.y + z * v.c.y;
      assert d * v.b.y == x * v.b.y + y * v.b.y + z * v.b.y;
    }
  }

  /** `WeightedOffset` seen from C: d (o - C) == wA (A - C) + wB (B - C). */
  lemma WeightedOffsetFromC(v: TriangleView, x: real, y: real, z: real, d: real, o: PointF)
    requires Scale(d, o) == BarycentricToCartesian(v, x, y, z) && x + y + z == d
    ensures Scale(d, Subtract(o, v.c)) == Add(Scale(x, Subtract(v.a, v.c)), Scale(y, Subtract(v.b, v.c)))
  {
    assert d * (o.x - v.c.x) == x * (v.a.x - v.c.x) + y * (v.b.x - v.c.x) by {
      assert d * o.x == x * v.a.x + y * v.b.x + z * v.c.x;
      assert d * v.c.x == x * v.c.x + y * v.c.x + z * v.c.x;
    }
    assert d * (o.y - v.c.y) == x * (v.a.y - v.c.y) + y * (v.b.y - v.c.y) by {
      assert d * o.y == x * v.a.y + y * v.b.y + z * v.c.y;
      assert d * v.c.y == x * v.c.y + y * v.c.y + z * v.c.y;
    }
  }

  /** The cross product of two combinations of u and w is a multiple of Cross(u, w). */
  lemma CrossOfCombinations(y1: real, z1: real, y2: real, z2: real, u: PointF, w: PointF)
    ensures Cross(Add(Scale(y1, u), Scale(z1, w)), Add(Scale(y2, u), Scale(z2, w))) == (y1 * z2 - z1 * y2) * Cross(u, w)
  {
  }

  /** Scaling both vectors scales their cross product by the product of the factors. */
  lemma CrossOfScaled(d1: real, p: PointF, d2: real, q: PointF)
    ensures Cross(Scale(d1, p), Scale(d2, q)) == (d1 * d2) * Cross(p, q)
  {
  }

  /**
   * Two points seen from o along combinations of the same two vectors, with
   * opposite (sign -1) or equal (sign 1) coefficients, are collinear with o.
   */
  lemma CollinearFromOffsets(p: PointF, q: PointF, o: PointF, d1: real, d2: real, u: PointF, w: PointF,
                             y1: real, z1: real, y2: real, z2: real, sign: real)
    requires d1 != 0.0 && d2 != 0.0 && (sign == 1.0 || sign == -1.0)
    requires y2 == sign * y1 && z2 == sign * z1
    requires Scale(d1, Subtract(p, o)) == Add(Scale(y1, u), Scale(z1, w))
    requires Scale(d2, Subtract(q, o)) == Add(Scale(y2, u), Scale(z2, w))
    ensures Cross(Subtract(p, o), Subtract(q, o)) == 0.0
  {
    var x, y := Subtract(p, o), Subtract(q, o);
    CrossOfCombinations(y1, z1, y2, z2, u, w);
    OppositeCoefficients(y1, z1, y2, z2, sign);
    assert Cross(Scale(d1, x), Scale(d2, y)) == 0.0;
    CrossOfScaled(d1, x, d2, y);
    ProductZero(d1, d2);
    ProductZero(d1 * d2, Cross(x, y));
  }

  /** Coefficients (y2, z2) == sign (y1, z1) give y1 z2 - z1 y2 == 0. */
  lemma OppositeCoefficients(y1: real, z1: real, y2: real, z2: real, sign: real)
    requires (sign == 1.0 || sign == -1.0) && y2 == sign * y1 && z2 == sign * z1
    ensures y1 * z2 - z1 * y2 == 0.0
  {
    if sign == 1.0 {
      assert y2 == y1 && z2 == z1;
    } else {
      assert y2 == -y1 && z2 == -z1;
    }
  }

  /**
   * The external angle bisector drawn through the excenters opposite B and C
   * passes through A; likewise the one through the excenters opposite C
   * and A passes through B, and the one through those opposite A and B
   * passes through C.
   */
  lemma ExternalBisectorsThroughVertices(v: TriangleView)
    requires ExcenterDenominator(v, CornerA) != 0.0 && ExcenterDenominator(v, CornerB) != 0.0
    requires ExcenterDenominator(v, CornerC) != 0.0
    ensures var eA, eB, eC := GetExcenter(v, CornerA), GetExcenter(v, CornerB), GetExcenter(v, CornerC);
      && Cross(Subtract(eB, v.a), Subtract(eC, v.a)) == 0.0
      && Cross(Subtract(eC, v.b), Subtract(eA, v.b)) == 0.0
      && Cross(Subtract(eA, v.c), Subtract(eB, v.c)) == 0.0
  {
    ExternalBisectorThroughA(v);
    ExternalBisectorThroughB(v);
    ExternalBisectorThroughC(v);
  }

  lemma ExternalBisectorThroughA(v: TriangleView)
    requires ExcenterDenominator(v, CornerB) != 0.0 && ExcenterDenominator(v, CornerC) != 0.0
    ensures Cross(Subtract(GetExcenter(v, CornerB), v.a), Subtract(GetExcenter(v, CornerC), v.a)) == 0.0
  {
    var tB, tC := ExcenterTrilinears(CornerB), ExcenterTrilinears(CornerC);
    var eB, eC := GetExcenter(v, CornerB), GetExcenter(v, CornerC);
    WeightedOffset(v, v.sideA * tB.x, v.sideB * tB.y, v.sideC * tB.z, ExcenterDenominator(v, CornerB), eB);
    WeightedOffset(v, v.sideA * tC.x, v.sideB * tC.y, v.sideC * tC.z, ExcenterDenominator(v, CornerC), eC);
    CollinearFromOffsets(eB, eC, v.a, ExcenterDenominator(v, CornerB), ExcenterDenominator(v, CornerC),
      Subtract(v.b, v.a), Subtract(v.c, v.a), v.sideB * tB.y, v.sideC * tB.z, v.sideB * tC.y, v.sideC * tC.z, -1.0);
  }

  lemma ExternalBisectorThroughB(v: TriangleView)
    requires ExcenterDenominator(v, CornerC) != 0.0 && ExcenterDenominator(v, CornerA) != 0.0
    ensures Cross(Subtract(GetExcenter(v, CornerC), v.b), Subtract(GetExcenter(v, CornerA), v.b)) == 0.0
  {
    var tC, tA := ExcenterTrilinears(CornerC), ExcenterTrilinears(CornerA);
    var eC, eA := GetExcenter(v, CornerC), GetExcenter(v, CornerA);
    WeightedOffsetFromB(v, v.sideA * tC.x, v.sideB * tC.y, v.sideC * tC.z, ExcenterDenominator(v, CornerC), eC);
    WeightedOffsetFromB(v, v.sideA * tA.x, v.sideB * tA.y, v.sideC * tA.z, ExcenterDenominator(v, CornerA), eA);
    CollinearFromOffsets(eC, eA, v.b, ExcenterDenominator(v, CornerC), ExcenterDenominator(v, CornerA),
      Subtract(v.a, v.b), Subtract(v.c, v.b), v.sideA * tC.x, v.sideC * tC.z, v.sideA * tA.x, v.sideC * tA.z, -1.0);
  }

  lemma ExternalBisectorThroughC(v: TriangleView)
    requires ExcenterDenominator(v, CornerA) != 0.0 && ExcenterDenominator(v, CornerB) != 0.0
    ensures Cross(Subtract(GetExcenter(v, CornerA), v.c), Subtract(GetExcenter(v, CornerB), v.c)) == 0.0
  {
    var tA, tB := ExcenterTrilinears(CornerA), ExcenterTrilinears(CornerB);
    var eA, eB := GetExcenter(v, CornerA), GetExcenter(v, CornerB);
    WeightedOffsetFromC(v, v.sideA * tA.x, v.sideB * tA.y, v.sideC * tA.z, ExcenterDenominator(v, CornerA), eA);
    WeightedOffsetFromC(v, v.sideA * tB.x, v.sideB * tB.y, v.sideC * tB.z, ExcenterDenominator(v, CornerB), eB);
    CollinearFromOffsets(eA, eB, v.c, ExcenterDenominator(v, CornerA), ExcenterDenominator(v, CornerB),
      Subtract(v.a, v.c), Subtract(v.b, v.c), v.sideA * tA.x, v.sideB * tA.y, v.sideA * tB.x, v.sideB * tB.y, -1.0);
  }

  /** The angle bisector drawn from A to the incenter, continued, passes through the excenter opposite A. */
  lemma AngleBisectorThroughExcenter(v: TriangleView)
    requires TrilinearDenominator(v, 1.0, 1.0, 1.0) != 0.0 && ExcenterDenominator(v, CornerA) != 0.0
    ensures Cross(Subtract(GetIncenter(v), v.a), Subtract(GetExcenter(v, CornerA), v.a)) == 0.0
  {
    var tA := ExcenterTrilinears(CornerA);
    var i, eA := GetIncenter(v), GetExcenter(v, CornerA);
    WeightedOffset(v, v.sideA, v.sideB, v.sideC, TrilinearDenominator(v, 1.0, 1.0, 1.0), i);
    WeightedOffset(v, v.sideA * tA.x, v.sideB * tA.y, v.sideC * tA.z, ExcenterDenominator(v, CornerA), eA);
    CollinearFromOffsets(i, eA, v.a, TrilinearDenominator(v, 1.0, 1.0, 1.0), ExcenterDenominator(v, CornerA),
      Subtract(v.b, v.a), Subtract(v.c, v.a), v.sideB, v.sideC, v.sideB * tA.y, v.sideC * tA.z, 1.0);
  }

}
