/**
 * Vector helpers over points: squared distance, distance, dot product,
 * magnitude ("intensity"), normalisation, the bounding box of a circle, and
 * the cosine and sine of the angle at a vertex.
 *
 * The platform square root is not part of the model: every helper that needs
 * it receives it as the parameter `sqrt`, constrained by `IsSqrt`.
 */
module Helpers {
  import opened Drawing

  /** The point (0, 0). */
  const Origin: PointF := PointF(0.0, 0.0)

  /** `sqrt` returns the non-negative square root of every non-negative argument. */
  ghost predicate IsSqrt(sqrt: real -> real)
  {
    forall x {:trigger sqrt(x)} :: 0.0 <= x ==> 0.0 <= sqrt(x) && sqrt(x) * sqrt(x) == x
  }

  /** Sign of a product of positive factors. */
  lemma MulPositive(x: real, y: real)
    ensures 0.0 < x && 0.0 < y ==> 0.0 < x * y
  {
  }

  /** A product is zero exactly when one of its factors is. */
  lemma ProductZero(x: real, y: real)
    ensures x * y == 0.0 <==> x == 0.0 || y == 0.0
  {
  }

  /** A factor of a zero product whose other factor is positive is zero. */
  lemma CancelPositive(e: real, m: real)
    requires 0.0 < m && e * m == 0.0
    ensures e == 0.0
  {
    ProductZero(e, m);
  }

  /** A factor of a zero product whose other factor is a non-zero square is zero. */
  lemma CancelSquare(e: real, l: real)
    requires l != 0.0 && e * (l * l) == 0.0
    ensures e == 0.0
  {
    ProductZero(e, l * l);
    ProductZero(l, l);
  }

  /** A square is non-negative and zero only for zero. */
  lemma SquareFacts(a: real)
    ensures 0.0 <= a * a
    ensures a * a == 0.0 <==> a == 0.0
  {
    MulPositive(a, a);
    MulPositive(-a, -a);
    ProductZero(a, a);
  }

  /** The non-negative square root is unique. */
  lemma SqrtUnique(sqrt: real -> real, x: real, r: real)
    requires IsSqrt(sqrt)
    requires 0.0 <= r && r * r == x
    ensures sqrt(x) == r
  {
    var s := sqrt(x);
    assert 0.0 <= s && s * s == x;
    assert (s - r) * (s + r) == s * s - r * r;
    ProductZero(s - r, s + r);
  }

  /** The square root of a non-negative number is zero exactly when the number is. */
  lemma SqrtZero(sqrt: real -> real, x: real)
    requires IsSqrt(sqrt) && 0.0 <= x
    ensures sqrt(x) == 0.0 <==> x == 0.0
  {
    var s := sqrt(x);
    assert 0.0 <= s && s * s == x;
    SquareFacts(s);
  }

  /** For non-negative `b`, `a * a <= b * b` bounds `a` by `b` on both sides. */
  lemma AbsBoundFromSquares(a: real, b: real)
    requires 0.0 <= b && a * a <= b * b
    ensures -b <= a <= b
  {
    UpperFromSquares(a, b);
    UpperFromSquares(-a, b);
  }

  lemma UpperFromSquares(a: real, b: real)
    requires 0.0 <= b && a * a <= b * b
    ensures a <= b
  {
    var p := (a - b) * (a + b);
    assert p == a * a - b * b;
    MulPositive(a - b, a + b);
  }

  function DistanceSquared(point1: PointF, point2: PointF): (r: real)
    ensures 0.0 <= r
    ensures r == 0.0 <==> point1 == point2
  {
    var deltaX := point1.x - point2.x;
    var deltaY := point1.y - point2.y;
    SquareFacts(deltaX);
    SquareFacts(deltaY);
    deltaX * deltaX + deltaY * deltaY
  }

  lemma DistanceSquaredSymmetric(p: PointF, q: PointF)
    ensures DistanceSquared(p, q) == DistanceSquared(q, p)
  {
  }

  function Distance(sqrt: real -> real, point1: PointF, point2: PointF): (r: real)
    requires IsSqrt(sqrt)
    ensures 0.0 <= r && r * r == DistanceSquared(point1, point2)
    ensures r == 0.0 <==> point1 == point2
  {
    var d := DistanceSquared(point1, point2);
    SqrtZero(sqrt, d);
    sqrt(d)
  }

  /** Distance is symmetric, since the squared distance is. */
  lemma DistanceSymmetric(sqrt: real -> real, p: PointF, q: PointF)
    requires IsSqrt(sqrt)
    ensures Distance(sqrt, p, q) == Distance(sqrt, q, p)
  {
    DistanceSquaredSymmetric(p, q);
  }

  /** The dot product; its symmetry, Lagrange's identity and the Cauchy–Schwarz bound follow. */
  function DotProduct(point1: PointF, point2: PointF): real
  {
    point1.x * point2.x + point1.y * point2.y
  }

  lemma DotProductSymmetric(p: PointF, q: PointF)
    ensures DotProduct(p, q) == DotProduct(q, p)
  {
  }

  /** The z-component of the cross product of two vectors. */
  function Cross(u: PointF, v: PointF): real
  {
    u.x * v.y - u.y * v.x
  }

  /** Lagrange's identity in the plane: |u|^2 |v|^2 = (u . v)^2 + (u x v)^2. */
  lemma LagrangeIdentity(u: PointF, v: PointF)
    ensures DotProduct(u, u) * DotProduct(v, v) == DotProduct(u, v) * DotProduct(u, v) + Cross(u, v) * Cross(u, v)
  {
  }

  /** The Cauchy-Schwarz inequality, from Lagrange's identity. */
  lemma CauchySchwarz(u: PointF, v: PointF)
    ensures DotProduct(u, v) * DotProduct(u, v) <= DotProduct(u, u) * DotProduct(v, v)
  {
    LagrangeIdentity(u, v);
    SquareFacts(Cross(u, v));
  }

  /** The magnitude of a vector, its distance from the origin. */
  function Intensity(sqrt: real -> real, point: PointF): (r: real)
    requires IsSqrt(sqrt)
    ensures 0.0 <= r && r * r == DotProduct(point, point)
    ensures r == 0.0 <==> point == Origin
  {
    DotSelf(point);
    Distance(sqrt, point, Origin)
  }

  lemma DotSelf(p: PointF)
    ensures DotProduct(p, p) == DistanceSquared(p, Origin)
  {
  }

  /** A vector of length one in the same direction; the zero vector has no direction. */
  function Normalize(sqrt: real -> real, point: PointF): (r: PointF)
    requires IsSqrt(sqrt)
    requires point != Origin
    ensures DotProduct(r, r) == 1.0 && Intensity(sqrt, r) == 1.0
    ensures Cross(r, point) == 0.0 && DotProduct(r, point) > 0.0
  {
    var length := Intensity(sqrt, point);
    var r := PointF(point.x / length, point.y / length);
    NormalizeFacts(sqrt, point, length, r);
    r
  }

  lemma NormalizeFacts(sqrt: real -> real, point: PointF, length: real, r: PointF)
    requires IsSqrt(sqrt)
    requires 0.0 < length && length * length == DotProduct(point, point)
    requires r == PointF(point.x / length, point.y / length)
    ensures DotProduct(r, r) == 1.0 && Intensity(sqrt, r) == 1.0
    ensures Cross(r, point) == 0.0 && DotProduct(r, point) > 0.0
  {
    assert r.x * length == point.x && r.y * length == point.y;
    UnitAfterScaling(point.x, point.y, length, r.x, r.y);
    SqrtUnique(sqrt, 1.0, 1.0);
  }

  /** Dividing (px, py) by its length gives a unit vector parallel to it and pointing the same way. */
  lemma UnitAfterScaling(px: real, py: real, l: real, rx: real, ry: real)
    requires 0.0 < l && l * l == px * px + py * py
    requires rx * l == px && ry * l == py
    ensures rx * rx + ry * ry == 1.0
    ensures rx * py - ry * px == 0.0
    ensures rx * px + ry * py > 0.0
  {
    assert px * px == (rx * rx) * (l * l);
    assert py * py == (ry * ry) * (l * l);
    assert (rx * rx + ry * ry - 1.0) * (l * l) == 0.0;
    CancelSquare(rx * rx + ry * ry - 1.0, l);
    assert (rx * py - ry * px) * l == (rx * l) * py - (ry * l) * px;
    CancelPositive(rx * py - ry * px, l);
    assert (rx * px + ry * py) * l == (rx * l) * px + (ry * l) * py;
    MulPositive(-(rx * px + ry * py), l);
  }

  /** The bounding rectangle of the circle with the given centre and radius. */
  function EllipseToRectangle(center: PointF, radius: real): (r: RectangleF)
    ensures r.width == r.height == 2.0 * radius
    ensures r.x + r.width / 2.0 == center.x && r.y + r.height / 2.0 == center.y
  {
    RectangleF(center.x - radius, center.y - radius, 2.0 * radius, 2.0 * radius)
  }

  /** The cosine of the angle at `vertex` between the rays to `point1` and `point2`. */
  function Cosine(sqrt: real -> real, point1: PointF, vertex: PointF, point2: PointF): (r: real)
    requires IsSqrt(sqrt)
    requires point1 != vertex && point2 != vertex
    ensures var v1, v2 := PointF(point1.x - vertex.x, point1.y - vertex.y), PointF(point2.x - vertex.x, point2.y - vertex.y);
      r * (Intensity(sqrt, v1) * Intensity(sqrt, v2)) == DotProduct(v1, v2)
    ensures -1.0 <= r <= 1.0
  {
    var vector1 := PointF(point1.x - vertex.x, point1.y - vertex.y);
    var vector2 := PointF(point2.x - vertex.x, point2.y - vertex.y);
    CosineOfVectors(sqrt, vector1, vector2)
  }

  /** The dot product of two non-zero vectors divided by the product of their lengths. */
  function CosineOfVectors(sqrt: real -> real, vector1: PointF, vector2: PointF): (r: real)
    requires IsSqrt(sqrt)
    requires vector1 != Origin && vector2 != Origin
    ensures r * (Intensity(sqrt, vector1) * Intensity(sqrt, vector2)) == DotProduct(vector1, vector2)
    ensures -1.0 <= r <= 1.0
  {
    var v1, v2 := Intensity(sqrt, vector1), Intensity(sqrt, vector2);
    MulPositive(v1, v2);
    var c := DotProduct(vector1, vector2) / (v1 * v2);
    CosineBound(vector1, vector2, v1, v2, c);
    c
  }

  /**
   * Whatever multiplies the product of the lengths of two vectors to give
   * their dot product lies in [-1, 1], by the Cauchy-Schwarz inequality.
   */
  lemma CosineBound(u: PointF, w: PointF, lu: real, lw: real, c: real)
    requires 0.0 < lu && lu * lu == DotProduct(u, u)
    requires 0.0 < lw && lw * lw == DotProduct(w, w)
    requires c * (lu * lw) == DotProduct(u, w)
    ensures -1.0 <= c <= 1.0
  {
    CauchySchwarz(u, w);
    QuotientOfLengthsBound(DotProduct(u, w), DotProduct(u, u), DotProduct(w, w), lu, lw, c);
  }

  lemma QuotientOfLengthsBound(d: real, uu: real, vv: real, lu: real, lv: real, c: real)
    requires 0.0 < lu && lu * lu == uu
    requires 0.0 < lv && lv * lv == vv
    requires d * d <= uu * vv
    requires c * (lu * lv) == d
    ensures -1.0 <= c <= 1.0
  {
    MulPositive(lu, lv);
    ProductSquare(lu, lv);
    AbsBoundFromSquares(d, lu * lv);
    QuotientBound(d, lu * lv, c);
  }

  lemma ProductSquare(a: real, b: real)
    ensures (a * b) * (a * b) == (a * a) * (b * b)
  {
  }

  /** A number between -m and m, divided by positive m, lies between -1 and 1. */
  lemma QuotientBound(d: real, m: real, c: real)
    requires 0.0 < m && -m <= d <= m && c * m == d
    ensures -1.0 <= c <= 1.0
  {
    assert (c - 1.0) * m == d - m;
    MulPositive(c - 1.0, m);
    assert (-1.0 - c) * m == -m - d;
    MulPositive(-1.0 - c, m);
  }

  lemma CosineSymmetric(sqrt: real -> real, p1: PointF, v: PointF, p2: PointF)
    requires IsSqrt(sqrt)
    requires p1 != v && p2 != v
    ensures Cosine(sqrt, p1, v, p2) == Cosine(sqrt, p2, v, p1)
  {
    var u, w := PointF(p1.x - v.x, p1.y - v.y), PointF(p2.x - v.x, p2.y - v.y);
    assert DotProduct(u, w) == DotProduct(w, u);
    assert Intensity(sqrt, u) * Intensity(sqrt, w) == Intensity(sqrt, w) * Intensity(sqrt, u);
  }

  /** The sine, like the cosine, does not depend on the order of the two rays. */
  lemma SineSymmetric(sqrt: real -> real, p1: PointF, v: PointF, p2: PointF)
    requires IsSqrt(sqrt)
    requires p1 != v && p2 != v
    ensures Sine(sqrt, p1, v, p2) == Sine(sqrt, p2, v, p1)
  {
    CosineSymmetric(sqrt, p1, v, p2);
    var c1, c2 := Cosine(sqrt, p1, v, p2), Cosine(sqrt, p2, v, p1);
    var s1, s2 := Sine(sqrt, p1, v, p2), Sine(sqrt, p2, v, p1);
    assert c1 * c1 == c2 * c2;
    UpperFromSquares(s1, s2);
    UpperFromSquares(s2, s1);
  }

  /** The sine of the angle at `vertex`, from its cosine; an angle of a triangle has a non-negative sine. */
  function Sine(sqrt: real -> real, point1: PointF, vertex: PointF, point2: PointF): (r: real)
    requires IsSqrt(sqrt)
    requires point1 != vertex && point2 != vertex
    ensures var c := Cosine(sqrt, point1, vertex, point2); 0.0 <= r <= 1.0 && r * r + c * c == 1.0
  {
    var cosine := Cosine(sqrt, point1, vertex, point2);
    SineFacts(sqrt, cosine);
    sqrt(1.0 - cosine * cosine)
  }

  /** `l` is the (positive) length of a vector whose dot product with itself is `square`. */
  predicate IsLength(l: real, square: real)
  {
    0.0 < l && l * l == square
  }

  /** `c` times the lengths `l1` and `l2` of two vectors is their dot product `d`. */
  predicate IsCosine(c: real, l1: real, l2: real, d: real)
  {
    c * (l1 * l2) == d
  }

  /** `s` is the non-negative sine that goes with the cosine `c`. */
  predicate IsSine(s: real, c: real)
  {
    0.0 <= s && s * s + c * c == 1.0
  }

  /** The length of the vector from `p` to a different point `q`. */
  lemma LengthBetween(sqrt: real -> real, p: PointF, q: PointF)
    requires IsSqrt(sqrt) && p != q
    ensures var u := PointF(q.x - p.x, q.y - p.y); IsLength(Intensity(sqrt, u), DotProduct(u, u))
  {
  }

  /** What `Cosine` computes, for the given points. */
  lemma CosineAt(sqrt: real -> real, point1: PointF, vertex: PointF, point2: PointF)
    requires IsSqrt(sqrt) && point1 != vertex && point2 != vertex
    ensures var v1, v2 := PointF(point1.x - vertex.x, point1.y - vertex.y), PointF(point2.x - vertex.x, point2.y - vertex.y);
      IsCosine(Cosine(sqrt, point1, vertex, point2), Intensity(sqrt, v1), Intensity(sqrt, v2), DotProduct(v1, v2))
  {
  }

  /** What `Sine` computes, for the given points. */
  lemma SineAt(sqrt: real -> real, point1: PointF, vertex: PointF, point2: PointF)
    requires IsSqrt(sqrt) && point1 != vertex && point2 != vertex
    ensures IsSine(Sine(sqrt, point1, vertex, point2), Cosine(sqrt, point1, vertex, point2))
  {
  }

  lemma SineFacts(sqrt: real -> real, cosine: real)
    requires IsSqrt(sqrt) && -1.0 <= cosine <= 1.0
    ensures var r := sqrt(1.0 - cosine * cosine); 0.0 <= r <= 1.0 && r * r + cosine * cosine == 1.0
  {
    assert 0.0 <= cosine * cosine <= 1.0 by {
      if cosine < 0.0 { assert cosine * cosine <= (-1.0) * cosine; }
      else { assert cosine * cosine <= cosine; }
    }
  }
}
