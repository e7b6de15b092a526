/**
 * A vertex of the triangle: a mutable point whose coordinate setters report
 * the old and the new value, plus the vector arithmetic the geometry code
 * uses.
 *
 * The source's operators build fresh point objects that nobody else holds,
 * so they are modelled as functions on `PointF` values; a `TrianglePoint`
 * converts to and from `PointF` without loss.
 */
module TrianglePoints {
  import opened Drawing

  /** The old and the new value carried by a coordinate-change notification. */
  datatype ValueChanged = ValueChanged(oldValue: real, newValue: real)

  class TrianglePoint {
    var x: real
    var y: real

    /** A point with the given coordinates. */
    constructor (x0: real, y0: real)
      ensures x == x0 && y == y0
    {
      x, y := x0, y0;
    }

    /** The parameterless constructor: the point (0, 0). */
    constructor Zero()
      ensures x == 0.0 && y == 0.0
    {
      x, y := 0.0, 0.0;
    }

    /** Sets X, leaves Y alone, and returns the notification that is raised. */
    method SetX(value: real) returns (e: ValueChanged)
      modifies this
      ensures x == value && y == old(y)
      ensures e == ValueChanged(old(x), value)
    {
      var oldValue := x;
      x := value;
      e := ValueChanged(oldValue, value);
    }

    /** Sets Y, leaves X alone, and returns the notification that is raised. */
    method SetY(value: real) returns (e: ValueChanged)
      modifies this
      ensures y == value && x == old(x)
      ensures e == ValueChanged(old(y), value)
    {
      var oldValue := y;
      y := value;
      e := ValueChanged(oldValue, value);
    }

    /** The implicit conversion to `PointF`. */
    function ToPointF(): (r: PointF)
      reads this
      ensures r.x == x && r.y == y
    {
      PointF(x, y)
    }

    /** The implicit conversion from `PointF`; converting back gives the same value. */
    static method FromPointF(p: PointF) returns (q: TrianglePoint)
      ensures fresh(q)
      ensures q.x == p.x && q.y == p.y
      ensures q.ToPointF() == p
    {
      q := new TrianglePoint(p.x, p.y);
    }
  }

  /** `a + b`, componentwise. */
  function Add(a: PointF, b: PointF): (r: PointF)
    ensures r.x - b.x == a.x && r.y - b.y == a.y
  {
    PointF(a.x + b.x, a.y + b.y)
  }

  /** `a - b`, componentwise; adding `b` back gives `a`. */
  function Subtract(a: PointF, b: PointF): (r: PointF)
    ensures Add(r, b) == a
  {
    PointF(a.x - b.x, a.y - b.y)
  }

  /** `k * p`. */
  function Scale(k: real, p: PointF): (r: PointF)
    ensures k == 1.0 ==> r == p
    ensures k == 0.0 ==> r == PointF(0.0, 0.0)
  {
    PointF(k * p.x, k * p.y)
  }

  /** `p * k`, which the source computes exactly as `k * p`. */
  function ScaleRight(p: PointF, k: real): (r: PointF)
    ensures r == Scale(k, p)
  {
    PointF(k * p.x, k * p.y)
  }

  /** `p / k`, componentwise; only defined for a non-zero `k`. */
  function Divide(p: PointF, k: real): (r: PointF)
    requires k != 0.0
    ensures Scale(k, r) == p
  {
    PointF(p.x / k, p.y / k)
  }

  /** `(a + b) - b == a`. */
  lemma AddThenSubtract(a: PointF, b: PointF)
    ensures Subtract(Add(a, b), b) == a
  {
  }

  /** Scaling distributes over addition: k (p + q) == k p + k q. */
  lemma ScaleDistributes(k: real, p: PointF, q: PointF)
    ensures Scale(k, Add(p, q)) == Add(Scale(k, p), Scale(k, q))
  {
  }

  /** Scaling twice is scaling by the product: k (m p) == (k m) p. */
  lemma ScaleComposes(k: real, m: real, p: PointF)
    ensures Scale(k, Scale(m, p)) == Scale(k * m, p)
  {
  }

  /** `(p * k) / k == p` for a non-zero `k`. */
  lemma ScaleThenDivide(p: PointF, k: real)
    requires k != 0.0
    ensures Divide(ScaleRight(p, k), k) == p
  {
    assert (k * p.x) / k == p.x;
    assert (k * p.y) / k == p.y;
  }

  /** The midpoint `(a + b) / 2` of two points. */
  function Midpoint(a: PointF, b: PointF): (r: PointF)
    ensures Add(r, r) == Add(a, b)
    ensures Subtract(r, a) == Subtract(b, r)
  {
    Divide(Add(a, b), 2.0)
  }
}
