/**
 * A line segment that can be drawn with one of two pens and that tracks
 * whether the mouse cursor hovers over it.
 */
module Shapes {
  import opened Drawing
  import opened Helpers
  import opened TrianglePoints
  import opened Triangles
  import opened Visualizers

  /** The largest distance (exclusive) from the line at which the cursor still hovers. */
  const HoverDistance: real := 5.0

  /**
   * Whether `point` hovers over the segment from `start` to `end`: its
   * distance to the line through them, twice the area of the triangle they
   * span over the segment's length, is below `HoverDistance`, and it is no
   * farther from either end than the segment is long. For a segment of zero
   * length the division gives infinity or NaN, which is never below the
   * threshold: such a segment is never hovered.
   */
  predicate IsHoveredAt(sqrt: real -> real, start: PointF, end: PointF, point: PointF)
    requires IsSqrt(sqrt)
    ensures IsHoveredAt(sqrt, start, end, point) ==>
      && start != end
      && DistanceSquared(point, start) <= DistanceSquared(start, end)
      && DistanceSquared(point, end) <= DistanceSquared(start, end)
  {
    WithinEndsIffSquares(sqrt, start, end, point);
    var area := AreaOf(start, end, point);
    var side := Distance(sqrt, start, end);
    && side != 0.0
    && 2.0 * area / side < HoverDistance
    && !(Distance(sqrt, point, start) > side || Distance(sqrt, point, end) > side)
  }

  /**
   * The hover test in geometric terms: the segment has positive length, the
   * cursor lies within `HoverDistance` of its foot on the line, and it is
   * no farther from either end than the segment is long.
   */
  lemma HoveredIffNearSegment(sqrt: real -> real, start: PointF, end: PointF, point: PointF)
    requires IsSqrt(sqrt)
    ensures IsHoveredAt(sqrt, start, end, point) <==>
      && start != end
      && DistanceSquared(point, GetAltitudeFoot(point, start, end)) < HoverDistance * HoverDistance
      && DistanceSquared(point, start) <= DistanceSquared(start, end)
      && DistanceSquared(point, end) <= DistanceSquared(start, end)
  {
    if start != end {
      NearLineIffSmallQuotient(sqrt, start, end, point);
      WithinEndsIffSquares(sqrt, start, end, point);
    }
  }

  /** The quotient test is the squared distance to the foot on the line being below the threshold's square. */
  lemma NearLineIffSmallQuotient(sqrt: real -> real, start: PointF, end: PointF, point: PointF)
    requires IsSqrt(sqrt) && start != end
    ensures 2.0 * AreaOf(start, end, point) / Distance(sqrt, start, end) < HoverDistance <==>
      DistanceSquared(point, GetAltitudeFoot(point, start, end)) < HoverDistance * HoverDistance
  {
    SideIsLength(sqrt, start, end);
    AltitudeAndArea(point, start, end);
    QuotientIffSquares(Distance(sqrt, start, end), AreaOf(start, end, point),
      DistanceSquared(point, GetAltitudeFoot(point, start, end)), DistanceSquared(start, end));
  }

  /** The length of a segment of positive length, as `IsLength` states it. */
  lemma SideIsLength(sqrt: real -> real, start: PointF, end: PointF)
    requires IsSqrt(sqrt) && start != end
    ensures IsLength(Distance(sqrt, start, end), DistanceSquared(start, end))
  {
  }

  /** h l == (2 area)^2: the squared altitude h times the squared side l. */
  predicate AltitudeTimesSideHolds(h: real, l: real, area: real)
  {
    h * l == (2.0 * area) * (2.0 * area)
  }

  /** The squared altitude from `point` times the squared segment is the squared doubled area. */
  lemma AltitudeAndArea(point: PointF, start: PointF, end: PointF)
    requires start != end
    ensures 0.0 <= DistanceSquared(point, GetAltitudeFoot(point, start, end)) && 0.0 <= AreaOf(start, end, point)
    ensures AltitudeTimesSideHolds(DistanceSquared(point, GetAltitudeFoot(point, start, end)),
      DistanceSquared(start, end), AreaOf(start, end, point))
  {
    DeterminantRotations(start, end, point);
    AltitudeTimesSide(point, start, end);
  }

  /** The cursor is no farther from either end than the segment's length, in squares. */
  lemma WithinEndsIffSquares(sqrt: real -> real, start: PointF, end: PointF, point: PointF)
    requires IsSqrt(sqrt)
    ensures var side := Distance(sqrt, start, end);
      !(Distance(sqrt, point, start) > side || Distance(sqrt, point, end) > side) <==>
        DistanceSquared(point, start) <= DistanceSquared(start, end) && DistanceSquared(point, end) <= DistanceSquared(start, end)
  {
    var side := Distance(sqrt, start, end);
    NotFartherIffSquares(Distance(sqrt, point, start), side);
    NotFartherIffSquares(Distance(sqrt, point, end), side);
  }

  /**
   * For a positive length `side` squaring to `l`, and an altitude whose
   * square `h` satisfies h l == (2 area)^2, the quotient 2 area / side is
   * below the threshold exactly when h is below its square.
   */
  lemma QuotientIffSquares(side: real, area: real, h: real, l: real)
    requires IsLength(side, l) && 0.0 <= area && 0.0 <= h
    requires AltitudeTimesSideHolds(h, l, area)
    ensures 2.0 * area / side < HoverDistance <==> h < HoverDistance * HoverDistance
  {
    var k := HoverDistance;
    PositiveSquare(side, l);
    calc <==> {
      2.0 * area / side < k;
      { QuotientBelow(2.0 * area, side, k); }
      2.0 * area < k * side;
      { SquareLess(2.0 * area, k * side); }
      (2.0 * area) * (2.0 * area) < (k * side) * (k * side);
      { assert (k * side) * (k * side) == (k * k) * l; }
      h * l < (k * k) * l;
      { ScaledLess(h, l, k * k); }
      h < k * k;
    }
  }

  /** A positive length squares to a positive value. */
  lemma PositiveSquare(side: real, l: real)
    requires IsLength(side, l)
    ensures 0.0 < l
  {
    assert l / side == side;
  }

  /** Dividing by a positive d: n / d < k exactly when n < k d. */

  lemma QuotientBelow(n: real, d: real, k: real)
    requires 0.0 < d
    ensures n / d < k <==> n < k * d
  {
    assert n == (n / d) * d;
    if n / d < k {
      assert (k - n / d) * d > 0.0 by { MulPositive(k - n / d, d); }
    } else {
      assert (n / d - k) * d >= 0.0 by { MulPositive(n / d - k, d); }
    }
  }

  /** Squaring keeps strict order between non-negative numbers. */
  lemma SquareLess(x: real, y: real)
    requires 0.0 <= x && 0.0 <= y
    ensures x < y <==> x * x < y * y
  {
    if x < y {
      MulPositive(y - x, y + x);
      assert y * y - x * x == (y - x) * (y + x);
    } else {
      UpperFromSquares(y, x);
      assert x * x - y * y == (x - y) * (x + y);
      MulPositive(x - y, x + y);
    }
  }

  /** Multiplying both sides by a positive l keeps strict order. */
  lemma ScaledLess(x: real, l: real, k: real)
    requires 0.0 < l
    ensures x * l < k * l <==> x < k
  {
    assert k * l - x * l == (k - x) * l;
    MulPositive(k - x, l);
    MulPositive(x - k, l);
  }

  /** A length is not beyond another exactly when its square is not. */
  lemma NotFartherIffSquares(d: real, side: real)
    requires 0.0 <= d && 0.0 <= side
    ensures !(d > side) <==> d * d <= side * side
  {
    SquareLess(side, d);
  }

  /**
   * A segment with the pen it is drawn with normally and the pen it is drawn
   * with while hovered.
   */
  class Line {
    var startPoint: PointF
    var endPoint: PointF
    var normalPen: Style
    var hoveredPen: Style
    var isHovered: bool

    /** A new line is not hovered. */
    constructor (start: PointF, end: PointF, normal: Style, hovered: Style)
      ensures startPoint == start && endPoint == end
      ensures normalPen == normal && hoveredPen == hovered
      ensures !isHovered
    {
      normalPen, hoveredPen := normal, hovered;
      startPoint, endPoint := start, end;
      isHovered := false;
    }

    /** The one line drawn: with the hovered pen exactly when the line is hovered. */
    method Draw() returns (command: Command)
      ensures command.DrawLine? && command.from == startPoint && command.to == endPoint
      ensures command.pen == (if isHovered then hoveredPen else normalPen)
    {
      if !isHovered {
        command := DrawLine(normalPen, startPoint, endPoint);
      } else {
        command := DrawLine(hoveredPen, startPoint, endPoint);
      }
    }

    /**
     * Recomputes the hover state for a cursor position and reports whether
     * it changed. Called twice with the same point, the second call
     * reports no change.
     */
    method UpdateHovered(sqrt: real -> real, point: PointF) returns (changed: bool)
      requires IsSqrt(sqrt)
      modifies this
      ensures isHovered == IsHoveredAt(sqrt, startPoint, endPoint, point)
      ensures changed <==> isHovered != old(isHovered)
      ensures startPoint == old(startPoint) && endPoint == old(endPoint)
      ensures normalPen == old(normalPen) && hoveredPen == old(hoveredPen)
    {
      var start, end := startPoint, endPoint;
      // The determinant's formula is the one the source writes out here.
      var d := Determinant(start, end, point);
      var area := Abs(d / 2.0);
      var side := Distance(sqrt, start, end);
      var hovered;
      if side == 0.0 {
        // Infinity or NaN: never below the threshold.
        hovered := false;
      } else {
        var pointToLineDistance := 2.0 * area / side;
        hovered := pointToLineDistance < HoverDistance;
      }
      if hovered && (Distance(sqrt, point, start) > side || Distance(sqrt, point, end) > side) {
        hovered := false;
      }
      if isHovered == hovered {
        return false;
      }
      isHovered := hovered;
      return true;
    }
  }
}
