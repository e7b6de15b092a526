/**
 * The visualizers as drawing: each kind of visualizer, with its pen or
 * brush, turns the triangle into a short list of drawing commands; a group
 * of named visualizers draws those of its entries that are active, in the
 * order they were added.
 */
module Rendering {
  import opened Drawing
  import opened Helpers
  import opened TrianglePoints
  import opened Triangles
  import opened Visualizers

  /** The kinds of visualizer: line visualizers carry a pen, point visualizers a brush. */
  datatype Visualizer =
    | IncircleVisualizer(pen: Style)
    | IncenterVisualizer(brush: Style)
    | MediansVisualizer(pen: Style)
    | CentroidVisualizer(brush: Style)
    | CircumcircleVisualizer(pen: Style)
    | CircumcenterVisualizer(brush: Style)
    | AltitudeVisualizer(pen: Style, extensionPen: Style)
    | OrthocenterVisualizer(brush: Style)
    | EulerLineVisualizer(pen: Style)
    | AngleBisectorVisualizer(pen: Style)
    | ExternalAngleBisectorVisualizer(pen: Style)
    | SideBisectorVisualizer(pen: Style)
    | ExcirclesVisualizer(pen: Style)
    | ExcircleCentersVisualizer(brush: Style)
    | ExcircleTangentVisualizer(pen: Style)
    | NinePointCircleVisualizer(pen: Style)
    | NinePointCenterVisualizer(brush: Style)

  /** The altitude visualizer built with one pen draws its extensions with that pen too. */
  function AltitudeWithOnePen(p: Style): (vis: Visualizer)
    ensures vis.AltitudeVisualizer? && vis.pen == p && vis.extensionPen == p
  {
    AltitudeVisualizer(p, p)
  }

  /** The visualizers that mark points with their brush. */
  predicate IsPointVisualizer(vis: Visualizer)
  {
    || vis.IncenterVisualizer? || vis.CentroidVisualizer? || vis.CircumcenterVisualizer?
    || vis.OrthocenterVisualizer? || vis.ExcircleCentersVisualizer? || vis.NinePointCenterVisualizer?
  }

  /** No two vertices coincide. */
  predicate Distinct(v: TriangleView)
  {
    v.a != v.b && v.b != v.c && v.a != v.c
  }

  /** The incenter's weight sum is non-zero. */
  predicate IncenterDefined(v: TriangleView)
  {
    TrilinearDenominator(v, 1.0, 1.0, 1.0) != 0.0
  }

  /** The incenter and the inradius are defined. */
  predicate IncircleDefined(v: TriangleView)
  {
    IncenterDefined(v) && Semiperimeter(v) != 0.0
  }

  /** The circumcenter's denominator is non-zero. */
  predicate CircumcenterDefined(v: TriangleView)
  {
    CircumcenterDenominator(v) != 0.0
  }

  /** The vertices are distinct and the orthocenter's weight sum is non-zero. */
  predicate OrthocenterDefined(sqrt: real -> real, v: TriangleView)
    requires IsSqrt(sqrt)
  {
    Distinct(v) && OrthocenterDenominator(sqrt, v) != 0.0
  }

  /** The Euler line's direction, from the centroid toward the circumcenter, is non-zero. */
  predicate EulerLineDefined(v: TriangleView)
  {
    CircumcenterDefined(v) && GetCentroid(v) != GetCircumcenter(v)
  }

  /**
   * The circumcenter is defined and differs from each side's midpoint, so
   * the direction from each midpoint toward it can be normalised.
   */
  predicate SideBisectorsDefined(v: TriangleView)
  {
    && CircumcenterDefined(v)
    && Midpoint(v.a, v.b) != GetCircumcenter(v) && Midpoint(v.a, v.c) != GetCircumcenter(v)
    && Midpoint(v.b, v.c) != GetCircumcenter(v)
  }

  /** The three excenters' weight sums are non-zero. */
  predicate ExcentersDefined(v: TriangleView)
  {
    ExcenterDenominator(v, CornerA) != 0.0 && ExcenterDenominator(v, CornerB) != 0.0
    && ExcenterDenominator(v, CornerC) != 0.0
  }

  /** The excenters and the three excircle radii are defined. */
  predicate ExcirclesDefined(v: TriangleView)
  {
    && ExcentersDefined(v)
    && ExcircleGap(v, CornerA) != 0.0 && ExcircleGap(v, CornerB) != 0.0 && ExcircleGap(v, CornerC) != 0.0
  }

  /** The excenters are defined and the vertices distinct, so the tangent points are. */
  predicate ExcircleTangentsDefined(v: TriangleView)
  {
    Distinct(v) && ExcentersDefined(v)
  }

  /** The orthocenter and the circumcenter, whose midpoint is the nine-point center, are defined. */
  predicate NinePointDefined(sqrt: real -> real, v: TriangleView)
    requires IsSqrt(sqrt)
  {
    OrthocenterDefined(sqrt, v) && CircumcenterDefined(v)
  }

  /**
   * The conditions under which a visualizer's computations are defined: every
   * weight sum and length the source divides by is non-zero, and every vector
   * it normalises is non-zero.
   */
  predicate Drawable(sqrt: real -> real, vis: Visualizer, v: TriangleView)
    requires IsSqrt(sqrt)
  {
    match vis
    case IncircleVisualizer(_) => IncircleDefined(v)
    case IncenterVisualizer(_) => IncenterDefined(v)
    case MediansVisualizer(_) => true
    case CentroidVisualizer(_) => true
    case CircumcircleVisualizer(_) => CircumcenterDefined(v)
    case CircumcenterVisualizer(_) => CircumcenterDefined(v)
    case AltitudeVisualizer(_, _) => OrthocenterDefined(sqrt, v)
    case OrthocenterVisualizer(_) => OrthocenterDefined(sqrt, v)
    case EulerLineVisualizer(_) => EulerLineDefined(v)
    case AngleBisectorVisualizer(_) => IncenterDefined(v)
    case ExternalAngleBisectorVisualizer(_) => ExcentersDefined(v)
    case SideBisectorVisualizer(_) => SideBisectorsDefined(v)
    case ExcirclesVisualizer(_) => ExcirclesDefined(v)
    case ExcircleCentersVisualizer(_) => ExcentersDefined(v)
    case ExcircleTangentVisualizer(_) => ExcircleTangentsDefined(v)
    case NinePointCircleVisualizer(_) => NinePointDefined(sqrt, v)
    case NinePointCenterVisualizer(_) => NinePointDefined(sqrt, v)
  }

  /** A point marked as a filled disc of radius `Radius`. */
  function Mark(brush: Style, center: PointF): (c: Command)
    ensures c.FillEllipse? && c.brush == brush && c.bounds.width == 2.0 * Radius
    ensures BoundsCenter(c.bounds) == center
  {
    BoundsCentredOn(EllipseToRectangle(center, Radius), center);
    FillEllipse(brush, EllipseToRectangle(center, Radius))
  }

  /** A circle outlined with a pen. */
  function Circle(pen: Style, center: PointF, radius: real): (c: Command)
    ensures c.DrawEllipse? && c.pen == pen && c.bounds.width == 2.0 * radius
    ensures BoundsCenter(c.bounds) == center
  {
    BoundsCentredOn(EllipseToRectangle(center, radius), center);
    DrawEllipse(pen, EllipseToRectangle(center, radius))
  }

  /** The centre of a rectangle. */
  function BoundsCenter(r: RectangleF): PointF
  {
    PointF(r.x + r.width / 2.0, r.y + r.height / 2.0)
  }

  /** The bounding box of a circle is centred on the circle's centre. */
  lemma BoundsCentredOn(r: RectangleF, center: PointF)
    requires r.x + r.width / 2.0 == center.x && r.y + r.height / 2.0 == center.y
    ensures BoundsCenter(r) == center
  {
  }

  /** Each segment drawn as a line with the same pen, in order. */
  function Lines(pen: Style, segments: seq<Segment>): (cs: seq<Command>)
    ensures |cs| == |segments| && StrokesWith(pen, cs)
    ensures forall i :: 0 <= i < |cs| ==> cs[i] == DrawLine(pen, segments[i].from, segments[i].to)
  {
    seq(|segments|, i requires 0 <= i < |segments| => DrawLine(pen, segments[i].from, segments[i].to))
  }

  /** The nine lines of the altitude visualizer: altitudes, side extensions, and the feet joined to the orthocenter. */
  function AltitudeLines(sqrt: real -> real, pen: Style, extensionPen: Style, v: TriangleView): (cs: seq<Command>)
    requires IsSqrt(sqrt) && OrthocenterDefined(sqrt, v)
    ensures |cs| == 9
    ensures forall i :: 0 <= i < |cs| ==> cs[i].DrawLine? && (cs[i].pen == pen || cs[i].pen == extensionPen)
  {
    var hA, hB, hC := GetAltitudeFoot(v.a, v.b, v.c), GetAltitudeFoot(v.b, v.a, v.c), GetAltitudeFoot(v.c, v.a, v.b);
    var orthocenter := GetOrthocenter(sqrt, v);
    [DrawLine(pen, v.a, hA), DrawLine(pen, v.b, hB), DrawLine(pen, v.c, hC),
     DrawLine(extensionPen, v.b, hA), DrawLine(extensionPen, v.a, hC), DrawLine(extensionPen, v.c, hB),
     DrawLine(extensionPen, hA, orthocenter), DrawLine(extensionPen, hB, orthocenter), DrawLine(extensionPen, hC, orthocenter)]
  }

  /** Every command strokes a line or a circle with `pen`. */
  predicate StrokesWith(pen: Style, cs: seq<Command>)
  {
    forall i :: 0 <= i < |cs| ==> !cs[i].FillEllipse? && cs[i].pen == pen
  }

  /** Every command fills a mark of radius `Radius` with `brush`. */
  predicate MarksWith(brush: Style, cs: seq<Command>)
  {
    forall i :: 0 <= i < |cs| ==> cs[i].FillEllipse? && cs[i].brush == brush && cs[i].bounds.width == 2.0 * Radius
  }

  /** How many commands each kind of visualizer issues. */
  function CommandCount(vis: Visualizer): nat
  {
    match vis
    case AltitudeVisualizer(_, _) => 9
    case ExcircleTangentVisualizer(_) => 6
    case MediansVisualizer(_) => 3
    case AngleBisectorVisualizer(_) => 3
    case ExternalAngleBisectorVisualizer(_) => 3
    case SideBisectorVisualizer(_) => 3
    case ExcirclesVisualizer(_) => 3
    case ExcircleCentersVisualizer(_) => 3
    case _ => 1
  }

  /**
   * Whether a command is drawn with the visualizer's own style: a point
   * visualizer only fills discs of radius `Radius` with its brush; a line
   * visualizer only draws lines and circles with its pen (the altitude
   * visualizer also with its extension pen).
   */
  predicate UsesOwnStyle(vis: Visualizer, c: Command)
  {
    if IsPointVisualizer(vis) then
      c.FillEllipse? && c.brush == vis.brush && c.bounds.width == 2.0 * Radius
    else
      !c.FillEllipse? && (c.pen == vis.pen || (vis.AltitudeVisualizer? && c.pen == vis.extensionPen))
  }

  /** Every command is in the visualizer's own style. */
  predicate AllOwnStyle(vis: Visualizer, cs: seq<Command>)
  {
    forall i :: 0 <= i < |cs| ==> UsesOwnStyle(vis, cs[i])
  }

  /** What one visualizer draws for the triangle, in the source's order. */
  function Render(sqrt: real -> real, vis: Visualizer, v: TriangleView): seq<Command>
    requires IsSqrt(sqrt) && Drawable(sqrt, vis, v)
  {
    match vis
    case IncircleVisualizer(pen) => IncircleCommands(pen, v)
    case IncenterVisualizer(brush) => IncenterCommands(brush, v)
    case MediansVisualizer(pen) => MedianCommands(pen, v)
    case CentroidVisualizer(brush) => CentroidCommands(brush, v)
    case CircumcircleVisualizer(pen) => CircumcircleCommands(sqrt, pen, v)
    case CircumcenterVisualizer(brush) => CircumcenterCommands(brush, v)
    case AltitudeVisualizer(pen, extensionPen) => AltitudeLines(sqrt, pen, extensionPen, v)
    case OrthocenterVisualizer(brush) => OrthocenterCommands(sqrt, brush, v)
    case EulerLineVisualizer(pen) => EulerLineCommands(sqrt, pen, v)
    case AngleBisectorVisualizer(pen) => AngleBisectorCommands(pen, v)
    case ExternalAngleBisectorVisualizer(pen) => ExternalAngleBisectorCommands(pen, v)
    case SideBisectorVisualizer(pen) => SideBisectorCommands(sqrt, pen, v)
    case ExcirclesVisualizer(pen) => ExcircleCommands(sqrt, pen, v)
    case ExcircleCentersVisualizer(brush) => ExcircleCenterCommands(brush, v)
    case ExcircleTangentVisualizer(pen) => ExcircleTangentCommands(pen, v)
    case NinePointCircleVisualizer(pen) => NinePointCircleCommands(sqrt, pen, v)
    case NinePointCenterVisualizer(brush) => NinePointCenterCommands(sqrt, brush, v)
  }

  /** Every visualizer issues the number of commands its kind fixes. */
  lemma RenderCount(sqrt: real -> real, vis: Visualizer, v: TriangleView)
    requires IsSqrt(sqrt) && Drawable(sqrt, vis, v)
    ensures |Render(sqrt, vis, v)| == CommandCount(vis)
  {
  }

  /**
   * Every command a visualizer issues is in its own style: point
   * visualizers only fill marks with their brush, line visualizers only
   * stroke with their pens.
   */
  lemma RenderStyle(sqrt: real -> real, vis: Visualizer, v: TriangleView)
    requires IsSqrt(sqrt) && Drawable(sqrt, vis, v)
    ensures AllOwnStyle(vis, Render(sqrt, vis, v))
  {
    var cs := Render(sqrt, vis, v);
    if vis.AltitudeVisualizer? {
    } else if IsPointVisualizer(vis) {
      OwnBrush(vis, cs);
    } else {
      OwnPen(vis, cs);
    }
  }

  /** A line visualizer's commands that all stroke with its pen use its own style. */
  lemma OwnPen(vis: Visualizer, cs: seq<Command>)
    requires !IsPointVisualizer(vis) && StrokesWith(vis.pen, cs)
    ensures AllOwnStyle(vis, cs)
  {
  }

  /** A point visualizer's commands that all fill marks with its brush use its own style. */
  lemma OwnBrush(vis: Visualizer, cs: seq<Command>)
    requires IsPointVisualizer(vis) && MarksWith(vis.brush, cs)
    ensures AllOwnStyle(vis, cs)
  {
  }

  function IncircleCommands(pen: Style, v: TriangleView): (cs: seq<Command>)
    requires IncircleDefined(v)
    ensures |cs| == 1 && StrokesWith(pen, cs)
  {
    [Circle(pen, GetIncenter(v), Inradius(v))]
  }

  function IncenterCommands(brush: Style, v: TriangleView): (cs: seq<Command>)
    requires IncenterDefined(v)
    ensures |cs| == 1 && MarksWith(brush, cs)
  {
    [Mark(brush, GetIncenter(v))]
  }

  function MedianCommands(pen: Style, v: TriangleView): (cs: seq<Command>)
    ensures |cs| == 3 && StrokesWith(pen, cs)
  {
    [DrawLine(pen, v.a, Midpoint(v.b, v.c)), DrawLine(pen, v.b, Midpoint(v.a, v.c)), DrawLine(pen, v.c, Midpoint(v.a, v.b))]
  }

  function CentroidCommands(brush: Style, v: TriangleView): (cs: seq<Command>)
    ensures |cs| == 1 && MarksWith(brush, cs)
  {
    [Mark(brush, GetCentroid(v))]
  }

  function CircumcircleCommands(sqrt: real -> real, pen: Style, v: TriangleView): (cs: seq<Command>)
    requires IsSqrt(sqrt) && CircumcenterDefined(v)
    ensures |cs| == 1 && StrokesWith(pen, cs)
  {
    [Circle(pen, GetCircumcenter(v), Circumradius(sqrt, v))]
  }

  function CircumcenterCommands(brush: Style, v: TriangleView): (cs: seq<Command>)
    requires CircumcenterDefined(v)
    ensures |cs| == 1 && MarksWith(brush, cs)
  {
    [Mark(brush, GetCircumcenter(v))]
  }

  function OrthocenterCommands(sqrt: real -> real, brush: Style, v: TriangleView): (cs: seq<Command>)
    requires IsSqrt(sqrt) && OrthocenterDefined(sqrt, v)
    ensures |cs| == 1 && MarksWith(brush, cs)
  {
    [Mark(brush, GetOrthocenter(sqrt, v))]
  }

  function EulerLineCommands(sqrt: real -> real, pen: Style, v: TriangleView): (cs: seq<Command>)
    requires IsSqrt(sqrt) && EulerLineDefined(v)
    ensures |cs| == 1 && StrokesWith(pen, cs)
  {
    Lines(pen, [EulerLine(sqrt, v)])
  }

  function AngleBisectorCommands(pen: Style, v: TriangleView): (cs: seq<Command>)
    requires IncenterDefined(v)
    ensures |cs| == 3 && StrokesWith(pen, cs)
  {
    var incenter := GetIncenter(v);
    [DrawLine(pen, v.a, incenter), DrawLine(pen, v.b, incenter), DrawLine(pen, v.c, incenter)]
  }

  function ExternalAngleBisectorCommands(pen: Style, v: TriangleView): (cs: seq<Command>)
    requires ExcentersDefined(v)
    ensures |cs| == 3 && StrokesWith(pen, cs)
  {
    var eA, eB, eC := GetExcenter(v, CornerA), GetExcenter(v, CornerB), GetExcenter(v, CornerC);
    [DrawLine(pen, eA, eB), DrawLine(pen, eB, eC), DrawLine(pen, eC, eA)]
  }

  function SideBisectorCommands(sqrt: real -> real, pen: Style, v: TriangleView): (cs: seq<Command>)
    requires IsSqrt(sqrt) && SideBisectorsDefined(v)
    ensures |cs| == 3 && StrokesWith(pen, cs)
  {
    Lines(pen, SideBisectors(sqrt, v))
  }

  function ExcircleCommands(sqrt: real -> real, pen: Style, v: TriangleView): (cs: seq<Command>)
    requires ExcirclesDefined(v)
    ensures |cs| == 3 && StrokesWith(pen, cs)
  {
    [Circle(pen, GetExcenter(v, CornerA), ExcircleRadius(sqrt, v, CornerA)),
     Circle(pen, GetExcenter(v, CornerB), ExcircleRadius(sqrt, v, CornerB)),
     Circle(pen, GetExcenter(v, CornerC), ExcircleRadius(sqrt, v, CornerC))]
  }

  function ExcircleCenterCommands(brush: Style, v: TriangleView): (cs: seq<Command>)
    requires ExcentersDefined(v)
    ensures |cs| == 3 && MarksWith(brush, cs)
  {
    [Mark(brush, GetExcenter(v, CornerA)), Mark(brush, GetExcenter(v, CornerB)), Mark(brush, GetExcenter(v, CornerC))]
  }

  function ExcircleTangentCommands(pen: Style, v: TriangleView): (cs: seq<Command>)
    requires ExcircleTangentsDefined(v)
    ensures |cs| == 6 && StrokesWith(pen, cs)
  {
    Lines(pen, ExcircleTangentSegments(v))
  }

  function NinePointCircleCommands(sqrt: real -> real, pen: Style, v: TriangleView): (cs: seq<Command>)
    requires IsSqrt(sqrt) && NinePointDefined(sqrt, v)
    ensures |cs| == 1 && StrokesWith(pen, cs)
  {
    [Circle(pen, NinePointCenter(sqrt, v), NinePointRadius(sqrt, v))]
  }

  function NinePointCenterCommands(sqrt: real -> real, brush: Style, v: TriangleView): (cs: seq<Command>)
    requires IsSqrt(sqrt) && NinePointDefined(sqrt, v)
    ensures |cs| == 1 && MarksWith(brush, cs)
  {
    [Mark(brush, NinePointCenter(sqrt, v))]
  }

  // ---------------------------------------------------------------------
  // What the drawn figures are

  /**
   * The circle about `center` with radius r touches the three side lines:
   * the distance from the centre to each side's line (twice the area it
   * spans with the side, over the side's length) is r.
   */
  predicate TouchesSideLines(v: TriangleView, center: PointF, r: real)
  {
    && 2.0 * AreaOf(center, v.b, v.c) == r * v.sideA
    && 2.0 * AreaOf(center, v.c, v.a) == r * v.sideB
    && 2.0 * AreaOf(center, v.a, v.b) == r * v.sideC
  }

  /** The radius of a drawn circle: half its bounding box's width. */
  function DrawnRadius(bounds: RectangleF): real
  {
    bounds.width / 2.0
  }

  /**
   * Every visualizer except the two that normalise a direction toward the
   * circumcenter (the Euler line and the side bisectors) can draw every
   * triangle; in particular the orthocenter's weight sum never vanishes.
   */
  lemma DrawableWhenTriangle(sqrt: real -> real, vis: Visualizer, v: TriangleView)
    requires IsSqrt(sqrt) && WellMeasured(v) && v.isTriangle
    requires !vis.EulerLineVisualizer? && !vis.SideBisectorVisualizer?
    ensures Drawable(sqrt, vis, v)
  {
    TriangleVerticesDistinct(v);
    OrthocenterDenominatorNegative(sqrt, v);
    CircumcenterDenominatorIsArea(v);
    ExcenterDenominatorPositive(v, CornerA);
    ExcenterDenominatorPositive(v, CornerB);
    ExcenterDenominatorPositive(v, CornerC);
    GapsPositive(v);
  }

  /** A triangle's semiperimeter is positive. */
  lemma SemiperimeterPositive(v: TriangleView)
    requires WellMeasured(v) && v.isTriangle
    ensures 0.0 < Semiperimeter(v)
  {
    TriangleVerticesDistinct(v);
  }

  /** For a triangle the incircle is drawn about the incenter, with positive radius, touching all three side lines. */
  lemma IncircleDrawnTangent(pen: Style, v: TriangleView)
    requires WellMeasured(v) && v.isTriangle
    ensures IncircleDefined(v)
    ensures var c := IncircleCommands(pen, v)[0];
      && BoundsCenter(c.bounds) == GetIncenter(v) && 0.0 < DrawnRadius(c.bounds)
      && TouchesSideLines(v, BoundsCenter(c.bounds), DrawnRadius(c.bounds))
  {
    SemiperimeterPositive(v);
    var r := Inradius(v);
    IncircleTouchesSides(v, r);
    assert TouchesSideLines(v, GetIncenter(v), r);
    if r <= 0.0 {
      MulPositive(-r, Semiperimeter(v));
    }
    var c := Circle(pen, GetIncenter(v), r);
    assert IncircleCommands(pen, v)[0] == c;
    assert DrawnRadius(c.bounds) == r;
  }

  /** For a triangle the circumcircle is drawn about the circumcenter and passes through all three vertices. */
  lemma CircumcircleDrawnThroughVertices(sqrt: real -> real, pen: Style, v: TriangleView)
    requires IsSqrt(sqrt) && WellMeasured(v) && v.isTriangle
    ensures CircumcenterDefined(v)
    ensures var c := CircumcircleCommands(sqrt, pen, v)[0];
      var o, r := BoundsCenter(c.bounds), DrawnRadius(c.bounds);
      && o == GetCircumcenter(v)
      && r * r == DistanceSquared(o, v.a) && r * r == DistanceSquared(o, v.b) && r * r == DistanceSquared(o, v.c)
  {
    CircumcenterDenominatorIsArea(v);
    CircumcircleThroughVertices(sqrt, v);
    var o, r := GetCircumcenter(v), Circumradius(sqrt, v);
    var c := Circle(pen, o, r);
    assert CircumcircleCommands(sqrt, pen, v)[0] == c;
    assert BoundsCenter(c.bounds) == o && DrawnRadius(c.bounds) == r;
  }

  /** For a triangle the excircle opposite a vertex is drawn about its excenter and touches all three side lines. */
  lemma ExcircleDrawnTangent(sqrt: real -> real, pen: Style, v: TriangleView, k: Corner)
    requires IsSqrt(sqrt) && WellMeasured(v) && v.isTriangle
    ensures ExcenterDenominator(v, k) != 0.0 && ExcircleGap(v, k) != 0.0
    ensures var c := Circle(pen, GetExcenter(v, k), ExcircleRadius(sqrt, v, k));
      TouchesSideLines(v, BoundsCenter(c.bounds), DrawnRadius(c.bounds))
  {
    ExcircleRadiusIsAreaOverGap(sqrt, v, k);
    var r := ExcircleRadius(sqrt, v, k);
    ExcircleTouchesSides(v, k, r);
    assert TouchesSideLines(v, GetExcenter(v, k), r);
    var c := Circle(pen, GetExcenter(v, k), r);
    assert DrawnRadius(c.bounds) == r;
  }

  /** For a triangle the three excircles are drawn, each about its excenter and touching all three side lines. */
  lemma ExcirclesDrawnTangent(sqrt: real -> real, pen: Style, v: TriangleView)
    requires IsSqrt(sqrt) && WellMeasured(v) && v.isTriangle
    ensures ExcirclesDefined(v)
    ensures var cs := ExcircleCommands(sqrt, pen, v);
      && BoundsCenter(cs[0].bounds) == GetExcenter(v, CornerA) && TouchesSideLines(v, BoundsCenter(cs[0].bounds), DrawnRadius(cs[0].bounds))
      && BoundsCenter(cs[1].bounds) == GetExcenter(v, CornerB) && TouchesSideLines(v, BoundsCenter(cs[1].bounds), DrawnRadius(cs[1].bounds))
      && BoundsCenter(cs[2].bounds) == GetExcenter(v, CornerC) && TouchesSideLines(v, BoundsCenter(cs[2].bounds), DrawnRadius(cs[2].bounds))
  {
    ExcircleDrawnTangent(sqrt, pen, v, CornerA);
    ExcircleDrawnTangent(sqrt, pen, v, CornerB);
    ExcircleDrawnTangent(sqrt, pen, v, CornerC);
  }

  /** Each median drawn, from a vertex to the opposite side's midpoint, passes through the centroid two thirds of the way along. */
  lemma MediansDrawnThroughCentroid(pen: Style, v: TriangleView)
    ensures var cs, g := MedianCommands(pen, v), GetCentroid(v);
      forall i :: 0 <= i < 3 ==> Scale(3.0, Subtract(g, cs[i].from)) == Scale(2.0, Subtract(cs[i].to, cs[i].from))
  {
    MediansThroughCentroid(v);
  }

  /**
   * The three angle bisectors drawn meet at the incenter, and the one from A
   * continues through the excenter opposite A.
   */
  lemma AngleBisectorsDrawnConcurrent(pen: Style, v: TriangleView)
    requires IncenterDefined(v)
    ensures var cs := AngleBisectorCommands(pen, v);
      && cs[0].from == v.a && cs[1].from == v.b && cs[2].from == v.c
      && cs[0].to == cs[1].to == cs[2].to == GetIncenter(v)
      && (ExcenterDenominator(v, CornerA) != 0.0 ==>
          Cross(Subtract(cs[0].to, cs[0].from), Subtract(GetExcenter(v, CornerA), cs[0].from)) == 0.0)
  {
    if ExcenterDenominator(v, CornerA) != 0.0 {
      AngleBisectorThroughExcenter(v);
    }
  }

  /**
   * Each side of the excentral triangle drawn by the external bisector
   * visualizer passes through a vertex: eA eB through C, eB eC through A,
   * eC eA through B.
   */
  lemma ExternalBisectorsDrawnThroughVertices(pen: Style, v: TriangleView)
    requires ExcentersDefined(v)
    ensures var cs := ExternalAngleBisectorCommands(pen, v);
      && Cross(Subtract(cs[0].from, v.c), Subtract(cs[0].to, v.c)) == 0.0
      && Cross(Subtract(cs[1].from, v.a), Subtract(cs[1].to, v.a)) == 0.0
      && Cross(Subtract(cs[2].from, v.b), Subtract(cs[2].to, v.b)) == 0.0
  {
    ExternalBisectorsThroughVertices(v);
  }

  /**
   * The altitude visualizer's first three lines, drawn with its pen, run
   * from each vertex to a foot on the opposite side's line and meet that
   * line at a right angle; the next three, drawn with the extension pen,
   * run along the sides' lines to those feet.
   */
  lemma AltitudesDrawnPerpendicular(sqrt: real -> real, pen: Style, extensionPen: Style, v: TriangleView)
    requires IsSqrt(sqrt) && OrthocenterDefined(sqrt, v)
    ensures var cs := AltitudeLines(sqrt, pen, extensionPen, v);
      && cs[0].pen == pen && cs[1].pen == pen && cs[2].pen == pen
      && cs[0].from == v.a && DotProduct(Subtract(cs[0].from, cs[0].to), Subtract(v.c, v.b)) == 0.0
      && cs[1].from == v.b && DotProduct(Subtract(cs[1].from, cs[1].to), Subtract(v.c, v.a)) == 0.0
      && cs[2].from == v.c && DotProduct(Subtract(cs[2].from, cs[2].to), Subtract(v.b, v.a)) == 0.0
      && cs[3].pen == extensionPen && cs[4].pen == extensionPen && cs[5].pen == extensionPen
      && cs[3].from == v.b && cs[3].to == cs[0].to && Cross(Subtract(cs[3].to, v.b), Subtract(v.c, v.b)) == 0.0
      && cs[4].from == v.a && cs[4].to == cs[2].to && Cross(Subtract(cs[4].to, v.a), Subtract(v.b, v.a)) == 0.0
      && cs[5].from == v.c && cs[5].to == cs[1].to && Cross(Subtract(cs[5].to, v.a), Subtract(v.c, v.a)) == 0.0
      && cs[6].from == cs[0].to && cs[7].from == cs[1].to && cs[8].from == cs[2].to
      && cs[6].to == GetOrthocenter(sqrt, v) && cs[7].to == GetOrthocenter(sqrt, v) && cs[8].to == GetOrthocenter(sqrt, v)
      && (WellMeasured(v) ==>
          && Cross(Subtract(cs[6].from, v.a), Subtract(cs[6].to, v.a)) == 0.0
          && Cross(Subtract(cs[7].from, v.b), Subtract(cs[7].to, v.b)) == 0.0
          && Cross(Subtract(cs[8].from, v.c), Subtract(cs[8].to, v.c)) == 0.0)
  {
    if WellMeasured(v) {
      var h := GetOrthocenter(sqrt, v);
      OrthocenterOnAltitudes(sqrt, v);
      FootAndOrthocenterInLine(v.a, v.b, v.c, h);
      FootAndOrthocenterInLine(v.b, v.a, v.c, h);
      FootAndOrthocenterInLine(v.c, v.a, v.b, h);
    }
  }

  /**
   * The foot of the altitude from `vertex` onto the line through `p` and `q`
   * and any point h of that altitude are in line with the vertex.
   */
  lemma FootAndOrthocenterInLine(vertex: PointF, p: PointF, q: PointF, h: PointF)
    requires p != q && DotProduct(Subtract(h, vertex), Subtract(q, p)) == 0.0
    ensures Cross(Subtract(GetAltitudeFoot(vertex, p, q), vertex), Subtract(h, vertex)) == 0.0
  {
    var f, d := GetAltitudeFoot(vertex, p, q), Subtract(q, p);
    assert DotProduct(Subtract(f, vertex), d) == -DotProduct(Subtract(vertex, f), d);
    assert d != Origin;
    PerpendicularsParallel(Subtract(f, vertex), Subtract(h, vertex), d);
  }

  /** For a triangle the incenter is marked at a point whose distance to each side line is the inradius. */
  lemma IncenterDrawn(brush: Style, v: TriangleView)
    requires WellMeasured(v) && v.isTriangle
    ensures IncenterDefined(v) && 0.0 < Semiperimeter(v)
    ensures var p := BoundsCenter(IncenterCommands(brush, v)[0].bounds);
      p == GetIncenter(v) && TouchesSideLines(v, p, Inradius(v))
  {
    SemiperimeterPositive(v);
    var r := Inradius(v);
    IncircleTouchesSides(v, r);
    assert TouchesSideLines(v, GetIncenter(v), r);
  }

  /** The centroid is marked two thirds of the way along each median, from the vertex. */
  lemma CentroidDrawn(brush: Style, v: TriangleView)
    ensures var g := BoundsCenter(CentroidCommands(brush, v)[0].bounds);
      && g == GetCentroid(v)
      && Scale(3.0, Subtract(g, v.a)) == Scale(2.0, Subtract(Midpoint(v.b, v.c), v.a))
      && Scale(3.0, Subtract(g, v.b)) == Scale(2.0, Subtract(Midpoint(v.a, v.c), v.b))
      && Scale(3.0, Subtract(g, v.c)) == Scale(2.0, Subtract(Midpoint(v.a, v.b), v.c))
  {
    MediansThroughCentroid(v);
  }

  /** For a triangle the circumcenter is marked at a point equidistant from the three vertices. */
  lemma CircumcenterDrawn(brush: Style, v: TriangleView)
    requires WellMeasured(v) && v.isTriangle
    ensures CircumcenterDefined(v)
    ensures var o := BoundsCenter(CircumcenterCommands(brush, v)[0].bounds);
      && o == GetCircumcenter(v)
      && DistanceSquared(o, v.b) == DistanceSquared(o, v.a) && DistanceSquared(o, v.c) == DistanceSquared(o, v.a)
  {
    CircumcenterDenominatorIsArea(v);
    CircumcenterEquidistant(v);
  }

  /**
   * For every triangle the orthocenter is marked on all three altitudes and
   * on the Euler line: its offset from the centroid is twice the centroid's
   * offset from the circumcenter.
   */
  lemma OrthocenterDrawn(sqrt: real -> real, brush: Style, v: TriangleView)
    requires IsSqrt(sqrt) && WellMeasured(v) && v.isTriangle
    ensures OrthocenterDefined(sqrt, v) && CircumcenterDefined(v)
    ensures var h := BoundsCenter(OrthocenterCommands(sqrt, brush, v)[0].bounds);
      && h == GetOrthocenter(sqrt, v)
      && DotProduct(Subtract(h, v.a), Subtract(v.c, v.b)) == 0.0
      && DotProduct(Subtract(h, v.b), Subtract(v.c, v.a)) == 0.0
      && DotProduct(Subtract(h, v.c), Subtract(v.b, v.a)) == 0.0
      && Subtract(h, GetCentroid(v)) == Scale(2.0, Subtract(GetCentroid(v), GetCircumcenter(v)))
  {
    OrthocenterDenominatorNegative(sqrt, v);
    OrthocenterOnAltitudes(sqrt, v);
    OrthocenterOnEulerLine(sqrt, v);
  }

  /**
   * The Euler line drawn for a triangle is `EulerLine`: centred on the
   * centroid, reaching `EulerLineReach` each way, and through both the
   * circumcenter and the orthocenter.
   */
  lemma EulerLineDrawn(sqrt: real -> real, pen: Style, v: TriangleView)
    requires IsSqrt(sqrt) && WellMeasured(v) && v.isTriangle && CircumcenterDefined(v)
    requires GetCentroid(v) != GetCircumcenter(v)
    ensures EulerLineDefined(v) && OrthocenterDefined(sqrt, v)
    ensures var c, g := EulerLineCommands(sqrt, pen, v)[0], GetCentroid(v);
      && c.from == EulerLine(sqrt, v).from && c.to == EulerLine(sqrt, v).to
      && Subtract(c.from, g) == Subtract(g, c.to)
      && DistanceSquared(c.from, g) == EulerLineReach * EulerLineReach
      && Cross(Subtract(c.from, g), Subtract(GetCircumcenter(v), g)) == 0.0
      && Cross(Subtract(c.from, g), Subtract(GetOrthocenter(sqrt, v), g)) == 0.0
  {
    OrthocenterDenominatorNegative(sqrt, v);
    OrthocenterOnEulerLine(sqrt, v);
    var g, o := GetCentroid(v), GetCircumcenter(v);
    var w := Subtract(EulerLine(sqrt, v).from, g);
    assert Cross(w, Scale(2.0, Subtract(g, o))) == -2.0 * Cross(w, Subtract(o, g));
  }

  /**
   * The side bisectors drawn as the source writes them: each centred on its
   * side's midpoint (AB, AC, BC), reaching `SideBisectorReach` each way,
   * perpendicular to the side and in line with the circumcenter.
   */
  lemma SideBisectorsDrawn(sqrt: real -> real, pen: Style, v: TriangleView)
    requires IsSqrt(sqrt) && WellMeasured(v) && SideBisectorsDefined(v)
    ensures var cs, o := SideBisectorCommands(sqrt, pen, v), GetCircumcenter(v);
      forall i :: 0 <= i < 3 ==>
        var m, side := [Midpoint(v.a, v.b), Midpoint(v.a, v.c), Midpoint(v.b, v.c)][i],
                       [Subtract(v.b, v.a), Subtract(v.c, v.a), Subtract(v.c, v.b)][i];
        && Subtract(cs[i].from, m) == Subtract(m, cs[i].to)
        && DistanceSquared(cs[i].from, m) == SideBisectorReach * SideBisectorReach
        && DotProduct(Subtract(cs[i].from, m), side) == 0.0
        && Cross(Subtract(cs[i].from, m), Subtract(o, m)) == 0.0
  {
    SideBisectorsPerpendicular(sqrt, v);
  }

  /** For a triangle the three excenters are marked, each at distance its exradius from all three side lines. */
  lemma ExcircleCentersDrawn(sqrt: real -> real, brush: Style, v: TriangleView)
    requires IsSqrt(sqrt) && WellMeasured(v) && v.isTriangle
    ensures ExcirclesDefined(v)
    ensures var cs := ExcircleCenterCommands(brush, v);
      && BoundsCenter(cs[0].bounds) == GetExcenter(v, CornerA)
      && BoundsCenter(cs[1].bounds) == GetExcenter(v, CornerB)
      && BoundsCenter(cs[2].bounds) == GetExcenter(v, CornerC)
      && TouchesSideLines(v, BoundsCenter(cs[0].bounds), ExcircleRadius(sqrt, v, CornerA))
      && TouchesSideLines(v, BoundsCenter(cs[1].bounds), ExcircleRadius(sqrt, v, CornerB))
      && TouchesSideLines(v, BoundsCenter(cs[2].bounds), ExcircleRadius(sqrt, v, CornerC))
  {
    ExcenterTouches(sqrt, v, CornerA);
    ExcenterTouches(sqrt, v, CornerB);
    ExcenterTouches(sqrt, v, CornerC);
  }

  /** The excenter opposite a vertex is at distance the exradius from all three side lines. */
  lemma ExcenterTouches(sqrt: real -> real, v: TriangleView, k: Corner)
    requires IsSqrt(sqrt) && WellMeasured(v) && v.isTriangle
    ensures ExcenterDenominator(v, k) != 0.0 && ExcircleGap(v, k) != 0.0
    ensures TouchesSideLines(v, GetExcenter(v, k), ExcircleRadius(sqrt, v, k))
  {
    ExcircleRadiusIsAreaOverGap(sqrt, v, k);
    var r := ExcircleRadius(sqrt, v, k);
    ExcircleTouchesSides(v, k, r);
    assert TouchesSideLines(v, GetExcenter(v, k), r);
  }

  /**
   * The six excircle tangent segments drawn are `ExcircleTangentSegments`;
   * each ends at a vertex and is centred on the foot of the perpendicular
   * from its excenter to that side's line, where the excircle touches it.
   */
  lemma ExcircleTangentsDrawn(pen: Style, v: TriangleView)
    requires ExcircleTangentsDefined(v)
    ensures var cs, s := ExcircleTangentCommands(pen, v), ExcircleTangentSegments(v);
      var eA, eB, eC := GetExcenter(v, CornerA), GetExcenter(v, CornerB), GetExcenter(v, CornerC);
      && (forall i :: 0 <= i < 6 ==> cs[i].from == s[i].from && cs[i].to == s[i].to)
      && Midpoint(cs[0].from, cs[0].to) == GetAltitudeFoot(eA, v.a, v.b)
      && Midpoint(cs[1].from, cs[1].to) == GetAltitudeFoot(eA, v.a, v.c)
      && Midpoint(cs[2].from, cs[2].to) == GetAltitudeFoot(eB, v.b, v.a)
      && Midpoint(cs[3].from, cs[3].to) == GetAltitudeFoot(eB, v.b, v.c)
      && Midpoint(cs[4].from, cs[4].to) == GetAltitudeFoot(eC, v.c, v.b)
      && Midpoint(cs[5].from, cs[5].to) == GetAltitudeFoot(eC, v.c, v.a)
  {
    var eA, eB, eC := GetExcenter(v, CornerA), GetExcenter(v, CornerB), GetExcenter(v, CornerC);
    TangentSegmentCentredOnFoot(v.a, v.b, eA);
    TangentSegmentCentredOnFoot(v.a, v.c, eA);
    TangentSegmentCentredOnFoot(v.b, v.a, eB);
    TangentSegmentCentredOnFoot(v.b, v.c, eB);
    TangentSegmentCentredOnFoot(v.c, v.b, eC);
    TangentSegmentCentredOnFoot(v.c, v.a, eC);
  }

  /**
   * For every triangle the nine-point circle is drawn about
   * `NinePointCenter` with radius `NinePointRadius`, and passes through the
   * three side midpoints, the three feet of the altitudes and the midpoints
   * between each vertex and the orthocenter.
   */
  lemma NinePointCircleDrawn(sqrt: real -> real, pen: Style, v: TriangleView)
    requires IsSqrt(sqrt) && WellMeasured(v) && v.isTriangle
    ensures NinePointDefined(sqrt, v)
    ensures var c := NinePointCircleCommands(sqrt, pen, v)[0];
      var n, r, h := BoundsCenter(c.bounds), DrawnRadius(c.bounds), GetOrthocenter(sqrt, v);
      && n == NinePointCenter(sqrt, v) && r == NinePointRadius(sqrt, v)
      && OnCircle(n, r, Midpoint(v.b, v.c)) && OnCircle(n, r, Midpoint(v.c, v.a)) && OnCircle(n, r, Midpoint(v.a, v.b))
      && OnCircle(n, r, GetAltitudeFoot(v.a, v.b, v.c))
      && OnCircle(n, r, GetAltitudeFoot(v.b, v.c, v.a))
      && OnCircle(n, r, GetAltitudeFoot(v.c, v.a, v.b))
      && OnCircle(n, r, Midpoint(v.a, h)) && OnCircle(n, r, Midpoint(v.b, h)) && OnCircle(n, r, Midpoint(v.c, h))
  {
    NinePointCircleThroughNinePoints(sqrt, v);
    var c := NinePointCircleCommands(sqrt, pen, v)[0];
    assert DrawnRadius(c.bounds) == NinePointRadius(sqrt, v);
  }

  /**
   * For every triangle the nine-point center is marked halfway between the
   * orthocenter and the circumcenter, at (A + B + C - O) / 2.
   */
  lemma NinePointCenterDrawn(sqrt: real -> real, brush: Style, v: TriangleView)
    requires IsSqrt(sqrt) && WellMeasured(v) && v.isTriangle
    ensures NinePointDefined(sqrt, v)
    ensures var n, o := BoundsCenter(NinePointCenterCommands(sqrt, brush, v)[0].bounds), GetCircumcenter(v);
      && n == NinePointCenter(sqrt, v)
      && Subtract(n, GetOrthocenter(sqrt, v)) == Subtract(o, n)
      && Add(Scale(2.0, n), o) == Add(Add(v.a, v.b), v.c)
  {
    EulerRelation(sqrt, v);
  }
}
