/**
 * Value types of the drawing surface the geometry core talks to: points with
 * real or integer coordinates, rectangles, and the drawing commands a
 * visualizer emits instead of calling the graphics toolkit.
 */
module Drawing {

  /** A point (or vector) with real coordinates. */
  datatype PointF = PointF(x: real, y: real)

  /** A point with integer coordinates, as mouse events report them. */
  datatype Point = Point(x: int, y: int)

  /** An axis-aligned rectangle: top-left corner, width and height. */
  datatype RectangleF = RectangleF(x: real, y: real, width: real, height: real)

  /** A pen or a brush, known only by its name; colours and dash patterns are not modelled. */
  datatype Style = Style(name: string)

  /** One call on the drawing surface. */
  datatype Command =
    | DrawLine(pen: Style, from: PointF, to: PointF)
    | DrawEllipse(pen: Style, bounds: RectangleF)
    | FillEllipse(brush: Style, bounds: RectangleF)
}
