# TriangleVisualizer in Dafny

TriangleVisualizer is a small Windows Forms program. It shows a triangle
that the user can reshape with the mouse: drag a vertex with the left button,
pan the whole triangle with the middle button. Over the triangle it draws
classical constructions, each switched on by a check box. The constructions
are the incircle, circumcircle, excircles, medians, altitudes, Euler line,
angle and side bisectors and the nine-point circle. This project is a
Dafny model of that core. For every proper triangle it proves the facts
that define the main figures:
- the incircle and the excircles touch the three side lines;
- the circumcircle passes through the vertices;
- the medians meet at the centroid;
- the orthocenter lies on all three altitudes and on the Euler line;
- the nine-point circle passes through its nine points.

The side bisectors are modelled as the code writes them, together with the
triangles where that code breaks (see Findings).

Modules, in dependency order:

- `Drawing` (drawing.dfy): the values the program exchanges with the
  graphics toolkit. These are real and integer points, rectangles, pens and
  brushes (by name only), and the drawing commands a visualizer issues in
  place of calling `Graphics`.
- `Helpers` (helpers.dfy): squared distance, distance, dot product, length,
  normalisation, the bounding box of a circle, and the cosine and sine of an
  angle. The platform square root is a parameter `sqrt` constrained by
  `IsSqrt`: it is non-negative and squares back on non-negative input.
- `TrianglePoints` (trianglepoint.dfy): the mutable vertex class with its
  coordinate setters, which report the old and new value. It also has the
  point arithmetic operators, as functions on values.
- `Triangles` (triangle.dfy): the triangle class, its derived fields and their
  recomputation (`Measure`, `WellMeasured`), and barycentric and trilinear
  coordinates. The derived fields are the sides, area, perimeter and the
  "is a triangle" test.
- `Shapes` (shapes.dfy): the hoverable line and its hover test.
- `Visualizers` (visualizers.dfy): the constructions (centroid, circumcenter,
  incenter, excenters, orthocenter, altitude feet, tangent points, Euler line,
  side bisectors, nine-point circle) and the geometric facts about them.
- `Rendering` (render.dfy): the seventeen visualizer kinds and the commands
  each one draws. Lemmas tie each drawn command to its construction: a
  circle's centre and radius, a mark's centre, a line's two ends.
- `Groups` (group.dfy): a named entry (visualizer, caption, active flag) and
  the group that draws its active entries in insertion order.
- `MainForm` (form.dfy): the main window. It covers:
  - the starting triangle;
  - the eight visualizer groups;
  - the check-box header state;
  - mouse picking, dragging and panning;
  - the paint handler, which layers the active constructions under the
    outline, the vertex marks and the selection ring.

Coordinates are real numbers. Drawing is the sequence of commands issued,
and a request to repaint is a boolean result.

## Model

| member | source | states |
|---|---|---|
| Helpers.DistanceSquared | TriangleVisualizer/Helpers.cs:11-16 | the squared distance is non-negative and zero exactly when the two points coincide |
| Helpers.DistanceSquaredSymmetric | TriangleVisualizer/Helpers.cs:11-16 | the squared distance does not depend on the order of the points |
| Helpers.Distance | TriangleVisualizer/Helpers.cs:18-21 | the distance is the non-negative number whose square is the squared distance; it is zero exactly when the points coincide |
| Helpers.DistanceSymmetric | TriangleVisualizer/Helpers.cs:18-21 | the distance is symmetric |
| Helpers.SqrtUnique | TriangleVisualizer/Helpers.cs:18-21 | any non-negative root of x is the value the square root returns |
| Helpers.DotProduct | TriangleVisualizer/Helpers.cs:23-26 | x1·x2 + y1·y2 as the source writes it, with no contract of its own; what it means is stated by DotProductSymmetric, DotSelf (a vector's dot square is its squared length), LagrangeIdentity and CauchySchwarz |
| Helpers.DotProductSymmetric | TriangleVisualizer/Helpers.cs:23-26 | the dot product is symmetric |
| Helpers.LagrangeIdentity | TriangleVisualizer/Helpers.cs:23-26 | (u·u)(w·w) = (u·w)² + (u×w)² |
| Helpers.CauchySchwarz | TriangleVisualizer/Helpers.cs:23-26 | (u·w)² ≤ (u·u)(w·w) |
| Helpers.Intensity | TriangleVisualizer/Helpers.cs:28-31 | the length of a vector is the non-negative root of its dot square and is zero only for the zero vector |
| Helpers.DotSelf | TriangleVisualizer/Helpers.cs:28-31 | a vector's dot square is its squared distance from the origin |
| Helpers.Normalize | TriangleVisualizer/Helpers.cs:33-37 | a non-zero vector normalises to a unit vector parallel to it and pointing the same way |
| Helpers.EllipseToRectangle | TriangleVisualizer/Helpers.cs:39-42 | the bounding box of a circle is a square of side twice the radius, centred on the circle's centre |
| Helpers.Cosine | TriangleVisualizer/Helpers.cs:44-51 | the cosine times the product of the two arm lengths is the dot product of the arms, and it lies in [-1, 1] |
| Helpers.CosineOfVectors | TriangleVisualizer/Helpers.cs:44-51 | the same for two non-zero vectors |
| Helpers.CosineBound | TriangleVisualizer/Helpers.cs:44-51 | a dot product divided by the two lengths lies in [-1, 1] |
| Helpers.CosineSymmetric | TriangleVisualizer/Helpers.cs:44-51 | the cosine of an angle does not depend on the order of its arms |
| Helpers.Sine | TriangleVisualizer/Helpers.cs:53-57 | the sine lies in [0, 1] and sine² + cosine² = 1 |
| Helpers.SineSymmetric | TriangleVisualizer/Helpers.cs:53-57 | the sine of an angle does not depend on the order of its arms |
| Helpers.SineFacts | TriangleVisualizer/Helpers.cs:53-57 | for a cosine in [-1, 1], the root of 1 - cosine² lies in [0, 1] and squares back |
| TrianglePoints.TrianglePoint.constructor | TriangleVisualizer/TrianglePoint.cs:92-95 | the new point has the given coordinates |
| TrianglePoints.TrianglePoint.Zero | TriangleVisualizer/TrianglePoint.cs:97-102 | the parameterless point is the origin |
| TrianglePoints.TrianglePoint.SetX | TriangleVisualizer/TrianglePoint.cs:50-63 | X takes the new value, Y is kept, and the change notice carries the old and the new X |
| TrianglePoints.TrianglePoint.SetY | TriangleVisualizer/TrianglePoint.cs:67-80 | Y takes the new value, X is kept, and the change notice carries the old and the new Y |
| TrianglePoints.TrianglePoint.ToPointF | TriangleVisualizer/TrianglePoint.cs:132-135 | the conversion keeps both coordinates |
| TrianglePoints.TrianglePoint.FromPointF | TriangleVisualizer/TrianglePoint.cs:137-140 | converting a PointF gives a fresh point with the same coordinates, which converts back to the same PointF |
| TrianglePoints.Add | TriangleVisualizer/TrianglePoint.cs:105-108 | subtracting b from a + b gives back a, coordinate by coordinate |
| TrianglePoints.Subtract | TriangleVisualizer/TrianglePoint.cs:110-113 | subtraction is undone by adding back |
| TrianglePoints.Scale | TriangleVisualizer/TrianglePoint.cs:115-118 | scaling by 1 is the identity and scaling by 0 gives the origin |
| TrianglePoints.ScaleDistributes | TriangleVisualizer/TrianglePoint.cs:105-118 | scaling distributes over addition: k (p + q) = k p + k q |
| TrianglePoints.ScaleComposes | TriangleVisualizer/TrianglePoint.cs:115-118 | scaling by m and then by k is scaling by k m |
| TrianglePoints.ScaleRight | TriangleVisualizer/TrianglePoint.cs:120-123 | scaling from the right equals scaling from the left |
| TrianglePoints.Divide | TriangleVisualizer/TrianglePoint.cs:125-128 | dividing by a non-zero k is undone by scaling by k |
| TrianglePoints.AddThenSubtract | TriangleVisualizer/TrianglePoint.cs:105-113 | (a + b) - b = a |
| TrianglePoints.ScaleThenDivide | TriangleVisualizer/TrianglePoint.cs:120-128 | (p * k) / k = p for k ≠ 0 |
| TrianglePoints.Midpoint | TriangleVisualizer/Visualizers.cs:306-308 | the midpoint (a + b) / 2 is as far from a as b is from it, and twice it is a + b |
| Triangles.AreaOf | TriangleVisualizer/Triangle.cs:250-254 | the area \|D / 2\| is non-negative and zero exactly when the three points are collinear |
| Triangles.AreaSquared | TriangleVisualizer/Triangle.cs:250-254 | (2 · area)² = D² |
| Triangles.Determinant | TriangleVisualizer/Triangle.cs:250-252 | D = Ax(By − Cy) + Bx(Cy − Ay) + Cx(Ay − By) as the source writes it, with no contract of its own; DeterminantIsCross shows it is the cross product of AB and AC, DeterminantSymmetries and DeterminantRotations give its symmetries, and AreaOf takes half its absolute value |
| Triangles.DeterminantIsCross | TriangleVisualizer/Triangle.cs:250-252 | D is the cross product of the edges AB and AC |
| Triangles.DeterminantSymmetries | TriangleVisualizer/Triangle.cs:250-252 | D is unchanged by rotating the vertices or translating them, and changes sign when two vertices are swapped |
| Triangles.DeterminantRotations | TriangleVisualizer/Triangle.cs:250-254 | D and the area are unchanged by rotating the vertex order |
| Triangles.AreaSymmetries | TriangleVisualizer/Triangle.cs:250-254 | the area does not depend on the vertex order and is unchanged by translation |
| Triangles.Measure | TriangleVisualizer/Triangle.cs:239-257 | the recomputation keeps the vertices and yields well-measured fields: each side is the root of the squared distance it spans, area is \|D / 2\|, perimeter is the sum of the sides, and "is a triangle" is area > 0.1 |
| Triangles.MeasureUnique | TriangleVisualizer/Triangle.cs:239-257 | well-measured fields are exactly those the recomputation gives |
| Triangles.CollinearIsNotTriangle | TriangleVisualizer/Triangle.cs:250-256 | collinear vertices give area 0 and do not count as a triangle |
| Triangles.TriangleVerticesDistinct | TriangleVisualizer/Triangle.cs:250-256 | in a triangle the vertices are distinct and all sides are positive |
| Triangles.StrictTriangleInequality | TriangleVisualizer/Triangle.cs:241-256 | in a triangle each side is shorter than the sum of the other two |
| Triangles.HeronFormula | TriangleVisualizer/Triangle.cs:241-255 | 16 · area² = (a + b + c)(b + c - a)(a + c - b)(a + b - c) |
| Triangles.BarycentricToCartesian | TriangleVisualizer/Triangle.cs:210-213 | the weighted sum per coordinate, with no contract of its own; BarycentricIsWeightedSum equates it with the source's operator form x·A + y·B + z·C, BarycentricAffine, BarycentricSpecialWeights and BarycentricTranslate state what it means |
| Triangles.BarycentricIsWeightedSum | TriangleVisualizer/Triangle.cs:210-213 | barycentric (x, y, z) is x·A + y·B + z·C |
| Triangles.BarycentricAffine | TriangleVisualizer/Triangle.cs:210-213 | with weights summing to 1, the point minus A is y·(B - A) + z·(C - A) |
| Triangles.BarycentricSpecialWeights | TriangleVisualizer/Triangle.cs:210-213 | the unit weights give the vertices and equal thirds give the point whose triple is A + B + C |
| Triangles.BarycentricTranslate | TriangleVisualizer/Triangle.cs:210-213 | with weights summing to 1, translating the triangle translates the point |
| Triangles.TrilinearToCartesian | TriangleVisualizer/Triangle.cs:199-208 | the result times the denominator a·x + b·y + c·z is the barycentric combination with weights a·x, b·y, c·z |
| Triangles.TrilinearIsNormalizedBarycentric | TriangleVisualizer/Triangle.cs:199-208 | trilinear (x, y, z) is the barycentric point with weights a·x/d, b·y/d, c·z/d |
| Triangles.TrilinearScaleInvariant | TriangleVisualizer/Triangle.cs:199-208 | multiplying all three trilinears by a non-zero k gives the same point |
| Triangles.TrilinearDistancesToSides | TriangleVisualizer/Triangle.cs:199-208 | the point's distances to the three side lines are r·\|x\|, r·\|y\|, r·\|z\|, where r · d = 2 · area |
| Triangles.Triangle.constructor | TriangleVisualizer/Triangle.cs:186-197 | the triangle holds the three given vertex objects and well-measured derived fields |
| Triangles.Triangle.UpdateAll | TriangleVisualizer/Triangle.cs:239-257 | the vertices stay and the derived fields become those the recomputation gives |
| Triangles.Triangle.SetA | TriangleVisualizer/Triangle.cs:41-71 | vertex A is replaced, B and C are kept, and the fields are recomputed |
| Triangles.Triangle.SetB | TriangleVisualizer/Triangle.cs:76-105 | vertex B is replaced, A and C are kept, and the fields are recomputed |
| Triangles.Triangle.SetC | TriangleVisualizer/Triangle.cs:110-139 | vertex C is replaced, A and B are kept, and the fields are recomputed |
| Triangles.Triangle.SetPointX | TriangleVisualizer/Triangle.cs:57-61 | changing a vertex's X keeps its Y and the vertex objects, and the fields are recomputed through the change notice |
| Triangles.Triangle.SetPointY | TriangleVisualizer/Triangle.cs:63-67 | changing a vertex's Y keeps its X and the vertex objects, and the fields are recomputed |
| Triangles.Triangle.Vertex | TriangleVisualizer/Triangle.cs:215-226 | index 0, 1, 2 read A, B, C, and every other index reads null |
| Triangles.Triangle.SetVertex | TriangleVisualizer/Triangle.cs:227-235 | an index outside 0..2 is an error that changes nothing; otherwise only that vertex is replaced and the fields are recomputed |
| Shapes.IsHoveredAt | TriangleVisualizer/Shapes.cs:44-56 | the source's hover test (2·area / side < 5 and neither end farther than the side); a hovered segment has distinct ends and the point's squared distance to either end is at most the squared length; HoveredIffNearSegment gives the full characterisation |
| Shapes.HoveredIffNearSegment | TriangleVisualizer/Shapes.cs:44-56 | a point hovers a line exactly when the line has distinct ends, the point is within 5 of the line (perpendicular foot distance) and no farther from either end than the line is long |
| Shapes.NearLineIffSmallQuotient | TriangleVisualizer/Shapes.cs:46-54 | 2 · area / side < 5 exactly when the squared distance to the foot of the perpendicular is below 25 |
| Shapes.WithinEndsIffSquares | TriangleVisualizer/Shapes.cs:51-56 | the end-distance test on lengths agrees with the same test on squared lengths |
| Shapes.Line.constructor | TriangleVisualizer/Shapes.cs:31-34 | a new line has the given ends and pens and is not hovered |
| Shapes.Line.Draw | TriangleVisualizer/Shapes.cs:36-42 | the line is drawn between its ends with the hovered pen when hovered and the normal pen otherwise |
| Shapes.Line.UpdateHovered | TriangleVisualizer/Shapes.cs:44-63 | the hover state becomes the hover test's verdict, the result is true exactly when it changed, and ends and pens are kept |
| Visualizers.GetCentroid | TriangleVisualizer/Visualizers.cs:125-128 | three times the centroid is A + B + C |
| Visualizers.MediansThroughCentroid | TriangleVisualizer/Visualizers.cs:109-128 | the centroid lies two thirds of the way along each median from its vertex |
| Visualizers.CircumcenterDenominatorIsArea | TriangleVisualizer/Visualizers.cs:158-166 | the circumcenter's denominator is 16 · area², which is positive for a triangle |
| Visualizers.GetCircumcenter | TriangleVisualizer/Visualizers.cs:158-166 | the circumcenter times its denominator is the barycentric combination with the circumcenter's weights |
| Visualizers.CircumcenterTrilinears | TriangleVisualizer/Visualizers.cs:160-165 | the trilinears a(−a² + b² + c²), b(a² − b² + c²), c(a² + b² − c²) as the source computes them, with no contract of its own; CircumcenterWeights, CircumcenterDenominatorIsArea and CircumcenterEquidistant state what they mean |
| Visualizers.CircumcenterWeights | TriangleVisualizer/Visualizers.cs:160-165 | the circumcenter's barycentric weights are a²(-a² + b² + c²), b²(a² - b² + c²), c²(a² + b² - c²) |
| Visualizers.CircumcenterEquidistant | TriangleVisualizer/Visualizers.cs:158-166 | the circumcenter is equally far from A, B and C |
| Visualizers.Circumradius | TriangleVisualizer/Visualizers.cs:138-141 | the radius is the non-negative distance from the circumcenter to A |
| Visualizers.CircumcircleThroughVertices | TriangleVisualizer/Visualizers.cs:135-143 | the circle of that radius also passes through B and C |
| Visualizers.GetIncenter | TriangleVisualizer/Visualizers.cs:82 | the incenter times the perimeter is a·A + b·B + c·C |
| Visualizers.Inradius | TriangleVisualizer/Visualizers.cs:83-85 | the inradius times the semiperimeter is the area |
| Visualizers.IncircleTouchesSides | TriangleVisualizer/Visualizers.cs:80-88 | for a triangle, the incenter is at distance r from each of the three side lines |
| Visualizers.ExcenterTrilinears | TriangleVisualizer/Visualizers.cs:326-328 | each excenter's trilinears are ±1 |
| Visualizers.ExcenterDenominatorPositive | TriangleVisualizer/Visualizers.cs:326-328 | an excenter's denominator is 2 · (s - opposite side), positive for a triangle |
| Visualizers.GetExcenter | TriangleVisualizer/Visualizers.cs:326-328 | the excenter times its denominator is the barycentric combination with weights ±a, ±b, ±c |
| Visualizers.GapsPositive | TriangleVisualizer/Visualizers.cs:330-337 | for a triangle s - a, s - b and s - c are positive |
| Visualizers.HeronGaps | TriangleVisualizer/Visualizers.cs:330-337 | area² = s(s - a)(s - b)(s - c) |
| Visualizers.Exradius | TriangleVisualizer/Visualizers.cs:335-337 | for a positive semiperimeter s and positive gaps the radius sqrt(s(s − p)(s − q) / (s − opposite)) is positive, and the radius times s − opposite squares to Heron's product s(s − opposite)(s − p)(s − q) |
| Visualizers.ExcircleRadius | TriangleVisualizer/Visualizers.cs:330-337 | the exradius opposite a vertex, from the semiperimeter and the sides the source names, is positive for every triangle; ExcircleRadiusIsAreaOverGap shows it is the area over s − opposite side |
| Visualizers.ExcircleRadiusIsAreaOverGap | TriangleVisualizer/Visualizers.cs:335-337 | the computed exradius times (s - opposite side) is the area |
| Visualizers.ExcircleTouchesSides | TriangleVisualizer/Visualizers.cs:324-341 | an excenter is at distance r_k from each of the three side lines, where r_k · (s - opposite side) = area |
| Visualizers.AngleIdentityAt | TriangleVisualizer/Visualizers.cs:231-240 | cos A - sin B · sin C = -cos B · cos C for any three distinct points |
| Visualizers.CosA | TriangleVisualizer/Visualizers.cs:228-236 | the cosine of the angle at A between the rays to B and to C, with no contract beyond Helpers.Cosine's; its use is stated by OrthocenterTrilinearsClassical |
| Visualizers.CosB | TriangleVisualizer/Visualizers.cs:228-236 | the cosine of the angle at B between the rays to A and to C, with no contract beyond Helpers.Cosine's; its use is stated by OrthocenterTrilinearsClassical |
| Visualizers.CosC | TriangleVisualizer/Visualizers.cs:228-236 | the cosine of the angle at C between the rays to A and to B, with no contract beyond Helpers.Cosine's; its use is stated by OrthocenterTrilinearsClassical |
| Visualizers.OrthocenterTrilinears | TriangleVisualizer/Visualizers.cs:228-240 | cos A − sin B sin C, cos B − sin C sin A, cos C − sin A sin B as the source computes them, with no contract of its own; OrthocenterTrilinearsClassical shows they equal −cos B cos C, −cos C cos A, −cos A cos B, and OrthocenterOnAltitudes that they give the point on all three altitudes |
| Visualizers.OrthocenterTrilinearsClassical | TriangleVisualizer/Visualizers.cs:228-243 | the trilinears the code computes equal the classical -cos B cos C, -cos C cos A, -cos A cos B |
| Visualizers.OrthocenterBarycentrics | TriangleVisualizer/Visualizers.cs:228-243 | the orthocenter's barycentric weights are a, b, c times those classical trilinears |
| Visualizers.GetOrthocenter | TriangleVisualizer/Visualizers.cs:228-243 | the orthocenter times its denominator is the barycentric combination with those weights |
| Visualizers.OrthocenterDenominatorNegative | TriangleVisualizer/Visualizers.cs:228-243 | for every triangle the orthocenter's weight sum is negative, so the code never divides by zero there |
| Visualizers.OrthocenterOnAltitudes | TriangleVisualizer/Visualizers.cs:228-243 | the computed orthocenter lies on the three altitudes: H - A is perpendicular to BC, H - B to AC, H - C to AB |
| Visualizers.EulerRelation | TriangleVisualizer/Visualizers.cs:228-243 | Euler's relation: for every triangle H + 2 O = A + B + C, O the computed circumcenter |
| Visualizers.OrthocenterOnEulerLine | TriangleVisualizer/Visualizers.cs:251-262 | H - G = 2 (G - O), so the orthocenter lies on the line through the centroid and the circumcenter |
| Visualizers.GetAltitudeFoot | TriangleVisualizer/Visualizers.cs:204-214 | the foot lies on the line through the other two vertices and the altitude is perpendicular to that line |
| Visualizers.AltitudeFootIsNearest | TriangleVisualizer/Visualizers.cs:204-214 | no point of that line is nearer to the vertex than the foot |
| Visualizers.AltitudeTimesSide | TriangleVisualizer/Visualizers.cs:204-214 | altitude² · side² = (2 · area)² |
| Visualizers.TangentCircleIntersection | TriangleVisualizer/Visualizers.cs:386-394 | the point lies on the line through from and to, and is as far from the centre as to is (the second point where that line meets the circle) |
| Visualizers.TangentSegmentCentredOnFoot | TriangleVisualizer/Visualizers.cs:386-394 | the drawn chord's midpoint is the foot of the perpendicular from the centre to the line |
| Visualizers.ExcircleTangentSegments | TriangleVisualizer/Visualizers.cs:369-384 | six segments, ending at B, C, A, C, B, A in the code's order |
| Visualizers.SegmentToward | TriangleVisualizer/Visualizers.cs:256-259 | a segment centred on a point, reaching a given length each way, along the direction toward the target and starting on the target's side |
| Visualizers.EulerLine | TriangleVisualizer/Visualizers.cs:251-262 | the Euler line is centred on the centroid, reaches 2000 each way, and lies on the line through the circumcenter |
| Visualizers.SideBisectors | TriangleVisualizer/Visualizers.cs:302-317 | as written: three segments centred on the midpoints of AB, AC, BC, reaching 10 each way, on the line from the midpoint through the circumcenter |
| Visualizers.SideBisectorsPerpendicular | TriangleVisualizer/Visualizers.cs:302-317 | whenever defined, each of those segments is perpendicular to its side |
| Visualizers.RightTriangleBisectorDirectionZero | TriangleVisualizer/Visualizers.cs:310-312 | for A(0, 0), B(4, 0), C(0, 3) the direction the code normalises for side BC is the zero vector |
| Visualizers.RightAngleCircumcenterAtMidpoint | TriangleVisualizer/Visualizers.cs:158-166 | in a triangle with a right angle at C the computed circumcenter is the midpoint of AB |
| Visualizers.StartingTriangleBisectorDirectionZero | TriangleVisualizer/Visualizers.cs:304-312 | for the starting triangle (100, 100), (100, 300), (200, 200), however its sides are measured, the circumcenter is (100, 200), the midpoint of AB, so the code normalises a zero vector |
| Visualizers.PerpendicularBisector | TriangleVisualizer/Visualizers.cs:302-317 | the corrected bisector is centred on the side's midpoint, reaches 10 each way and is perpendicular to the side, for every pair of distinct vertices |
| Visualizers.PerpendicularBisectorAgrees | TriangleVisualizer/Visualizers.cs:310-316 | whenever the code's direction is non-zero, the corrected segment is the code's segment, up to the order of its ends |
| Visualizers.CorrectedSideBisectors | TriangleVisualizer/Visualizers.cs:302-317 | the three corrected bisectors, of AB, AC and BC in that order, each one `PerpendicularBisector` of its side |
| Visualizers.CorrectedSideBisectorsThroughCircumcenter | TriangleVisualizer/Visualizers.cs:302-317 | each corrected bisector lies on the line from its midpoint through the circumcenter |
| Visualizers.NinePointCenter | TriangleVisualizer/Visualizers.cs:403-406 | the nine-point center is halfway between the orthocenter and the circumcenter; for a triangle, twice it plus O is A + B + C |
| Visualizers.NinePointRadius | TriangleVisualizer/Visualizers.cs:407 | the nine-point radius is half the circumradius; for measured sides twice it is the distance from O to each of A, B and C |
| Visualizers.NinePointCircleThroughNinePoints | TriangleVisualizer/Visualizers.cs:401-411 | for every triangle the circle about the nine-point center with the nine-point radius passes through the three side midpoints, the three altitude feet and the midpoints of A, B, C with the orthocenter |
| Visualizers.ExternalBisectorsThroughVertices | TriangleVisualizer/Visualizers.cs:286-292 | the line between two excenters passes through the third vertex |
| Visualizers.AngleBisectorThroughExcenter | TriangleVisualizer/Visualizers.cs:272-274 | the bisector from A through the incenter also passes through the A-excenter |
| Rendering.AltitudeWithOnePen | TriangleVisualizer/Visualizers.cs:172-175 | the single-pen altitude visualizer draws its extensions with that same pen |
| Rendering.Mark | TriangleVisualizer/Visualizers.cs:74 | a point is marked by filling, with the brush, an ellipse centred on the point whose bounds are twice the radius 5 wide |
| Rendering.Circle | TriangleVisualizer/Visualizers.cs:87 | a circle is drawn with the pen, centred on its centre, twice the radius wide |
| Rendering.AltitudeLines | TriangleVisualizer/Visualizers.cs:182-202 | the altitude visualizer draws nine lines, each with the main or the extension pen |
| Rendering.Render | TriangleVisualizer/Visualizers.cs:9-12 | the dispatch of the Visualize call to each kind of visualizer, with no contract of its own; RenderCount and RenderStyle state what each kind issues, and the per-kind Drawn lemmas where it draws |
| Rendering.RenderCount | TriangleVisualizer/Visualizers.cs:77-427 | each kind of visualizer draws its fixed number of commands: 9 altitude lines, 6 tangents, 3 for the three-part figures, 1 otherwise |
| Rendering.RenderStyle | TriangleVisualizer/Visualizers.cs:60-75 | point visualizers only fill radius-5 discs with their brush; line visualizers only stroke with their own pen (or the extension pen) |
| Rendering.IncircleCommands | TriangleVisualizer/Visualizers.cs:80-89 | one circle in the visualizer's pen; where it is drawn is stated by `Rendering.IncircleDrawnTangent` |
| Rendering.IncenterCommands | TriangleVisualizer/Visualizers.cs:95-100 | one mark in the visualizer's brush; where it is drawn is stated by `Rendering.IncenterDrawn` |
| Rendering.MedianCommands | TriangleVisualizer/Visualizers.cs:107-112 | three lines in the visualizer's pen; where they are drawn is stated by `Rendering.MediansDrawnThroughCentroid` |
| Rendering.CentroidCommands | TriangleVisualizer/Visualizers.cs:119-123 | one mark in the visualizer's brush; where it is drawn is stated by `Rendering.CentroidDrawn` |
| Rendering.CircumcircleCommands | TriangleVisualizer/Visualizers.cs:135-143 | one circle in the visualizer's pen; where it is drawn is stated by `Rendering.CircumcircleDrawnThroughVertices` |
| Rendering.CircumcenterCommands | TriangleVisualizer/Visualizers.cs:150-156 | one mark in the visualizer's brush; where it is drawn is stated by `Rendering.CircumcenterDrawn` |
| Rendering.OrthocenterCommands | TriangleVisualizer/Visualizers.cs:221-226 | one mark in the visualizer's brush; where it is drawn is stated by `Rendering.OrthocenterDrawn` |
| Rendering.EulerLineCommands | TriangleVisualizer/Visualizers.cs:251-262 | one line in the visualizer's pen; where it is drawn is stated by `Rendering.EulerLineDrawn` |
| Rendering.AngleBisectorCommands | TriangleVisualizer/Visualizers.cs:270-277 | three lines in the visualizer's pen; where they are drawn is stated by `Rendering.AngleBisectorsDrawnConcurrent` |
| Rendering.ExternalAngleBisectorCommands | TriangleVisualizer/Visualizers.cs:284-293 | three lines in the visualizer's pen; where they are drawn is stated by `Rendering.ExternalBisectorsDrawnThroughVertices` |
| Rendering.SideBisectorCommands | TriangleVisualizer/Visualizers.cs:302-317 | three lines in the visualizer's pen, the code's own segments; where they are drawn is stated by `Rendering.SideBisectorsDrawn` |
| Rendering.ExcircleCommands | TriangleVisualizer/Visualizers.cs:324-344 | three circles in the visualizer's pen; where they are drawn is stated by `Rendering.ExcirclesDrawnTangent` |
| Rendering.ExcircleCenterCommands | TriangleVisualizer/Visualizers.cs:353-362 | three marks in the visualizer's brush; where they are drawn is stated by `Rendering.ExcircleCentersDrawn` |
| Rendering.ExcircleTangentCommands | TriangleVisualizer/Visualizers.cs:369-384 | six lines in the visualizer's pen; where they are drawn is stated by `Rendering.ExcircleTangentsDrawn` |
| Rendering.NinePointCircleCommands | TriangleVisualizer/Visualizers.cs:401-411 | one circle in the visualizer's pen; where it is drawn is stated by `Rendering.NinePointCircleDrawn` |
| Rendering.NinePointCenterCommands | TriangleVisualizer/Visualizers.cs:418-426 | one mark in the visualizer's brush; where it is drawn is stated by `Rendering.NinePointCenterDrawn` |
| Rendering.DrawableWhenTriangle | TriangleVisualizer/Form1.cs:158-160 | once the vertices form a triangle, every visualizer except the Euler line and the side bisectors has all its divisions and normalisations defined, the altitude, orthocenter and nine-point ones included |
| Rendering.IncircleDrawnTangent | TriangleVisualizer/Visualizers.cs:80-89 | the drawn incircle is centred on the incenter, has a positive radius and touches all three side lines |
| Rendering.CircumcircleDrawnThroughVertices | TriangleVisualizer/Visualizers.cs:135-143 | the drawn circumcircle is centred on the circumcenter and passes through A, B and C |
| Rendering.ExcircleDrawnTangent | TriangleVisualizer/Visualizers.cs:335-341 | for a triangle, each drawn excircle touches all three side lines |
| Rendering.ExcirclesDrawnTangent | TriangleVisualizer/Visualizers.cs:324-344 | the three drawn excircles are centred on the A, B and C excenters and each touches all three side lines |
| Rendering.MediansDrawnThroughCentroid | TriangleVisualizer/Visualizers.cs:107-112 | each drawn median passes through the centroid, two thirds of the way from its vertex |
| Rendering.AngleBisectorsDrawnConcurrent | TriangleVisualizer/Visualizers.cs:270-277 | the three drawn bisectors start at A, B, C and meet at the incenter; the one from A points at the A-excenter |
| Rendering.ExternalBisectorsDrawnThroughVertices | TriangleVisualizer/Visualizers.cs:284-293 | each drawn external bisector, from one excenter to the next, passes through the vertex between those two excenters |
| Rendering.AltitudesDrawnPerpendicular | TriangleVisualizer/Visualizers.cs:182-202 | the first three lines start at A, B, C and are perpendicular to the opposite sides; the next three extend the opposite sides to the feet with the extension pen; the last three join each foot to the orthocenter, in line with the vertex |
| Rendering.IncenterDrawn | TriangleVisualizer/Visualizers.cs:95-100 | for a triangle the incenter is marked at the point whose distance to each side line is the inradius |
| Rendering.CentroidDrawn | TriangleVisualizer/Visualizers.cs:119-123 | the centroid is marked two thirds of the way along each median from its vertex |
| Rendering.CircumcenterDrawn | TriangleVisualizer/Visualizers.cs:150-156 | for a triangle the circumcenter is marked at a point equidistant from A, B and C |
| Rendering.OrthocenterDrawn | TriangleVisualizer/Visualizers.cs:221-226 | for every triangle the orthocenter is marked on all three altitudes and on the Euler line, with H - G = 2 (G - O) |
| Rendering.EulerLineDrawn | TriangleVisualizer/Visualizers.cs:251-262 | the drawn Euler line is centred on the centroid, reaches 2000 each way and passes through the circumcenter and the orthocenter |
| Rendering.SideBisectorsDrawn | TriangleVisualizer/Visualizers.cs:302-317 | wherever the code's directions are non-zero, each drawn side bisector is centred on its side's midpoint, reaches 10 each way, is perpendicular to the side and in line with the circumcenter |
| Rendering.ExcircleCentersDrawn | TriangleVisualizer/Visualizers.cs:353-362 | for a triangle the three excenters are marked, each at distance its exradius from all three side lines |
| Rendering.ExcenterTouches | TriangleVisualizer/Visualizers.cs:324-341 | the excenter opposite a vertex is at distance the computed exradius from all three side lines |
| Rendering.ExcircleTangentsDrawn | TriangleVisualizer/Visualizers.cs:369-394 | the six drawn tangent segments are the code's; each ends at a vertex and is centred on the point where its excircle's centre projects onto that side's line |
| Rendering.NinePointCircleDrawn | TriangleVisualizer/Visualizers.cs:401-411 | for every triangle the drawn nine-point circle has the nine-point center and radius and passes through the nine points |
| Rendering.NinePointCenterDrawn | TriangleVisualizer/Visualizers.cs:418-426 | for every triangle the nine-point center is marked halfway between the orthocenter and the circumcenter, at (A + B + C - O) / 2 |
| Groups.VisualizerData.constructor | TriangleVisualizer/Visualizers.cs:33-38 | a new entry has the given caption and visualizer and is inactive |
| Groups.VisualizerData.SetActive | TriangleVisualizer/Visualizers.cs:17 | the active flag takes the new value; caption and visualizer are kept |
| Groups.ActiveVisualizers | TriangleVisualizer/Visualizers.cs:41-46 | there are never more active visualizers than entries |
| Groups.ActiveVisualizersFromActiveEntries | TriangleVisualizer/Visualizers.cs:43-45 | every visualizer drawn comes from an entry whose flag is set |
| Groups.ActiveEntryDrawn | TriangleVisualizer/Visualizers.cs:43-45 | every active entry's visualizer is drawn, at the position given by the number of active entries before it |
| Groups.NoneActiveNothing | TriangleVisualizer/Visualizers.cs:43-45 | a group with no active entry draws nothing |
| Groups.ActiveVisualizersPrefix | TriangleVisualizer/Visualizers.cs:43-45 | the active visualizers of the first k entries are a prefix of the group's, so insertion order is kept |
| Groups.RenderAll | TriangleVisualizer/Visualizers.cs:43-45 | the visualizers' commands one after the other, as many as the sum of their kinds' fixed counts; RenderAllAppend and VisualizerGroup.Visualize relate it to the drawing loop |
| Groups.RenderAllAppend | TriangleVisualizer/Visualizers.cs:43-45 | drawing two lists of visualizers one after the other draws the concatenation |
| Groups.VisualizerGroup.constructor | TriangleVisualizer/Visualizers.cs:27-30 | a new group has the given name and no entries |
| Groups.VisualizerGroup.Add | TriangleVisualizer/Visualizers.cs:31-39 | one new inactive entry with the given caption and visualizer is appended; earlier entries, the name and the active list are kept |
| Groups.VisualizerGroup.Visualize | TriangleVisualizer/Visualizers.cs:41-46 | the group draws exactly the commands of its active entries, in insertion order |
| Groups.VisualizerGroup.Enumerate | TriangleVisualizer/Visualizers.cs:48-52 | enumeration yields the entries in insertion order |
| Groups.ActiveOfGroupsNone | TriangleVisualizer/Form1.cs:159-160 | when no group has an active entry, nothing is drawn |
| Groups.GroupStep | TriangleVisualizer/Form1.cs:159-160 | drawing the first k + 1 groups is drawing the first k followed by group k |
| MainForm.NewGroup | TriangleVisualizer/Form1.cs:49-52 | a fresh group has the given caption and exactly the listed entries, none active |
| MainForm.AddGroup | TriangleVisualizer/Form1.cs:47-90 | appending the next catalogue group keeps the earlier groups and the match with the catalogue |
| MainForm.SetUpNothingActive | TriangleVisualizer/Form1.cs:47-90 | groups that match the catalogue draw nothing |
| MainForm.SetUpVisualizers | TriangleVisualizer/Form1.cs:47-90 | eight groups are built with the code's captions, entries, pens and brushes, in the code's order, and nothing is active |
| MainForm.CheckedCountZero | TriangleVisualizer/Form1.cs:144-145 | the count of ticked boxes is zero exactly when no check box is ticked |
| MainForm.CheckedCountAll | TriangleVisualizer/Form1.cs:146-147 | the ticked count never exceeds the box count, and equals it exactly when every box is ticked |
| MainForm.DetermineHeaderState | TriangleVisualizer/Form1.cs:124-150 | without a header box nothing is set; otherwise the header is Unchecked when no box is ticked, Checked when all are, and Indeterminate otherwise |
| MainForm.CheckBoxes | TriangleVisualizer/Form1.cs:107-116 | one check box per entry, in order, ticked exactly when the entry is active |
| MainForm.ActiveVisualizersEmpty | TriangleVisualizer/Visualizers.cs:43-45 | a group draws nothing exactly when no entry is active |
| MainForm.HeaderClearIffNothingDrawn | TriangleVisualizer/Form1.cs:110-115 | a group's header is Unchecked exactly when the group draws nothing |
| MainForm.HeaderTickedIffAllDrawn | TriangleVisualizer/Form1.cs:110-115 | a group's header is Checked exactly when it has entries and all of them are active |
| MainForm.LastHit | TriangleVisualizer/Form1.cs:203-206 | a pick among the first n vertices is one of them and within the tolerance of the click; LastHitMeaning adds that it is the last such vertex and that there is none only when no vertex is near |
| MainForm.LastHitMeaning | TriangleVisualizer/Form1.cs:203-206 | the pick is the last vertex, in index order, within the tolerance of the click; there is no pick exactly when no vertex is within it |
| MainForm.PickUnambiguous | TriangleVisualizer/Form1.cs:203-206 | when the vertices are at least twice the tolerance apart, no click is near two of them |
| MainForm.TranslationKeepsShape | TriangleVisualizer/Form1.cs:238-243 | translating all three vertices keeps the sides, area, perimeter and triangle test |
| MainForm.OutlineSide | TriangleVisualizer/Form1.cs:162-163 | outline line i joins vertex i to vertex (i + 1) mod 3 with the red pen |
| MainForm.VertexMarks | TriangleVisualizer/Form1.cs:165-168 | three blue discs of radius 5, centred on the vertices in order |
| MainForm.SelectionRing | TriangleVisualizer/Form1.cs:170-171 | with no selection nothing is drawn; otherwise one green circle of radius 10 centred on the selected point |
| MainForm.VisualizeGroups | TriangleVisualizer/Form1.cs:159-160 | the loop over the groups draws the active visualizers of all groups in order |
| MainForm.TriangleOnTop | TriangleVisualizer/Form1.cs:162-171 | after whatever was drawn come the three outline lines, then the three marks, then the ring if there is a selection |
| MainForm.Scene | TriangleVisualizer/Form1.cs:152-171 | a frame holds the constructions' commands (their fixed counts' sum, none when not a triangle) and then ends with the triangle layer; SceneLayers splits that layer into outline, marks and ring |
| MainForm.SceneLayers | TriangleVisualizer/Form1.cs:152-171 | a frame is the constructions' commands (none when not a triangle) followed by the outline, the marks and the ring |
| MainForm.StartingMeasure | TriangleVisualizer/Form1.cs:36 | the starting triangle (100, 100), (100, 300), (200, 200) has area 10000 and is a triangle |
| MainForm.StartingTriangle | TriangleVisualizer/Form1.cs:36 | the starting triangle has three distinct fresh vertices at those points and well-measured fields |
| MainForm.Form1.constructor | TriangleVisualizer/Form1.cs:16-45 | after loading, no button is down, nothing is selected, the start point is (0, 0), the triangle is the starting one and the groups match the catalogue |
| MainForm.Form1.MouseDown | TriangleVisualizer/Form1.cs:189-213 | the middle button starts a pan at the click; any other button sets the left flag and selects the last vertex within the tolerance (or nothing), asking for a repaint exactly when something was or is selected |
| MainForm.Form1.MouseUp | TriangleVisualizer/Form1.cs:215-222 | releasing a button clears only its own flag |
| MainForm.Form1.MoveSelectedTo | TriangleVisualizer/Form1.cs:226-230 | the selected vertex moves to the cursor, the others stay, and the fields are recomputed |
| MainForm.Form1.Shift | TriangleVisualizer/Form1.cs:238-243 | all three vertices move by (-dx, -dy) and the sides, area, perimeter and triangle test are unchanged |
| MainForm.Form1.MouseMove | TriangleVisualizer/Form1.cs:224-247 | dragging moves the selected vertex to the cursor; otherwise panning translates the triangle by the cursor's movement since the last event, keeping its shape; with neither, nothing changes and no repaint is asked |
| MainForm.Form1.CheckBoxChanged | TriangleVisualizer/Form1.cs:110-115 | ticking or clearing an entry's box sets that entry's flag, keeps its caption and visualizer, recomputes its group's header state from the boxes and asks for a repaint |
| MainForm.Form1.Paint | TriangleVisualizer/Form1.cs:152-171 | a frame draws, when the vertices form a triangle, the active visualizers of all groups in order, then the outline, the vertex marks and the selection ring (layering stated by SceneLayers) |
| MainForm.Form1.DrawTriangle | TriangleVisualizer/Form1.cs:162-171 | the outline, marks and ring are drawn in that order for the current vertices and selection |

## Left out

- Vertex labels (Form1.cs:173-183): text drawing with fonts is not modelled.
- The angles Alpha, Beta and Gamma (Triangle.cs:246-248): arc cosine is not modelled and nothing in the core reads them.
- Floating point: coordinates and lengths are real numbers. Rounding, NaN and infinities are not modelled. Where the code divides by a length or weight sum that can be zero, the model requires it to be non-zero. The one exception is `Shapes.Line.UpdateHovered`: a zero-length line gives an infinite or NaN distance there, which is modelled as "not hovered".
- `Math.Sqrt` is the parameter `sqrt`. Only its defining property (non-negative, squares back) is assumed of it.
- The event plumbing (`ValueChangedEventArgs`, the `...CoordinatesChanged` events and handler lists) is modelled as direct calls. A coordinate setter on a vertex recomputes the derived fields (`SetPointX`, `SetPointY`). Handlers left on a replaced vertex object only trigger a recomputation from the current vertices, which changes nothing, so they are not modelled.
- The C setter reports `_a` instead of `_c` as the new value (Triangle.cs:137). The only handler ignores the event arguments, so this has no effect on the model.
- Windows Forms: the designer file, the accordion and its panels, check-box layout (`Visible`, `collapsible`), the split container, smoothing mode and clearing the canvas are not modelled. `Invalidate` is the boolean `repaint` result.
- `MainForm.DetermineHeaderState` receives the controls and whether the header box exists as parameters, instead of finding them by index in the accordion.
- Pens and brushes are known by name only. Colour, width and dash pattern are part of the name text.
- `MainForm.Form1.Paint`: requires that, for a triangle, every active visualizer's divisions and normalisations are defined. `Rendering.DrawableWhenTriangle` proves this for every kind except the Euler line and the side bisectors, which normalise a direction toward the circumcenter. That direction is zero for an equilateral triangle (Euler line) and for every right triangle (side bisectors, see Findings). The orthocenter's weight sum is negative for every triangle (`Visualizers.OrthocenterDenominatorNegative`), so the altitude, orthocenter and nine-point visualizers are always defined.
- `MainForm.Form1.constructor`: does not state that nothing is active directly. It states that every group matches the catalogue, and `MainForm.SetUpNothingActive` gives "nothing is drawn" from that.
- `MainForm.Form1.Shift` and `MainForm.Form1.MouseMove`: the window's three vertex objects are distinct (the form never replaces them). The code would move a shared vertex object twice, and the model does not cover that case.
- The `Scale` property of the side-bisector visualizer (15) is never read by the code, and the unused radius in the circumcenter visualizer (Visualizers.cs:153) has no effect. Neither is modelled.
- The caption "Kruznica" appears twice in the nine-point group (Form1.cs:86-87), as in the code.
- `splitContainer1_MouseUp` (Form1.cs:249-252) only clears the focused control and is not modelled.

## Findings

| source | as written | input that shows it | evidently intended | confidence | as-written member | corrected member |
|---|---|---|---|---|---|---|
| TriangleVisualizer/Visualizers.cs:310-316 | each side bisector is drawn along the normalised vector from the side's midpoint to the circumcenter | the starting triangle A(100, 100), B(100, 300), C(200, 200) has a right angle at C, so its circumcenter (100, 200) is the midpoint of AB and that vector is zero; normalising it divides by zero (the same holds for every right triangle, e.g. A(0, 0), B(4, 0), C(0, 3)) | the perpendicular bisector of each side, 10 each way from the midpoint, which exists for any two distinct vertices and agrees with the code whenever the code's direction is non-zero | not executed | Visualizers.StartingTriangleBisectorDirectionZero | Visualizers.PerpendicularBisectorAgrees |
