// The main window: the visualizer groups it sets up when it loads, the
// check state of a group's header, selecting and dragging a vertex with the
// mouse, panning the whole triangle with the middle button, and the list of
// drawing commands one repaint issues.

module MainForm {
  import opened Drawing
  import opened Helpers
  import opened TrianglePoints
  import opened Triangles
  import opened Rendering
  import opened Groups
  import opened Visualizers

  datatype Option<T> = None | Some(value: T)

  datatype MouseButton = Left | Middle | Right

  datatype CheckState = Unchecked | Checked | Indeterminate

  /** A control inside a group's panel: a check box with its state, or anything else. */
  datatype Control = CheckBox(checked: bool) | OtherControl

  /** How far (in pixels) a click may be from a vertex and still pick it. */
  const SelectTolerance: real := 5.0

  const TrianglePen := Style("Red, width 2")
  const VertexBrush := Style("Blue")
  const SelectionPen := Style("Green")
  const VertexMarkRadius: real := 5.0
  const SelectionRingRadius: real := 10.0

  // ---------------------------------------------------------------------
  // The groups offered when the window loads
  // ---------------------------------------------------------------------

  /** A group as it is set up: its caption, then each entry's caption and visualizer. */
  type GroupSpec = (string, seq<(string, Visualizer)>)

  /** The eight groups, in the order the side panel lists them. */
  const Catalogue: seq<GroupSpec> := [
    ("Upisana kruznica", [("Kruznica", IncircleVisualizer(Style("Orange"))),
                          ("Centar", IncenterVisualizer(Style("Orange")))]),
    ("Ojelrova prava", [("Prava", EulerLineVisualizer(Style("Purple")))]),
    ("Teziste i medijane", [("Medijane", MediansVisualizer(Style("Brown"))),
                            ("Teziste", CentroidVisualizer(Style("Brown")))]),
    ("Opisana kruznica", [("Kruznica", CircumcircleVisualizer(Style("Green"))),
                          ("Centar", CircumcenterVisualizer(Style("Green")))]),
    ("Visine i ortocentar", [("Visine", AltitudeVisualizer(Style("Black"), Style("Black, dashed 10 5"))),
                             ("Ortocentar", OrthocenterVisualizer(Style("Black")))]),
    ("Simetrale", [("Unutrasnjih uglova", AngleBisectorVisualizer(Style("Orange, dashed 10 5"))),
                   ("Stranica", SideBisectorVisualizer(Style("Green, dashed 10 5"))),
                   ("Spoljasnjih uglova", ExternalAngleBisectorVisualizer(Style("DarkBlue, dashed 10 5")))]),
    ("Pripisane kruznice", [("Kruznice", ExcirclesVisualizer(Style("DarkBlue"))),
                            ("Centri", ExcircleCentersVisualizer(Style("DarkBlue"))),
                            ("Tangente", ExcircleTangentVisualizer(Style("DarkRed, dashed 10 5")))]),
    ("Ojelrova kruznica", [("Kruznica", NinePointCircleVisualizer(Style("DarkMagenta"))),
                           ("Kruznica", NinePointCenterVisualizer(Style("DarkMagenta")))])
  ]

  /** `g` holds exactly the entries `spec` lists, none of them switched on yet. */
  ghost predicate GroupMatches(g: VisualizerGroup, spec: GroupSpec)
    reads g, g.entries
  {
    && g.name == spec.0
    && |g.entries| == |spec.1|
    && forall i :: 0 <= i < |g.entries| ==>
         g.entries[i].name == spec.1[i].0 && g.entries[i].visualizer == spec.1[i].1 && !g.entries[i].active
  }

  /** A new group filled with the entries of `spec`, one `Add` per entry. */
  method NewGroup(spec: GroupSpec) returns (g: VisualizerGroup)
    ensures fresh(g) && GroupMatches(g, spec)
    ensures ActiveVisualizers(g.entries) == []
  {
    g := new VisualizerGroup(spec.0);
    for i := 0 to |spec.1|
      invariant fresh(g) && g.name == spec.0 && |g.entries| == i
      invariant forall j :: 0 <= j < i ==>
        g.entries[j].name == spec.1[j].0 && g.entries[j].visualizer == spec.1[j].1 && !g.entries[j].active
    {
      g.Add(spec.1[i].0, spec.1[i].1);
    }
    NoneActiveNothing(g.entries);
  }

  /** The first `|gs|` groups of the catalogue are set up, with none of their entries on. */
  ghost predicate SetUpSoFar(gs: seq<VisualizerGroup>)
    reads gs, set i, j | 0 <= i < |gs| && 0 <= j < |gs[i].entries| :: gs[i].entries[j]
  {
    && |gs| <= |Catalogue|
    && forall k :: 0 <= k < |gs| ==> GroupMatches(gs[k], Catalogue[k])
  }

  /** Sets up the next group of the catalogue and appends it to the list of groups. */
  method AddGroup(gs: seq<VisualizerGroup>) returns (gs': seq<VisualizerGroup>)
    requires SetUpSoFar(gs) && |gs| < |Catalogue|
    ensures SetUpSoFar(gs') && |gs'| == |gs| + 1 && gs'[..|gs|] == gs
  {
    var g := NewGroup(Catalogue[|gs|]);
    assert forall k :: 0 <= k < |gs| ==> GroupMatches(gs[k], Catalogue[k]);
    gs' := gs + [g];
    assert gs'[..|gs|] == gs;
  }

  /** Groups set up from the catalogue draw nothing until an entry is switched on. */
  lemma SetUpNothingActive(gs: seq<VisualizerGroup>)
    requires SetUpSoFar(gs)
    ensures ActiveOfGroups(gs) == []
  {
    forall k | 0 <= k < |gs|
      ensures ActiveVisualizers(gs[k].entries) == []
    {
      NoneActiveNothing(gs[k].entries);
    }
    ActiveOfGroupsNone(gs);
  }

  /** The eight groups of the side panel, each holding its entries with nothing switched on. */
  method SetUpVisualizers() returns (gs: seq<VisualizerGroup>)
    ensures |gs| == |Catalogue|
    ensures forall k :: 0 <= k < |gs| ==> GroupMatches(gs[k], Catalogue[k])
    ensures ActiveOfGroups(gs) == []
  {
    gs := [];
    gs := AddGroup(gs);  // the incircle
    gs := AddGroup(gs);  // the Euler line
    gs := AddGroup(gs);  // the centroid and the medians
    gs := AddGroup(gs);  // the circumcircle
    gs := AddGroup(gs);  // the altitudes and the orthocenter
    gs := AddGroup(gs);  // the bisectors
    gs := AddGroup(gs);  // the excircles
    gs := AddGroup(gs);  // the nine-point circle
    SetUpNothingActive(gs);
  }

  // ---------------------------------------------------------------------
  // The check state of a group's header
  // ---------------------------------------------------------------------

  /** The number of check boxes among the controls. */
  function CheckBoxCount(cs: seq<Control>): nat
  {
    if |cs| == 0 then 0
    else CheckBoxCount(cs[..|cs| - 1]) + (if cs[|cs| - 1].CheckBox? then 1 else 0)
  }

  /** The number of ticked check boxes among the controls. */
  function CheckedCount(cs: seq<Control>): nat
  {
    if |cs| == 0 then 0
    else CheckedCount(cs[..|cs| - 1]) + (if cs[|cs| - 1] == CheckBox(true) then 1 else 0)
  }

  predicate NoneChecked(cs: seq<Control>)
  {
    forall i :: 0 <= i < |cs| ==> cs[i] != CheckBox(true)
  }

  predicate AllChecked(cs: seq<Control>)
  {
    forall i :: 0 <= i < |cs| ==> cs[i] != CheckBox(false)
  }

  /** The header is clear when no box is ticked, ticked when every box is, and in between otherwise. */
  function HeaderState(cs: seq<Control>): CheckState
  {
    if NoneChecked(cs) then Unchecked
    else if AllChecked(cs) then Checked
    else Indeterminate
  }

  /** No ticked box is counted exactly when none is ticked. */
  lemma {:induction false} CheckedCountZero(cs: seq<Control>)
    ensures CheckedCount(cs) == 0 <==> NoneChecked(cs)
  {
    if |cs| > 0 {
      var init := cs[..|cs| - 1];
      CheckedCountZero(init);
      assert forall i :: 0 <= i < |init| ==> init[i] == cs[i];
    }
  }

  /** The ticked boxes are all the boxes exactly when no box is clear. */
  lemma {:induction false} CheckedCountAll(cs: seq<Control>)
    ensures CheckedCount(cs) <= CheckBoxCount(cs)
    ensures CheckedCount(cs) == CheckBoxCount(cs) <==> AllChecked(cs)
  {
    if |cs| > 0 {
      var init := cs[..|cs| - 1];
      CheckedCountAll(init);
      assert forall i :: 0 <= i < |init| ==> init[i] == cs[i];
    }
  }

  /**
   * Counts the check boxes of a group's panel and the ticked ones, then sets
   * the header accordingly; without a header box nothing is set.
   */
  method DetermineHeaderState(hasHeaderBox: bool, controls: seq<Control>) returns (state: Option<CheckState>)
    ensures !hasHeaderBox ==> state == None
    ensures hasHeaderBox ==> state == Some(HeaderState(controls))
  {
    if !hasHeaderBox {
      return None;
    }
    var total, checkedOnes := 0, 0;
    for i := 0 to |controls|
      invariant total == CheckBoxCount(controls[..i])
      invariant checkedOnes == CheckedCount(controls[..i])
    {
      assert controls[..i + 1][..i] == controls[..i];
      match controls[i]
      case CheckBox(checked) =>
        total := total + 1;
        if checked {
          checkedOnes := checkedOnes + 1;
        }
      case OtherControl =>
    }
    assert controls[..|controls|] == controls;
    CheckedCountZero(controls);
    CheckedCountAll(controls);
    if checkedOnes == 0 {
      state := Some(Unchecked);
    } else if total == checkedOnes {
      state := Some(Checked);
    } else {
      state := Some(Indeterminate);
    }
  }

  /** The check boxes of a group's panel, one per entry, ticked when the entry is active. */
  function CheckBoxes(es: seq<VisualizerData>): (cs: seq<Control>)
    reads es
    ensures |cs| == |es|
    ensures forall i :: 0 <= i < |es| ==> cs[i] == CheckBox(es[i].active)
  {
    if |es| == 0 then []
    else CheckBoxes(es[..|es| - 1]) + [CheckBox(es[|es| - 1].active)]
  }

  /** A group draws something exactly when one of its entries is active. */
  lemma {:induction false} ActiveVisualizersEmpty(es: seq<VisualizerData>)
    ensures ActiveVisualizers(es) == [] <==> forall i :: 0 <= i < |es| ==> !es[i].active
  {
    if |es| > 0 {
      var init := es[..|es| - 1];
      ActiveVisualizersEmpty(init);
      assert forall i :: 0 <= i < |init| ==> init[i] == es[i];
    }
  }

  /** A group's header is clear exactly when the group draws nothing. */
  lemma HeaderClearIffNothingDrawn(es: seq<VisualizerData>)
    ensures HeaderState(CheckBoxes(es)) == Unchecked <==> ActiveVisualizers(es) == []
  {
    ActiveVisualizersEmpty(es);
  }

  /** A group's header is ticked exactly when the group has entries and draws all of them. */
  lemma HeaderTickedIffAllDrawn(es: seq<VisualizerData>)
    ensures HeaderState(CheckBoxes(es)) == Checked <==>
      (|es| > 0 && forall i :: 0 <= i < |es| ==> es[i].active)
  {
    ActiveVisualizersEmpty(es);
    var cs := CheckBoxes(es);
    if |es| > 0 && forall i :: 0 <= i < |es| ==> es[i].active {
      assert cs[0] == CheckBox(true);
    }
  }

  // ---------------------------------------------------------------------
  // Picking a vertex
  // ---------------------------------------------------------------------

  /** The vertex at an indexer position: 0, 1 and 2 are A, B and C. */
  function VertexAt(v: TriangleView, i: int): PointF
    requires 0 <= i < 3
  {
    if i == 0 then v.a else if i == 1 then v.b else v.c
  }

  /** A click at `p` is close enough to `q` to pick it. */
  predicate Near(q: PointF, p: PointF)
  {
    DistanceSquared(q, p) < SelectTolerance * SelectTolerance
  }

  /** The last of the first `n` vertices close enough to `p`, if any. */
  function LastHit(v: TriangleView, p: PointF, n: int): (r: Option<int>)
    requires 0 <= n <= 3
    ensures r.Some? ==> 0 <= r.value < n && Near(VertexAt(v, r.value), p)
  {
    if n == 0 then None
    else if Near(VertexAt(v, n - 1), p) then Some(n - 1)
    else LastHit(v, p, n - 1)
  }

  /** The pick is a near vertex with no near vertex after it, and there is none only when no vertex is near. */
  lemma {:induction false} LastHitMeaning(v: TriangleView, p: PointF, n: int)
    requires 0 <= n <= 3
    ensures LastHit(v, p, n).Some? ==>
      && 0 <= LastHit(v, p, n).value < n
      && Near(VertexAt(v, LastHit(v, p, n).value), p)
      && forall j :: LastHit(v, p, n).value < j < n ==> !Near(VertexAt(v, j), p)
    ensures LastHit(v, p, n).None? <==> forall j :: 0 <= j < n ==> !Near(VertexAt(v, j), p)
  {
    if n > 0 {
      LastHitMeaning(v, p, n - 1);
    }
  }

  /** The parallelogram law for the differences of two vectors (ux, uy) and (wx, wy). */
  lemma Parallelogram(ux: real, uy: real, wx: real, wy: real)
    ensures (ux - wx) * (ux - wx) + (uy - wy) * (uy - wy)
      <= 2.0 * (ux * ux + uy * uy) + 2.0 * (wx * wx + wy * wy)
  {
    SquareFacts(ux + wx);
    SquareFacts(uy + wy);
  }

  /** Two vertices a click picks both of lie within twice the tolerance of each other. */
  lemma NearBothClose(q1: PointF, q2: PointF, p: PointF)
    requires Near(q1, p) && Near(q2, p)
    ensures DistanceSquared(q1, q2) < 4.0 * SelectTolerance * SelectTolerance
  {
    var ux, uy, wx, wy := q1.x - p.x, q1.y - p.y, q2.x - p.x, q2.y - p.y;
    assert DistanceSquared(q1, p) == ux * ux + uy * uy;
    assert DistanceSquared(q2, p) == wx * wx + wy * wy;
    assert DistanceSquared(q1, q2) == (ux - wx) * (ux - wx) + (uy - wy) * (uy - wy);
    Parallelogram(ux, uy, wx, wy);
  }

  /** When the vertices are at least twice the tolerance apart, a click is near at most one of them. */
  lemma PickUnambiguous(v: TriangleView, p: PointF, i: int, j: int)
    requires 0 <= i < 3 && 0 <= j < 3 && i != j
    requires forall k, l :: 0 <= k < l < 3 ==>
      DistanceSquared(VertexAt(v, k), VertexAt(v, l)) >= 4.0 * SelectTolerance * SelectTolerance
    ensures !(Near(VertexAt(v, i), p) && Near(VertexAt(v, j), p))
  {
    var qi, qj := VertexAt(v, i), VertexAt(v, j);
    DistanceSquaredSymmetric(qi, qj);
    if i < j {
      assert DistanceSquared(qi, qj) >= 4.0 * SelectTolerance * SelectTolerance;
    } else {
      assert DistanceSquared(qj, qi) >= 4.0 * SelectTolerance * SelectTolerance;
    }
    if Near(qi, p) && Near(qj, p) {
      NearBothClose(qi, qj, p);
    }
  }

  // ---------------------------------------------------------------------
  // Panning
  // ---------------------------------------------------------------------

  /** Moving all three vertices by the same offset changes no side, the area, the perimeter or the triangle test. */
  lemma TranslationKeepsShape(sqrt: real -> real, a: PointF, b: PointF, c: PointF, d: PointF)
    requires IsSqrt(sqrt)
    ensures
      var before := Measure(sqrt, a, b, c);
      var after := Measure(sqrt, Add(a, d), Add(b, d), Add(c, d));
      && after.sideA == before.sideA && after.sideB == before.sideB && after.sideC == before.sideC
      && after.area == before.area && after.perimeter == before.perimeter
      && after.isTriangle == before.isTriangle
  {
    var a', b', c' := Add(a, d), Add(b, d), Add(c, d);
    assert DistanceSquared(b', c') == DistanceSquared(b, c);
    assert DistanceSquared(a', c') == DistanceSquared(a, c);
    assert DistanceSquared(a', b') == DistanceSquared(a, b);
    assert Determinant(a', b', c') == Determinant(a, b, c) + d.x * ((b.y - c.y) + (c.y - a.y) + (a.y - b.y));
  }

  // ---------------------------------------------------------------------
  // What one repaint draws
  // ---------------------------------------------------------------------

  /** The red outline: A to B, B to C, and C back to A to close the triangle. */
  function Outline(v: TriangleView): seq<Command>
  {
    [DrawLine(TrianglePen, v.a, v.b), DrawLine(TrianglePen, v.b, v.c), DrawLine(TrianglePen, v.c, v.a)]
  }

  /** Side i of the outline runs from vertex i to vertex i + 1, wrapping round after C. */
  lemma OutlineSide(v: TriangleView, i: int)
    requires 0 <= i < 3
    ensures Outline(v)[i] == DrawLine(TrianglePen, VertexAt(v, i), VertexAt(v, (i + 1) % 3))
  {
  }

  /** A blue dot on each vertex. */
  function VertexMarks(v: TriangleView): (cs: seq<Command>)
    ensures |cs| == 3 && MarksWith(VertexBrush, cs)
    ensures forall i :: 0 <= i < 3 ==>
      BoundsCenter(cs[i].bounds) == VertexAt(v, i) && cs[i].bounds.width == 2.0 * VertexMarkRadius
  {
    BoundsCentredOn(EllipseToRectangle(v.a, VertexMarkRadius), v.a);
    BoundsCentredOn(EllipseToRectangle(v.b, VertexMarkRadius), v.b);
    BoundsCentredOn(EllipseToRectangle(v.c, VertexMarkRadius), v.c);
    [FillEllipse(VertexBrush, EllipseToRectangle(v.a, VertexMarkRadius)),
     FillEllipse(VertexBrush, EllipseToRectangle(v.b, VertexMarkRadius)),
     FillEllipse(VertexBrush, EllipseToRectangle(v.c, VertexMarkRadius))]
  }

  /** A green ring round the selected vertex, if there is one. */
  function SelectionRing(selection: Option<PointF>): (cs: seq<Command>)
    ensures selection.None? ==> cs == []
    ensures selection.Some? ==>
      && |cs| == 1 && cs[0].DrawEllipse? && cs[0].pen == SelectionPen
      && BoundsCenter(cs[0].bounds) == selection.value && cs[0].bounds.width == 2.0 * SelectionRingRadius
  {
    match selection
    case None => []
    case Some(p) => [Circle(SelectionPen, p, SelectionRingRadius)]
  }

  /**
   * One repaint: the active visualizers of every group (only while the
   * vertices form a triangle), then the outline, the vertex dots and the
   * selection ring on top.
   */
  function Scene(sqrt: real -> real, vs: seq<Visualizer>, v: TriangleView, selection: Option<PointF>): (cs: seq<Command>)
    requires IsSqrt(sqrt) && (v.isTriangle ==> AllDrawable(sqrt, vs, v))
    ensures |cs| == (if v.isTriangle then TotalCount(vs) else 0) + |TriangleLayer(v, selection)|
    ensures cs[|cs| - |TriangleLayer(v, selection)|..] == TriangleLayer(v, selection)
  {
    (if v.isTriangle then RenderAll(sqrt, vs, v) else []) + TriangleLayer(v, selection)
  }

  /** The triangle itself: its outline, the vertex dots and the selection ring. */
  function TriangleLayer(v: TriangleView, selection: Option<PointF>): seq<Command>
  {
    Outline(v) + VertexMarks(v) + SelectionRing(selection)
  }

  /** What drawing group `k` adds to drawing the groups before it. */
  ghost predicate GroupStepHolds(sqrt: real -> real, gs: seq<VisualizerGroup>, k: int, v: TriangleView)
    requires IsSqrt(sqrt) && 0 <= k < |gs|
    reads gs, set i, j | 0 <= i < |gs| && 0 <= j < |gs[i].entries| :: gs[i].entries[j]
  {
    && AllDrawable(sqrt, ActiveOfGroups(gs[..k]), v)
    && AllDrawable(sqrt, ActiveVisualizers(gs[k].entries), v)
    && AllDrawable(sqrt, ActiveOfGroups(gs[..k + 1]), v)
    && RenderAll(sqrt, ActiveOfGroups(gs[..k + 1]), v) ==
      RenderAll(sqrt, ActiveOfGroups(gs[..k]), v) + RenderAll(sqrt, ActiveVisualizers(gs[k].entries), v)
  }

  /** Draws the active visualizers of every group, group after group. */
  method VisualizeGroups(sqrt: real -> real, gs: seq<VisualizerGroup>, v: TriangleView) returns (cmds: seq<Command>)
    requires IsSqrt(sqrt) && AllDrawable(sqrt, ActiveOfGroups(gs), v)
    ensures cmds == RenderAll(sqrt, old(ActiveOfGroups(gs)), v)
  {
    forall k | 0 <= k < |gs|
      ensures GroupStepHolds(sqrt, gs, k, v)
    {
      GroupStep(sqrt, gs, k, v);
    }
    cmds := [];
    assert gs[..0] == [];
    for k := 0 to |gs|
      invariant AllDrawable(sqrt, old(ActiveOfGroups(gs[..k])), v)
      invariant cmds == RenderAll(sqrt, old(ActiveOfGroups(gs[..k])), v)
    {
      assert old(GroupStepHolds(sqrt, gs, k, v));
      var drawn := gs[k].Visualize(sqrt, v);
      cmds := cmds + drawn;
    }
    assert gs[..|gs|] == gs;
  }

  /** Whatever comes before it, the triangle layer ends the list: outline, dots, then the ring. */
  lemma TriangleOnTop(drawn: seq<Command>, v: TriangleView, selection: Option<PointF>)
    ensures
      var cs := drawn + TriangleLayer(v, selection);
      var n := |drawn|;
      && |cs| == n + 6 + (if selection.Some? then 1 else 0)
      && cs[n..n + 3] == Outline(v)
      && cs[n + 3..n + 6] == VertexMarks(v)
      && cs[n + 6..] == SelectionRing(selection)
  {
    var n := |drawn|;
    var layer := TriangleLayer(v, selection);
    var cs := drawn + layer;
    assert cs[n..] == layer;
    assert layer[..3] == Outline(v) && layer[3..6] == VertexMarks(v) && layer[6..] == SelectionRing(selection);
    assert cs[n..n + 3] == layer[..3] && cs[n + 3..n + 6] == layer[3..6];
  }

  /**
   * The triangle is always drawn, after and so on top of every visualizer;
   * without a triangle nothing else is drawn.
   */
  lemma SceneLayers(sqrt: real -> real, vs: seq<Visualizer>, v: TriangleView, selection: Option<PointF>)
    requires IsSqrt(sqrt) && (v.isTriangle ==> AllDrawable(sqrt, vs, v))
    ensures
      var cs := Scene(sqrt, vs, v, selection);
      var n := if v.isTriangle then TotalCount(vs) else 0;
      && |cs| == n + 6 + (if selection.Some? then 1 else 0)
      && cs[n..n + 3] == Outline(v)
      && cs[n + 3..n + 6] == VertexMarks(v)
      && cs[n + 6..] == SelectionRing(selection)
  {
    var drawn := if v.isTriangle then RenderAll(sqrt, vs, v) else [];
    TriangleOnTop(drawn, v, selection);
  }

  // ---------------------------------------------------------------------
  // The window
  // ---------------------------------------------------------------------

  // The window starts with the vertices `StartA`, `StartB` and `StartC` of `Visualizers`.

  /** The starting vertices span an area of 10000, so they form a triangle. */
  lemma StartingMeasure(sqrt: real -> real)
    requires IsSqrt(sqrt)
    ensures Measure(sqrt, StartA, StartB, StartC).area == 10000.0
    ensures Measure(sqrt, StartA, StartB, StartC).isTriangle
  {
    assert Determinant(StartA, StartB, StartC) == -20000.0;
  }

  /** The triangle the window starts with: A(100, 100), B(100, 300), C(200, 200). */
  method StartingTriangle(sqrt: real -> real) returns (t: Triangle)
    requires IsSqrt(sqrt)
    ensures fresh(t) && t.Valid() && t.sqrt == sqrt
    ensures t.a != t.b && t.a != t.c && t.b != t.c
    ensures t.View() == Measure(sqrt, StartA, StartB, StartC)
  {
    var pa := new TrianglePoint(StartA.x, StartA.y);
    var pb := new TrianglePoint(StartB.x, StartB.y);
    var pc := new TrianglePoint(StartC.x, StartC.y);
    t := new Triangle(sqrt, pa, pb, pc);
  }

  class Form1 {
    var leftMouseDown: bool
    var middleMouseDown: bool
    var startPoint: Point
    var selected: TrianglePoint?
    const triangle: Triangle
    const groups: seq<VisualizerGroup>

    /** The triangle is consistent, its three vertices are separate objects, and the selection is one of them. */
    ghost predicate Valid()
      reads this, triangle, triangle.a, triangle.b, triangle.c
    {
      && triangle.Valid()
      && triangle.a != triangle.b && triangle.a != triangle.c && triangle.b != triangle.c
      && (selected == null || selected == triangle.a || selected == triangle.b || selected == triangle.c)
    }

    /** The selected vertex's position, if a vertex is selected. */
    function Selection(): Option<PointF>
      reads this, selected
    {
      if selected == null then None else Some(selected.ToPointF())
    }

    /** The window as it loads: the starting triangle, the groups with nothing switched on, no button held. */
    constructor (sqrt: real -> real)
      requires IsSqrt(sqrt)
      ensures Valid() && fresh(triangle) && triangle.sqrt == sqrt
      ensures triangle.View() == Measure(sqrt, StartA, StartB, StartC)
      ensures triangle.area == 10000.0 && triangle.isTriangle
      ensures !leftMouseDown && !middleMouseDown && startPoint == Point(0, 0) && selected == null
      ensures |groups| == |Catalogue|
      ensures forall k :: 0 <= k < |groups| ==> GroupMatches(groups[k], Catalogue[k])
    {
      leftMouseDown, middleMouseDown := false, false;
      startPoint := Point(0, 0);
      selected := null;
      var t := StartingTriangle(sqrt);
      StartingMeasure(sqrt);
      var gs := SetUpVisualizers();
      triangle, groups := t, gs;
    }

    /**
     * A press of the middle button starts a pan from the cursor; any other
     * button selects the last vertex within the tolerance of the cursor (or
     * none), and asks for a repaint when a vertex was or now is selected.
     */
    method MouseDown(button: MouseButton, x: int, y: int) returns (repaint: bool)
      requires Valid()
      modifies this
      ensures Valid()
      ensures button == Middle ==>
        && middleMouseDown && startPoint == Point(x, y)
        && leftMouseDown == old(leftMouseDown) && selected == old(selected) && !repaint
      ensures button != Middle ==>
        && leftMouseDown && middleMouseDown == old(middleMouseDown) && startPoint == old(startPoint)
        && var hit := LastHit(triangle.View(), PointF(x as real, y as real), 3);
           selected == (if hit.None? then null else triangle.Vertex(hit.value))
      ensures button != Middle ==> (repaint <==> old(selected) != null || selected != null)
    {
      if button == Middle {
        middleMouseDown := true;
        startPoint := Point(x, y);
        return false;
      }
      leftMouseDown := true;
      var current := PointF(x as real, y as real);
      var pointSelected := selected != null;
      var view := triangle.View();
      selected := null;
      for i := 0 to 3
        invariant leftMouseDown && middleMouseDown == old(middleMouseDown) && startPoint == old(startPoint)
        invariant Valid() && view == triangle.View()
        invariant selected == (if LastHit(view, current, i).None? then null else triangle.Vertex(LastHit(view, current, i).value))
      {
        LastHitMeaning(view, current, i);
        var p := triangle.Vertex(i);
        if DistanceSquared(p.ToPointF(), current) < SelectTolerance * SelectTolerance {
          selected := p;
        }
      }
      repaint := selected != null || (pointSelected && selected == null);
    }

    /** Releasing a button ends only what that button started. */
    method MouseUp(button: MouseButton)
      modifies this
      ensures leftMouseDown == (old(leftMouseDown) && button != Left)
      ensures middleMouseDown == (old(middleMouseDown) && button != Middle)
      ensures selected == old(selected) && startPoint == old(startPoint)
    {
      if button == Left {
        leftMouseDown := false;
      }
      if button == Middle {
        middleMouseDown := false;
      }
    }

    /** Moves the selected vertex to the cursor; the other two stay where they are. */
    method MoveSelectedTo(x: int, y: int)
      requires Valid() && selected != null
      modifies triangle, triangle.a, triangle.b, triangle.c
      ensures Valid()
      ensures triangle.a == old(triangle.a) && triangle.b == old(triangle.b) && triangle.c == old(triangle.c)
      ensures triangle.View().a == (if selected == triangle.a then PointF(x as real, y as real) else old(triangle.View().a))
      ensures triangle.View().b == (if selected == triangle.b then PointF(x as real, y as real) else old(triangle.View().b))
      ensures triangle.View().c == (if selected == triangle.c then PointF(x as real, y as real) else old(triangle.View().c))
    {
      triangle.SetPointX(selected, x as real);
      triangle.SetPointY(selected, y as real);
    }

    /** Subtracts (dx, dy) from every vertex, one after the other; no measurement of the triangle changes. */
    method Shift(dx: int, dy: int)
      requires Valid()
      modifies triangle, triangle.a, triangle.b, triangle.c
      ensures Valid()
      ensures triangle.a == old(triangle.a) && triangle.b == old(triangle.b) && triangle.c == old(triangle.c)
      ensures
        var d := PointF(-dx as real, -dy as real);
        && triangle.View().a == Add(old(triangle.View().a), d)
        && triangle.View().b == Add(old(triangle.View().b), d)
        && triangle.View().c == Add(old(triangle.View().c), d)
      ensures triangle.sideA == old(triangle.sideA) && triangle.sideB == old(triangle.sideB)
      ensures triangle.sideC == old(triangle.sideC) && triangle.area == old(triangle.area)
      ensures triangle.perimeter == old(triangle.perimeter) && triangle.isTriangle == old(triangle.isTriangle)
    {
      ghost var before := triangle.View();
      ghost var d := PointF(-dx as real, -dy as real);
      for i := 0 to 3
        invariant Valid()
        invariant triangle.a == old(triangle.a) && triangle.b == old(triangle.b) && triangle.c == old(triangle.c)
        invariant triangle.View().a == (if 0 < i then Add(before.a, d) else before.a)
        invariant triangle.View().b == (if 1 < i then Add(before.b, d) else before.b)
        invariant triangle.View().c == (if 2 < i then Add(before.c, d) else before.c)
      {
        var p := triangle.Vertex(i);
        triangle.SetPointX(p, p.x - dx as real);
        triangle.SetPointY(p, p.y - dy as real);
      }
      TranslationKeepsShape(triangle.sqrt, before.a, before.b, before.c, d);
      MeasureUnique(triangle.sqrt, before);
    }

    /**
     * With the left button held on a selected vertex, the vertex follows the
     * cursor; otherwise, with the middle button held, all three vertices
     * move by the cursor's offset since the last event.
     */
    method MouseMove(x: int, y: int) returns (repaint: bool)
      requires Valid()
      modifies this, triangle, triangle.a, triangle.b, triangle.c
      ensures Valid()
      ensures selected == old(selected)
      ensures triangle.a == old(triangle.a) && triangle.b == old(triangle.b) && triangle.c == old(triangle.c)
      ensures leftMouseDown == old(leftMouseDown) && middleMouseDown == old(middleMouseDown)
      ensures old(leftMouseDown && selected != null) ==>
        && repaint && startPoint == old(startPoint)
        && triangle.View().a == (if selected == triangle.a then PointF(x as real, y as real) else old(triangle.View().a))
        && triangle.View().b == (if selected == triangle.b then PointF(x as real, y as real) else old(triangle.View().b))
        && triangle.View().c == (if selected == triangle.c then PointF(x as real, y as real) else old(triangle.View().c))
      ensures !old(leftMouseDown && selected != null) && old(middleMouseDown) ==>
        var d := PointF((x - old(startPoint).x) as real, (y - old(startPoint).y) as real);
        && repaint && startPoint == Point(x, y)
        && triangle.View().a == Add(old(triangle.View().a), d)
        && triangle.View().b == Add(old(triangle.View().b), d)
        && triangle.View().c == Add(old(triangle.View().c), d)
        && triangle.sideA == old(triangle.sideA) && triangle.sideB == old(triangle.sideB)
        && triangle.sideC == old(triangle.sideC) && triangle.area == old(triangle.area)
        && triangle.perimeter == old(triangle.perimeter) && triangle.isTriangle == old(triangle.isTriangle)
      ensures !old(leftMouseDown && selected != null) && !old(middleMouseDown) ==>
        !repaint && startPoint == old(startPoint) && triangle.View() == old(triangle.View())
    {
      if leftMouseDown && selected != null {
        MoveSelectedTo(x, y);
        return true;
      }
      if !middleMouseDown {
        return false;
      }
      var dx := startPoint.x - x;
      var dy := startPoint.y - y;
      Shift(dx, dy);
      startPoint := Point(x, y);
      repaint := true;
    }

    /**
     * Ticking or clearing the check box of one entry switches that entry,
     * keeping its name and visualizer, recomputes its group's header and
     * asks for a repaint.
     */
    method CheckBoxChanged(k: int, j: int, on: bool, hasHeaderBox: bool) returns (header: Option<CheckState>, repaint: bool)
      requires 0 <= k < |groups| && 0 <= j < |groups[k].entries|
      modifies groups[k].entries[j]
      ensures groups[k].entries[j].active == on
      ensures groups[k].entries[j].visualizer == old(groups[k].entries[j].visualizer)
      ensures groups[k].entries[j].name == old(groups[k].entries[j].name)
      ensures !hasHeaderBox ==> header == None
      ensures hasHeaderBox ==> header == Some(HeaderState(CheckBoxes(groups[k].entries)))
      ensures repaint
    {
      groups[k].entries[j].SetActive(on);
      header := DetermineHeaderState(hasHeaderBox, CheckBoxes(groups[k].entries));
      repaint := true;
    }

    /**
     * Issues the commands of one repaint: every group's active visualizers
     * while the vertices form a triangle, then the outline, the vertex dots
     * and the ring round the selected vertex.
     */
    method Paint() returns (cmds: seq<Command>)
      requires Valid()
      requires triangle.isTriangle ==> AllDrawable(triangle.sqrt, ActiveOfGroups(groups), triangle.View())
      ensures cmds == Scene(triangle.sqrt, old(ActiveOfGroups(groups)), triangle.View(), Selection())
    {
      cmds := [];
      if triangle.isTriangle {
        cmds := VisualizeGroups(triangle.sqrt, groups, triangle.View());
      }
      var drawn := DrawTriangle();
      cmds := cmds + drawn;
    }

    /** The outline side by side, a dot on each vertex, then the ring round the selection. */
    method DrawTriangle() returns (cmds: seq<Command>)
      ensures cmds == TriangleLayer(triangle.View(), Selection())
    {
      var v := triangle.View();
      cmds := [];
      for i := 0 to 3
        invariant cmds == Outline(v)[..i]
      {
        var from := triangle.Vertex(i).ToPointF();
        var to := triangle.Vertex((i + 1) % 3).ToPointF();
        OutlineSide(v, i);
        assert Outline(v)[..i + 1] == Outline(v)[..i] + [DrawLine(TrianglePen, from, to)];
        cmds := cmds + [DrawLine(TrianglePen, from, to)];
      }
      ghost var outlined := cmds;
      for i := 0 to 3
        invariant cmds == outlined + VertexMarks(v)[..i]
      {
        var center := triangle.Vertex(i).ToPointF();
        assert VertexMarks(v)[..i + 1] == VertexMarks(v)[..i] + [FillEllipse(VertexBrush, EllipseToRectangle(center, VertexMarkRadius))];
        cmds := cmds + [FillEllipse(VertexBrush, EllipseToRectangle(center, VertexMarkRadius))];
      }
      if selected != null {
        cmds := cmds + [DrawEllipse(SelectionPen, EllipseToRectangle(selected.ToPointF(), SelectionRingRadius))];
      }
    }
  }
}
