/**
 * Named visualizers switched on and off one by one, and the groups that
 * hold them: a group draws those of its entries that are active, in the
 * order they were added.
 */
module Groups {
  import opened Drawing
  import opened Helpers
  import opened Triangles
  import opened Rendering

  /** A visualizer with the name of its check box and whether it is switched on. */
  class VisualizerData {
    var visualizer: Visualizer
    var active: bool
    var name: string

    /** A new entry is switched off. */
    constructor (name: string, visualizer: Visualizer)
      ensures this.name == name && this.visualizer == visualizer && !active
    {
      this.name := name;
      this.visualizer := visualizer;
      active := false;
    }

    /** Switches the entry on or off, as its check box does. */
    method SetActive(on: bool)
      modifies this
      ensures active == on
      ensures visualizer == old(visualizer) && name == old(name)
    {
      active := on;
    }
  }

  /** The visualizers of the active entries, in order. */
  function ActiveVisualizers(es: seq<VisualizerData>): (vs: seq<Visualizer>)
    reads es
    ensures |vs| <= |es|
  {
    if |es| == 0 then []
    else
      var last := es[|es| - 1];
      ActiveVisualizers(es[..|es| - 1]) + (if last.active then [last.visualizer] else [])
  }

  /** Every visualizer of the sequence can draw the triangle. */
  predicate AllDrawable(sqrt: real -> real, vs: seq<Visualizer>, v: TriangleView)
    requires IsSqrt(sqrt)
  {
    forall i :: 0 <= i < |vs| ==> Drawable(sqrt, vs[i], v)
  }

  /** What the visualizers draw, one after the other: the sum of their kinds' counts of commands. */
  function RenderAll(sqrt: real -> real, vs: seq<Visualizer>, v: TriangleView): (cs: seq<Command>)
    requires IsSqrt(sqrt) && AllDrawable(sqrt, vs, v)
    ensures |cs| == TotalCount(vs)
  {
    if |vs| == 0 then []
    else
      RenderCount(sqrt, vs[|vs| - 1], v);
      RenderAll(sqrt, vs[..|vs| - 1], v) + Render(sqrt, vs[|vs| - 1], v)
  }

  /** The number of commands the visualizers issue together. */
  function TotalCount(vs: seq<Visualizer>): nat
  {
    if |vs| == 0 then 0 else TotalCount(vs[..|vs| - 1]) + CommandCount(vs[|vs| - 1])
  }

  /** The active visualizers are exactly those of the active entries: each one comes from an active entry. */
  lemma {:induction false} ActiveVisualizersFromActiveEntries(es: seq<VisualizerData>, j: int)
    requires 0 <= j < |ActiveVisualizers(es)|
    ensures exists i :: 0 <= i < |es| && es[i].active && es[i].visualizer == ActiveVisualizers(es)[j]
  {
    var init := es[..|es| - 1];
    var last := es[|es| - 1];
    if j < |ActiveVisualizers(init)| {
      ActiveVisualizersFromActiveEntries(init, j);
      var i :| 0 <= i < |init| && init[i].active && init[i].visualizer == ActiveVisualizers(init)[j];
      assert es[i] == init[i];
    } else {
      assert last.active && ActiveVisualizers(es)[j] == last.visualizer;
    }
  }

  /**
   * Conversely, every active entry's visualizer is drawn, at the position
   * counted by the active entries before it.
   */
  lemma ActiveEntryDrawn(es: seq<VisualizerData>, i: int)
    requires 0 <= i < |es| && es[i].active
    ensures |ActiveVisualizers(es[..i])| < |ActiveVisualizers(es)|
    ensures ActiveVisualizers(es)[|ActiveVisualizers(es[..i])|] == es[i].visualizer
  {
    assert es[..i + 1][..i] == es[..i];
    assert ActiveVisualizers(es[..i + 1]) == ActiveVisualizers(es[..i]) + [es[i].visualizer];
    ActiveVisualizersPrefix(es, i + 1);
  }

  /** With no entry active, nothing is drawn. */
  lemma {:induction false} NoneActiveNothing(es: seq<VisualizerData>)
    requires forall i :: 0 <= i < |es| ==> !es[i].active
    ensures ActiveVisualizers(es) == []
  {
    if |es| > 0 {
      NoneActiveNothing(es[..|es| - 1]);
    }
  }

  /** The active visualizers of a prefix of the entries are a prefix of the active visualizers. */
  lemma {:induction false} ActiveVisualizersPrefix(es: seq<VisualizerData>, k: int)
    requires 0 <= k <= |es|
    ensures var p := ActiveVisualizers(es[..k]);
      |p| <= |ActiveVisualizers(es)| && p == ActiveVisualizers(es)[..|p|]
    decreases |es|
  {
    if k < |es| {
      var init := es[..|es| - 1];
      assert init[..k] == es[..k];
      ActiveVisualizersPrefix(init, k);
    } else {
      assert es[..k] == es;
    }
  }

  /** Every prefix of drawable visualizers is drawable. */
  lemma DrawablePrefix(sqrt: real -> real, vs: seq<Visualizer>, k: int, v: TriangleView)
    requires IsSqrt(sqrt) && AllDrawable(sqrt, vs, v) && 0 <= k <= |vs|
    ensures AllDrawable(sqrt, vs[..k], v)
  {
    forall i | 0 <= i < k
      ensures Drawable(sqrt, vs[..k][i], v)
    {
      assert vs[..k][i] == vs[i];
    }
  }

  /** One more entry contributes its visualizer exactly when it is active. */
  lemma ActiveStep(es: seq<VisualizerData>, i: int)
    requires 0 <= i < |es|
    ensures ActiveVisualizers(es[..i + 1]) == ActiveVisualizers(es[..i]) + (if es[i].active then [es[i].visualizer] else [])
  {
    assert es[..i + 1][..i] == es[..i];
  }

  /** One more visualizer draws its commands after those of the others. */
  lemma RenderAllSnoc(sqrt: real -> real, vs: seq<Visualizer>, x: Visualizer, v: TriangleView)
    requires IsSqrt(sqrt) && AllDrawable(sqrt, vs + [x], v)
    ensures AllDrawable(sqrt, vs, v) && Drawable(sqrt, x, v)
    ensures RenderAll(sqrt, vs + [x], v) == RenderAll(sqrt, vs, v) + Render(sqrt, x, v)
  {
    assert (vs + [x])[..|vs|] == vs;
    assert (vs + [x])[|vs|] == x;
  }

  /** Drawing the entries up to and including the i-th adds the i-th's commands when it is active, and nothing otherwise. */
  lemma RenderEntryStep(sqrt: real -> real, es: seq<VisualizerData>, i: int, v: TriangleView)
    requires IsSqrt(sqrt) && 0 <= i < |es| && AllDrawable(sqrt, ActiveVisualizers(es), v)
    ensures AllDrawable(sqrt, ActiveVisualizers(es[..i]), v) && AllDrawable(sqrt, ActiveVisualizers(es[..i + 1]), v)
    ensures es[i].active ==> Drawable(sqrt, es[i].visualizer, v)
    ensures RenderAll(sqrt, ActiveVisualizers(es[..i + 1]), v) ==
      RenderAll(sqrt, ActiveVisualizers(es[..i]), v) + (if es[i].active then Render(sqrt, es[i].visualizer, v) else [])
  {
    ActiveStep(es, i);
    ActiveVisualizersPrefix(es, i + 1);
    DrawablePrefix(sqrt, ActiveVisualizers(es), |ActiveVisualizers(es[..i + 1])|, v);
    if es[i].active {
      RenderAllSnoc(sqrt, ActiveVisualizers(es[..i]), es[i].visualizer, v);
    } else {
      assert ActiveVisualizers(es[..i + 1]) == ActiveVisualizers(es[..i]);
    }
  }

  /** A named list of visualizers. */
  class VisualizerGroup {
    var name: string
    var entries: seq<VisualizerData>

    /** A new group is empty. */
    constructor (name: string)
      ensures this.name == name && entries == []
    {
      this.name := name;
      entries := [];
    }

    /** Appends a new, switched-off entry; what the group draws does not change. */
    method Add(entryName: string, vis: Visualizer)
      modifies this
      ensures |entries| == |old(entries)| + 1 && entries[..|old(entries)|] == old(entries)
      ensures fresh(entries[|entries| - 1])
      ensures entries[|entries| - 1].name == entryName && entries[|entries| - 1].visualizer == vis
      ensures !entries[|entries| - 1].active
      ensures ActiveVisualizers(entries) == old(ActiveVisualizers(entries))
      ensures name == old(name)
    {
      var data := new VisualizerData(entryName, vis);
      entries := entries + [data];
      assert entries[..|entries| - 1] == old(entries);
    }

    /** Draws every active entry, in order. */
    method Visualize(sqrt: real -> real, v: TriangleView) returns (cmds: seq<Command>)
      requires IsSqrt(sqrt) && AllDrawable(sqrt, ActiveVisualizers(entries), v)
      ensures cmds == RenderAll(sqrt, ActiveVisualizers(entries), v)
      ensures |cmds| == TotalCount(ActiveVisualizers(entries))
    {
      cmds := [];
      assert entries[..0] == [];
      for i := 0 to |entries|
        invariant AllDrawable(sqrt, ActiveVisualizers(entries[..i]), v)
        invariant cmds == RenderAll(sqrt, ActiveVisualizers(entries[..i]), v)
      {
        RenderEntryStep(sqrt, entries, i, v);
        var data := entries[i];
        if data.active {
          cmds := cmds + Render(sqrt, data.visualizer, v);
        }
      }
      assert entries[..|entries|] == entries;
    }

    /** The entries one by one, in order. */
    method Enumerate() returns (es: seq<VisualizerData>)
      ensures es == entries
    {
      es := [];
      for i := 0 to |entries|
        invariant es == entries[..i]
      {
        es := es + [entries[i]];
      }
    }
  }

  /** The active visualizers of all the groups, group after group. */
  function ActiveOfGroups(gs: seq<VisualizerGroup>): seq<Visualizer>
    reads gs, set i, j | 0 <= i < |gs| && 0 <= j < |gs[i].entries| :: gs[i].entries[j]
  {
    if |gs| == 0 then []
    else ActiveOfGroups(gs[..|gs| - 1]) + ActiveVisualizers(gs[|gs| - 1].entries)
  }

  /** Both parts of a drawable run are drawable. */
  lemma DrawableSplit(sqrt: real -> real, xs: seq<Visualizer>, ys: seq<Visualizer>, v: TriangleView)
    requires IsSqrt(sqrt) && AllDrawable(sqrt, xs + ys, v)
    ensures AllDrawable(sqrt, xs, v) && AllDrawable(sqrt, ys, v)
  {
    forall i | 0 <= i < |xs|
      ensures Drawable(sqrt, xs[i], v)
    {
      assert xs[i] == (xs + ys)[i];
    }
    forall i | 0 <= i < |ys|
      ensures Drawable(sqrt, ys[i], v)
    {
      assert ys[i] == (xs + ys)[|xs| + i];
    }
  }

  /** Drawing two runs of visualizers is drawing the first, then the second. */
  lemma {:induction false} RenderAllAppend(sqrt: real -> real, xs: seq<Visualizer>, ys: seq<Visualizer>, v: TriangleView)
    requires IsSqrt(sqrt) && AllDrawable(sqrt, xs + ys, v)
    ensures AllDrawable(sqrt, xs, v) && AllDrawable(sqrt, ys, v)
    ensures RenderAll(sqrt, xs + ys, v) == RenderAll(sqrt, xs, v) + RenderAll(sqrt, ys, v)
    decreases |ys|
  {
    DrawableSplit(sqrt, xs, ys, v);
    if |ys| > 0 {
      var init, last := ys[..|ys| - 1], ys[|ys| - 1];
      assert xs + ys == (xs + init) + [last];
      assert ys == init + [last];
      RenderAllSnoc(sqrt, xs + init, last, v);
      RenderAllSnoc(sqrt, init, last, v);
      RenderAllAppend(sqrt, xs, init, v);
    } else {
      assert xs + ys == xs;
    }
  }

  /** A group whose entries are all inactive contributes nothing, so neither does a run of such groups. */
  lemma {:induction false} ActiveOfGroupsNone(gs: seq<VisualizerGroup>)
    requires forall i :: 0 <= i < |gs| ==> ActiveVisualizers(gs[i].entries) == []
    ensures ActiveOfGroups(gs) == []
    decreases |gs|
  {
    if |gs| > 0 {
      ActiveOfGroupsNone(gs[..|gs| - 1]);
    }
  }

  /** Every leading run of groups has drawable active visualizers when all groups do. */
  lemma {:induction false} ActiveOfGroupsPrefixDrawable(sqrt: real -> real, gs: seq<VisualizerGroup>, k: int, v: TriangleView)
    requires IsSqrt(sqrt) && 0 <= k <= |gs| && AllDrawable(sqrt, ActiveOfGroups(gs), v)
    ensures AllDrawable(sqrt, ActiveOfGroups(gs[..k]), v)
    decreases |gs|
  {
    if k == |gs| {
      assert gs[..k] == gs;
    } else {
      var init := gs[..|gs| - 1];
      DrawableSplit(sqrt, ActiveOfGroups(init), ActiveVisualizers(gs[|gs| - 1].entries), v);
      ActiveOfGroupsPrefixDrawable(sqrt, init, k, v);
      assert init[..k] == gs[..k];
    }
  }

  /** One more group: its active visualizers come after those of the groups before it. */
  lemma GroupStep(sqrt: real -> real, gs: seq<VisualizerGroup>, k: int, v: TriangleView)
    requires IsSqrt(sqrt) && 0 <= k < |gs| && AllDrawable(sqrt, ActiveOfGroups(gs), v)
    ensures AllDrawable(sqrt, ActiveOfGroups(gs[..k]), v)
    ensures AllDrawable(sqrt, ActiveVisualizers(gs[k].entries), v)
    ensures AllDrawable(sqrt, ActiveOfGroups(gs[..k + 1]), v)
    ensures RenderAll(sqrt, ActiveOfGroups(gs[..k + 1]), v) ==
      RenderAll(sqrt, ActiveOfGroups(gs[..k]), v) + RenderAll(sqrt, ActiveVisualizers(gs[k].entries), v)
  {
    ActiveOfGroupsPrefixDrawable(sqrt, gs, k + 1, v);
    assert gs[..k + 1][..k] == gs[..k];
    assert ActiveOfGroups(gs[..k + 1]) == ActiveOfGroups(gs[..k]) + ActiveVisualizers(gs[k].entries);
    RenderAllAppend(sqrt, ActiveOfGroups(gs[..k]), ActiveVisualizers(gs[k].entries), v);
  }
}
