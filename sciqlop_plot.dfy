/** The QCustomPlot subclass behind `SciQLopPlot` (`src/SciQLopPlot.cpp`): its list of plottable
  * wrappers, the plottable lookups, replot coalescing, the single colour map, the pen setup of
  * new plottables, `plot_impl` and the legend double-click. */
module SciQLopPlotImpl {
  import opened Common
  import opened QtTypes
  import opened PlotDispatch

  datatype WrapperKind = LineGraphKind | CurveKind | ColorMapKind | LineGraphFunctionKind | CurveFunctionKind | ColorMapFunctionKind

  /** A plottable wrapper: its object name, its kind and the pens of its QCustomPlot plottables
    * (one per component). */
  datatype Wrapper = Wrapper(name: string, kind: WrapperKind, pens: seq<Pen>)

  predicate IsColorMap(w: Wrapper) { w.kind == ColorMapKind || w.kind == ColorMapFunctionKind }

  function ColorMapCount(ws: seq<Wrapper>): nat
  {
    if ws == [] then 0 else (if IsColorMap(ws[0]) then 1 else 0) + ColorMapCount(ws[1..])
  }

  lemma {:induction false} ColorMapCountAppend(ws: seq<Wrapper>, w: Wrapper)
    ensures ColorMapCount(ws + [w]) == ColorMapCount(ws) + (if IsColorMap(w) then 1 else 0)
  {
    if ws != [] {
      assert (ws + [w])[1..] == ws[1..] + [w];
      ColorMapCountAppend(ws[1..], w);
    }
  }

  /** The index `sqp_plottable(index)` reads, as written: -1 and indices past the end mean the
    * last one. */
  function PlottableIndexAsWritten(size: nat, index: int): int
  {
    if index == -1 || index >= size then size - 1 else index
  }

  /** As written the index falls outside the list when the list is empty (it is -1) or when the
    * index is below -1. */
  lemma PlottableIndexOutOfRange(size: nat, index: int)
    ensures 0 <= PlottableIndexAsWritten(size, index) < size <==> size > 0 && index >= -1
    ensures PlottableIndexAsWritten(0, -1) == -1
  {
  }

  /** `sqp_plottable(index)` with the list access guarded: null for an empty list or an index
    * below -1, otherwise the clamped entry. */
  function PlottableAt(ws: seq<Wrapper>, index: int): (r: Option<Wrapper>)
    ensures r.Some? <==> |ws| > 0 && index >= -1
    ensures r.Some? ==> r.value == ws[PlottableIndexAsWritten(|ws|, index)]
    ensures r.Some? && 0 <= index < |ws| ==> r.value == ws[index]
    ensures r.Some? && (index == -1 || index >= |ws|) ==> r.value == ws[|ws| - 1]
  {
    if |ws| > 0 && index >= -1 then Some(ws[PlottableIndexAsWritten(|ws|, index)]) else None
  }

  /** Index of the first wrapper named `name`, or -1. */
  function FirstNamed(ws: seq<Wrapper>, name: string): (i: int)
    ensures -1 <= i < |ws|
    ensures i >= 0 ==> ws[i].name == name && forall j :: 0 <= j < i ==> ws[j].name != name
    ensures i == -1 <==> forall j :: 0 <= j < |ws| ==> ws[j].name != name
  {
    if ws == [] then -1
    else if ws[0].name == name then 0
    else
      var k := FirstNamed(ws[1..], name);
      assert forall j :: 1 <= j < |ws| ==> ws[j] == ws[1..][j - 1];
      if k == -1 then -1 else k + 1
  }

  /** `sqp_plottable(name)`: the first wrapper with that object name, or null. */
  function PlottableNamed(ws: seq<Wrapper>, name: string): (r: Option<Wrapper>)
    ensures r.None? <==> forall i :: 0 <= i < |ws| ==> ws[i].name != name
    ensures r.Some? ==> exists i :: 0 <= i < |ws| && ws[i] == r.value && r.value.name == name &&
                          forall j :: 0 <= j < i ==> ws[j].name != name
  {
    var i := FirstNamed(ws, name);
    if i == -1 then None else Some(ws[i])
  }

  /** The pens after `_configure_plotable(labels, colors)`: pen i becomes `QPen(colors[i])` when
    * there are no more colours than plottables; otherwise nothing changes. */
  function ConfiguredPens(pens: seq<Pen>, colors: seq<Color>): (r: seq<Pen>)
    ensures |r| == |pens|
    ensures |colors| <= |pens| ==> forall i :: 0 <= i < |colors| ==> r[i] == Pen(colors[i], 1.0, SolidLine)
    ensures |colors| <= |pens| ==> forall i :: |colors| <= i < |pens| ==> r[i] == pens[i]
    ensures |colors| > |pens| ==> r == pens
  {
    if |colors| <= |pens| then
      seq(|pens|, i requires 0 <= i < |pens| => if i < |colors| then Pen(colors[i], 1.0, SolidLine) else pens[i])
    else pens
  }

  /** The replot machinery: the pending flag, the single-shot timer, and counts of the timer
    * starts and of immediate replots. */
  datatype ReplotState = ReplotState(pending: bool, timerActive: bool, timerStarts: nat, immediateReplots: nat)

  /** `replot(priority)`. An immediate replot redraws at once, and QCustomPlot emits
    * `afterReplot` before returning, which clears the pending flag. A queued one starts the
    * timer only when it is idle and no replot is pending. */
  function Replot(s: ReplotState, immediate: bool): (t: ReplotState)
  {
    if immediate then s.(pending := false, immediateReplots := s.immediateReplots + 1)
    else if !s.timerActive && !s.pending then s.(pending := true, timerActive := true, timerStarts := s.timerStarts + 1)
    else s
  }

  /** The timer's timeout: the queued replot is handed to QCustomPlot. */
  function Timeout(s: ReplotState): ReplotState { s.(timerActive := false) }

  /** `afterReplot`: the pending flag is cleared. */
  function AfterReplot(s: ReplotState): ReplotState { s.(pending := false) }

  /** `n` non-immediate replot requests. */
  function QueuedReplots(s: ReplotState, n: nat): ReplotState
    decreases n
  {
    if n == 0 then s else QueuedReplots(Replot(s, false), n - 1)
  }

  /** An immediate replot leaves nothing pending and keeps the timer as it was; a queued request
    * starts the timer exactly from an idle, non-pending state, and otherwise changes nothing. */
  lemma ReplotCases(s: ReplotState)
    ensures !Replot(s, true).pending && Replot(s, true).timerActive == s.timerActive
    ensures Replot(s, true).immediateReplots == s.immediateReplots + 1 && Replot(s, true).timerStarts == s.timerStarts
    ensures Replot(s, false).timerStarts == s.timerStarts + (if !s.timerActive && !s.pending then 1 else 0)
    ensures !s.timerActive && !s.pending ==> Replot(s, false).pending && Replot(s, false).timerActive
    ensures s.timerActive || s.pending ==> Replot(s, false) == s
  {
  }

  /** Any number of queued requests starts the timer at most once, exactly when there is one and
    * the state is neither pending nor timing; the pending flag and the timer are then set. */
  lemma {:induction false} QueuedReplotsCoalesce(s: ReplotState, n: nat)
    ensures QueuedReplots(s, n).timerStarts <= s.timerStarts + 1
    ensures QueuedReplots(s, n).timerStarts == s.timerStarts + (if n > 0 && !s.pending && !s.timerActive then 1 else 0)
    ensures QueuedReplots(s, n).pending == (s.pending || (n > 0 && !s.timerActive))
    ensures QueuedReplots(s, n).timerActive == (s.timerActive || (n > 0 && !s.pending))
    ensures QueuedReplots(s, n).immediateReplots == s.immediateReplots
    decreases n
  {
    if n > 0 {
      var t := Replot(s, false);
      QueuedReplotsCoalesce(t, n - 1);
      if !s.pending && !s.timerActive {
        assert t.pending && t.timerActive && t.timerStarts == s.timerStarts + 1;
      } else {
        assert t == s;
      }
    }
  }

  /** A queued request, an immediate replot while the timer runs, then the timeout: nothing is
    * pending, so the next queued request starts the timer a second time. */
  lemma ImmediateReleasesQueue(s: ReplotState)
    requires !s.pending && !s.timerActive
    ensures var t := Timeout(Replot(Replot(s, false), true));
            !t.pending && !t.timerActive && Replot(t, false).timerStarts == s.timerStarts + 2
  {
  }

  /** Outcome of `plot_impl` on buffers: a wrapper index, an exception, or a null dereference. */
  datatype ImplOutcome = Created(index: nat) | Threw(message: string) | NullDereference | NullResult

  /** The legend entry of a plottable: its visibility and text colours. */
  datatype LegendItem = LegendItem(plottableVisible: bool, textColor: Color, selectedTextColor: Color)

  /** `_legend_double_clicked` on a plottable's legend entry: the visibility flips and the text is
    * black for a visible plottable, gray for a hidden one. */
  function LegendDoubleClicked(item: LegendItem): (r: LegendItem)
  {
    var visible := !item.plottableVisible;
    var c := if visible then Black else Gray;
    LegendItem(visible, c, c)
  }

  lemma LegendDoubleClickProperties(item: LegendItem)
    ensures LegendDoubleClicked(item).plottableVisible == !item.plottableVisible
    ensures LegendDoubleClicked(item).textColor == (if LegendDoubleClicked(item).plottableVisible then Black else Gray)
    ensures LegendDoubleClicked(item).selectedTextColor == LegendDoubleClicked(item).textColor
    ensures LegendDoubleClicked(LegendDoubleClicked(item)).plottableVisible == item.plottableVisible
  {
  }

  class Plot {
    var plottables: seq<Wrapper>
    var colorScaleVisible: bool
    var replot: ReplotState

    /** The colour scale is shown exactly when the plot holds its one colour map. */
    predicate Valid() reads this
    {
      ColorMapCount(plottables) == (if colorScaleVisible then 1 else 0)
    }

    constructor ()
      ensures Valid() && plottables == [] && !colorScaleVisible
      ensures replot == ReplotState(false, false, 0, 0)
    {
      plottables := [];
      colorScaleVisible := false;
      replot := ReplotState(false, false, 0, 0);
    }

    /** `replot(priority)`. */
    method RequestReplot(immediate: bool)
      requires Valid()
      modifies this
      ensures Valid() && replot == Replot(old(replot), immediate)
      ensures plottables == old(plottables) && colorScaleVisible == old(colorScaleVisible)
    {
      if immediate {
        replot := replot.(pending := false, immediateReplots := replot.immediateReplots + 1);
      } else if !replot.timerActive && !replot.pending {
        replot := replot.(pending := true, timerActive := true, timerStarts := replot.timerStarts + 1);
      }
    }

    /** `add_plottable<T>(labels)`: a line graph or curve with one component per label. */
    method AddPlottable(kind: WrapperKind, name: string, labels: seq<string>) returns (index: nat)
      requires Valid() && !(kind == ColorMapKind || kind == ColorMapFunctionKind)
      modifies this
      ensures Valid() && index == |old(plottables)|
      ensures plottables == old(plottables) + [Wrapper(name, kind, seq(|labels|, i => DefaultPen))]
      ensures colorScaleVisible == old(colorScaleVisible) && replot == old(replot)
    {
      var w := Wrapper(name, kind, seq(|labels|, i => DefaultPen));
      ColorMapCountAppend(plottables, w);
      index := |plottables|;
      plottables := plottables + [w];
    }

    /** `add_color_map(name, ...)`: a colour map is added, and the colour scale shown, only while
    * the colour scale is hidden; otherwise the result is null. */
    method AddColorMap(name: string, fromCallable: bool) returns (index: Option<nat>)
      requires Valid()
      modifies this
      ensures Valid() && replot == old(replot)
      ensures index.None? <==> old(colorScaleVisible)
      ensures index.Some? ==>
                index.value == |old(plottables)| && colorScaleVisible &&
                plottables == old(plottables) + [Wrapper(name, if fromCallable then ColorMapFunctionKind else ColorMapKind, [DefaultPen])]
      ensures index.None? ==> plottables == old(plottables)
      ensures ColorMapCount(plottables) <= 1
    {
      if !colorScaleVisible {
        var w := Wrapper(name, if fromCallable then ColorMapFunctionKind else ColorMapKind, [DefaultPen]);
        ColorMapCountAppend(plottables, w);
        index := Some(|plottables|);
        plottables := plottables + [w];
        colorScaleVisible := true;
      } else {
        index := None;
      }
    }

    /** `_configure_plotable(plottable, labels, colors)`. */
    method ConfigurePlottable(k: nat, colors: seq<Color>)
      requires Valid() && k < |plottables|
      modifies this
      ensures Valid()
      ensures plottables == old(plottables)[k := old(plottables)[k].(pens := ConfiguredPens(old(plottables)[k].pens, colors))]
      ensures colorScaleVisible == old(colorScaleVisible) && replot == old(replot)
    {
      var pens := plottables[k].pens;
      if |colors| <= |pens| {
        var i := 0;
        while i < |colors|
          invariant i <= |colors| && |pens| == |plottables[k].pens|
          invariant forall j :: 0 <= j < i ==> pens[j] == Pen(colors[j], 1.0, SolidLine)
          invariant forall j :: i <= j < |pens| ==> pens[j] == plottables[k].pens[j]
        {
          pens := pens[i := Pen(colors[i], 1.0, SolidLine)];
          i := i + 1;
        }
        assert pens == ConfiguredPens(plottables[k].pens, colors);
      }
      ColorMapCountUpdate(plottables, k, plottables[k].(pens := pens));
      plottables := plottables[k := plottables[k].(pens := pens)];
    }

    /** `plot_impl(x, y, labels, colors, graph_type)`: a line graph for `Line`, a curve for
      * `ParametricCurve`, an exception for any other type. */
    method PlotImplXY(graphType: GraphType, name: string, labels: seq<string>, colors: seq<Color>)
      returns (r: ImplOutcome)
      requires Valid()
      modifies this
      ensures Valid()
      ensures graphType in {Scatter, GraphType.ColorMap} <==> r == Threw("Unsupported graph type")
      ensures graphType in {GraphType.Line, ParametricCurve} ==>
                r == Created(|old(plottables)|) &&
                |plottables| == |old(plottables)| + 1 && plottables[..|old(plottables)|] == old(plottables) &&
                plottables[r.index].kind == (if graphType == GraphType.Line then LineGraphKind else CurveKind) &&
                plottables[r.index].pens == ConfiguredPens(seq(|labels|, i => DefaultPen), colors)
      ensures r.Threw? ==> plottables == old(plottables)
    {
      if graphType == GraphType.Line || graphType == ParametricCurve {
        var k := AddPlottable(if graphType == GraphType.Line then LineGraphKind else CurveKind, name, labels);
        ConfigurePlottable(k, colors);
        r := Created(k);
      } else {
        r := Threw("Unsupported graph type");
      }
    }

    /** `plot_impl(x, y, z, name, ...)` as written: the colour map is used without checking for
      * the null that `add_color_map` returns once the plot has a colour map. */
    method PlotImplXYZAsWritten(name: string) returns (r: ImplOutcome)
      requires Valid()
      modifies this
      ensures Valid()
      ensures r == NullDereference <==> old(colorScaleVisible)
    {
      var cm := AddColorMap(name, false);
      if cm.None? {
        r := NullDereference;
      } else {
        r := Created(cm.value);
      }
    }

    /** `plot_impl(x, y, z, ...)` with the null check the callable overload has: a second colour
      * map gives a null result and changes nothing. */
    method PlotImplXYZ(name: string) returns (r: ImplOutcome)
      requires Valid()
      modifies this
      ensures Valid()
      ensures r == NullResult <==> old(colorScaleVisible)
      ensures r != NullDereference
      ensures r == NullResult ==> plottables == old(plottables)
      ensures r.Created? ==> r.index == |old(plottables)| && plottables == old(plottables) + [Wrapper(name, ColorMapKind, [DefaultPen])]
    {
      var cm := AddColorMap(name, false);
      if cm.None? {
        r := NullResult;
      } else {
        r := Created(cm.value);
      }
    }
  }

  lemma ColorMapCountUpdate(ws: seq<Wrapper>, k: nat, w: Wrapper)
    requires k < |ws| && w.kind == ws[k].kind
    ensures ColorMapCount(ws[k := w]) == ColorMapCount(ws)
  {
    if k > 0 {
      assert ws[k := w][1..] == ws[1..][k - 1 := w];
      ColorMapCountUpdate(ws[1..], k - 1, w);
    }
  }

  /** The callable form of `plot_impl`: like the buffer form, but any type other than `Line` or
    * `ParametricCurve` gives null instead of an exception. */
  function CallableKind(graphType: GraphType): (r: Option<WrapperKind>)
    ensures r.Some? <==> graphType in {GraphType.Line, ParametricCurve}
    ensures graphType == GraphType.Line ==> r == Some(LineGraphFunctionKind)
    ensures graphType == ParametricCurve ==> r == Some(CurveFunctionKind)
  {
    if graphType == GraphType.Line then Some(LineGraphFunctionKind)
    else if graphType == ParametricCurve then Some(CurveFunctionKind)
    else None
  }
}
