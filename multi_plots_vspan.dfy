/** `MultiPlotsVerticalSpan` (`MultiPlots/MultiPlotsVSpan.hpp`, `src/MultiPlotsVSpan.cpp`): one
  * vertical span shown on every `SciQLopPlot` of a panel, made of one `SciQLopVerticalSpan` per
  * plot. The group keeps the attributes and pushes each change to all its spans; it follows the
  * panel's plot list through the `SciQLopMultiPlotObject` hooks. The older group of the same name
  * in `src/SciQLopVerticalSpan.cpp`, which keeps the spans and the plots in two parallel lists, is
  * modelled at the end. The spans are values here: what the group pushes to them. */
module MultiSpans {
  import opened Common
  import opened QtTypes
  import opened PlotRange
  import opened MultiPlotObjects

  /** One `SciQLopVerticalSpan` of the group, on plot `plot`, as the group's setters leave it. */
  datatype Span = Span(plot: PlotId, range: SciQLopPlotRange, selected: bool, visible: bool,
                       color: Color, readOnly: bool, tooltip: string,
                       lowerSelected: bool, upperSelected: bool)

  /** The attributes the group stores: `_horizontal_range`, `_selected`, the two border
    * selections, `_visible`, `_read_only`, `_color` and `_tool_tip`. */
  datatype Attributes = Attributes(range: SciQLopPlotRange, selected: bool, lowerSelected: bool,
                                   upperSelected: bool, visible: bool, readOnly: bool,
                                   color: Color, tooltip: string)

  /** The default colour of the constructor, `QColor(100, 100, 100)`. */
  const DefaultColor := Color(100, 100, 100, 255)

  /** A span carries the six attributes a new span is given. */
  predicate Synced(a: Attributes, sp: Span)
  {
    && sp.range == a.range && sp.selected == a.selected && sp.visible == a.visible
    && sp.color == a.color && sp.readOnly == a.readOnly && sp.tooltip == a.tooltip
  }

  /** The span `addObject` creates: built on the plot with the group's range, then given the
    * selection, range, visibility, colour, read-only flag and tooltip of the group; its borders
    * start unselected. */
  function NewSpan(p: PlotId, a: Attributes): (sp: Span)
    ensures Synced(a, sp) && sp.plot == p && !sp.lowerSelected && !sp.upperSelected
  {
    Span(p, a.range, a.selected, a.visible, a.color, a.readOnly, a.tooltip, false, false)
  }

  /** The plot of each span, in order. */
  function SpanPlots(spans: seq<Span>): (ps: seq<PlotId>)
    ensures |ps| == |spans| && forall i :: 0 <= i < |spans| ==> ps[i] == spans[i].plot
  {
    seq(|spans|, i requires 0 <= i < |spans| => spans[i].plot)
  }

  lemma SpanPlotsSnoc(spans: seq<Span>, sp: Span)
    ensures SpanPlots(spans + [sp]) == SpanPlots(spans) + [sp.plot]
  {
  }

  lemma SpanPlotsTail(spans: seq<Span>)
    requires spans != []
    ensures SpanPlots(spans)[1..] == SpanPlots(spans[1..])
  {
  }

  // ---- settings ----

  /** One call of a setter of the group. */
  datatype Setting =
    | SelectedTo(selected: bool)
    | RangeTo(range: SciQLopPlotRange)
    | VisibleTo(visible: bool)
    | ColorTo(color: Color)
    | ReadOnlyTo(readOnly: bool)
    | ToolTipTo(tooltip: string)
    | LowerSelectedTo(lower: bool)
    | UpperSelectedTo(upper: bool)

  /** The change-only guard of each setter; the range is compared with the `!=` of
    * `SciQLopPlotRange`, under which a range holding NaN is never equal to anything. */
  predicate Changes(a: Attributes, s: Setting)
  {
    match s
    case SelectedTo(b) => a.selected != b
    case RangeTo(r) => NotEqual(r, a.range)
    case VisibleTo(b) => a.visible != b
    case ColorTo(c) => a.color != c
    case ReadOnlyTo(b) => a.readOnly != b
    case ToolTipTo(t) => a.tooltip != t
    case LowerSelectedTo(b) => a.lowerSelected != b
    case UpperSelectedTo(b) => a.upperSelected != b
  }

  /** What the setter stores in the group. */
  function Stored(a: Attributes, s: Setting): Attributes
  {
    match s
    case SelectedTo(b) => a.(selected := b)
    case RangeTo(r) => a.(range := r)
    case VisibleTo(b) => a.(visible := b)
    case ColorTo(c) => a.(color := c)
    case ReadOnlyTo(b) => a.(readOnly := b)
    case ToolTipTo(t) => a.(tooltip := t)
    case LowerSelectedTo(b) => a.(lowerSelected := b)
    case UpperSelectedTo(b) => a.(upperSelected := b)
  }

  /** What the setter does to one span. */
  function Pushed(sp: Span, s: Setting): Span
  {
    match s
    case SelectedTo(b) => sp.(selected := b)
    case RangeTo(r) => sp.(range := r)
    case VisibleTo(b) => sp.(visible := b)
    case ColorTo(c) => sp.(color := c)
    case ReadOnlyTo(b) => sp.(readOnly := b)
    case ToolTipTo(t) => sp.(tooltip := t)
    case LowerSelectedTo(b) => sp.(lowerSelected := b)
    case UpperSelectedTo(b) => sp.(upperSelected := b)
  }

  /** The group attribute a setting is about holds the setting's value. */
  predicate Holds(a: Attributes, s: Setting)
  {
    Stored(a, s) == a
  }

  /** The setters that ask every plot for a queued replot (`replotAll`). */
  predicate Replots(s: Setting)
  {
    s.SelectedTo? || s.LowerSelectedTo? || s.UpperSelectedTo?
  }

  /** Every span after a setter's loop. */
  function PushAll(spans: seq<Span>, s: Setting): seq<Span>
  {
    seq(|spans|, i requires 0 <= i < |spans| => Pushed(spans[i], s))
  }

  /** The loop `for (auto span : _spans) span->set_...(value);` of every setter. */
  method PushToAll(spans: seq<Span>, s: Setting) returns (r: seq<Span>)
    ensures r == PushAll(spans, s)
  {
    r := [];
    for i := 0 to |spans|
      invariant |r| == i && forall j :: 0 <= j < i ==> r[j] == Pushed(spans[j], s)
    {
      r := r + [Pushed(spans[i], s)];
    }
    assert r == PushAll(spans, s);
  }

  // ---- the group as a value ----

  /** The group: `m_plots`, `_spans`, the attributes, the plots asked for a replot, and the
    * `range_changed` and `selection_changed` emissions, oldest first. */
  datatype Group = Group(plots: seq<PlotId>, spans: seq<Span>, attrs: Attributes,
                         replotted: seq<PlotId>, rangeSignals: seq<SciQLopPlotRange>,
                         selectionSignals: seq<bool>)

  /** One of the eight setters: nothing when the value is already stored; otherwise every span
    * gets it, `replotAll` runs for the selections, the group stores it, and `set_range` and
    * `set_selected` emit it. The spans' signals connected back to these setters are not
    * followed: the emissions recorded are the group's own. */
  function SetStep(g: Group, s: Setting): Group
  {
    if !Changes(g.attrs, s) then g
    else
      g.(spans := PushAll(g.spans, s), attrs := Stored(g.attrs, s),
         replotted := if Replots(s) then g.replotted + g.plots else g.replotted,
         rangeSignals := if s.RangeTo? then g.rangeSignals + [s.range] else g.rangeSignals,
         selectionSignals := if s.SelectedTo? then g.selectionSignals + [s.selected] else g.selectionSignals)
  }

  /** The group's invariant, for the `SciQLopPlot`s `kinds` among the plots: the plot list holds
    * each plot once; there is exactly one span on each of its `SciQLopPlot`s and no other span;
    * and every span carries the group's attributes. */
  ghost predicate GroupValid(g: Group, kinds: set<PlotId>)
  {
    && NoDuplicates(g.plots)
    && NoDuplicates(SpanPlots(g.spans))
    && (forall p :: p in SpanPlots(g.spans) <==> p in g.plots && p in kinds)
    && (forall sp :: sp in g.spans ==> Synced(g.attrs, sp))
  }

  lemma PushedSynced(a: Attributes, sp: Span, s: Setting)
    requires Synced(a, sp)
    ensures Synced(Stored(a, s), Pushed(sp, s)) && Pushed(sp, s).plot == sp.plot
  {
  }

  /** Every setter keeps the invariant. */
  lemma SetStepKeepsValid(g: Group, s: Setting, kinds: set<PlotId>)
    requires GroupValid(g, kinds)
    ensures GroupValid(SetStep(g, s), kinds)
  {
    if Changes(g.attrs, s) {
      var r := SetStep(g, s);
      assert SpanPlots(r.spans) == SpanPlots(g.spans);
      forall sp | sp in r.spans
        ensures Synced(r.attrs, sp)
      {
        var i :| 0 <= i < |r.spans| && r.spans[i] == sp;
        PushedSynced(g.attrs, g.spans[i], s);
      }
    }
  }

  /** Every setter leaves the group holding the value; when it acts, every span gets the value
    * and the group stores it; when the value is already stored it changes nothing; `set_range`
    * emits exactly the ranges that change it, `set_selected` exactly the selections that change
    * it; the plots and the plots the spans are on stay. */
  lemma SetStepProperties(g: Group, s: Setting)
    ensures Holds(SetStep(g, s).attrs, s)
    ensures SetStep(g, s).plots == g.plots
    ensures SpanPlots(SetStep(g, s).spans) == SpanPlots(g.spans)
    ensures !Changes(g.attrs, s) ==> SetStep(g, s) == g
    ensures Changes(g.attrs, s) ==>
              && SetStep(g, s).attrs == Stored(g.attrs, s)
              && forall i :: 0 <= i < |g.spans| ==> SetStep(g, s).spans[i] == Pushed(g.spans[i], s)
    ensures SetStep(g, s).rangeSignals ==
              if s.RangeTo? && Changes(g.attrs, s) then g.rangeSignals + [s.range] else g.rangeSignals
    ensures SetStep(g, s).selectionSignals ==
              if s.SelectedTo? && Changes(g.attrs, s) then g.selectionSignals + [s.selected] else g.selectionSignals
  {
    if !Changes(g.attrs, s) {
      if s.RangeTo? {
        assert g.attrs.range == s.range;
      }
    } else {
      assert SpanPlots(SetStep(g, s).spans) == SpanPlots(g.spans);
    }
  }

  /** A second call with the same value changes nothing and emits nothing, unless the value is
    * a range holding NaN. */
  lemma SetStepIdempotent(g: Group, s: Setting)
    requires !(s.RangeTo? && IsNull(s.range))
    ensures SetStep(SetStep(g, s), s) == SetStep(g, s)
  {
    var r := SetStep(g, s);
    if s.RangeTo? {
      assert r.attrs.range == s.range;
    }
  }

  /** A range holding NaN is pushed and emitted again on every call. */
  lemma SetRangeNaNRepeats(g: Group, r: SciQLopPlotRange)
    requires IsNull(r)
    ensures var once := SetStep(g, RangeTo(r));
            SetStep(once, RangeTo(r)).rangeSignals == g.rangeSignals + [r, r]
  {
  }

  /** A span added while a border of the group is selected starts with that border
    * unselected, and selecting the border again does not reach it: the group already holds the
    * value. */
  lemma AddedSpanBorderStaysUnselected(g: Group, p: PlotId)
    requires g.attrs.lowerSelected
    ensures var h := g.(spans := g.spans + [NewSpan(p, g.attrs)]);
            var r := SetStep(h, LowerSelectedTo(true));
            r == h && !r.spans[|r.spans| - 1].lowerSelected
  {
  }

  // ---- following the plot list ----

  /** The span is on plot `p` (`_spans[i]->parentPlot() == scp->qcp_plot()`). */
  function OnPlot(p: PlotId): Span -> bool
  {
    Lift(IsPlot(p))
  }

  /** A span whose plot `d` holds for. */
  function Lift(d: PlotId -> bool): Span -> bool
  {
    (sp: Span) => d(sp.plot)
  }

  function IsPlot(p: PlotId): PlotId -> bool
  {
    (q: PlotId) => q == p
  }

  /** `addObject`: a span for the plot when it is a `SciQLopPlot`. */
  function AddObjectSpans(spans: seq<Span>, p: PlotId, a: Attributes, kinds: set<PlotId>): seq<Span>
  {
    if p in kinds then spans + [NewSpan(p, a)] else spans
  }

  /** `removeObject`: when the plot is a `SciQLopPlot`, the index loop that removes its spans
    * and steps over the entry after each removal. */
  function RemoveObjectSpans(spans: seq<Span>, p: PlotId, kinds: set<PlotId>): seq<Span>
  {
    if p in kinds then SkipRemoval(spans, OnPlot(p)) else spans
  }

  /** `addObject` for each plot of `ps`, in order. */
  function AddAll(spans: seq<Span>, ps: seq<PlotId>, a: Attributes, kinds: set<PlotId>): seq<Span>
    decreases |ps|
  {
    if ps == [] then spans
    else AddObjectSpans(AddAll(spans, ps[..|ps| - 1], a, kinds), ps[|ps| - 1], a, kinds)
  }

  /** `removeObject` for each plot of `ps`, in order. */
  function RemoveAll(spans: seq<Span>, ps: seq<PlotId>, kinds: set<PlotId>): seq<Span>
    decreases |ps|
  {
    if ps == [] then spans
    else RemoveObjectSpans(RemoveAll(spans, ps[..|ps| - 1], kinds), ps[|ps| - 1], kinds)
  }

  /** `updatePlotList` of the group: the list update of `SciQLopMultiPlotObject`, with the
    * group's `addObject` for each plot appended and its `removeObject` for each plot removed. */
  function UpdateStep(g: Group, newPlots: seq<PlotId>, kinds: set<PlotId>): Group
  {
    var appended := Appended(g.plots, newPlots);
    var grown := AddAll(g.spans, Additions(g.plots, newPlots), g.attrs, kinds);
    g.(plots := Kept(appended, Gone(newPlots)),
       spans := RemoveAll(grown, Removed(appended, newPlots), kinds))
  }

  lemma NoDuplicatesSnoc(s: seq<PlotId>, p: PlotId)
    requires NoDuplicates(s) && p !in s
    ensures NoDuplicates(s + [p])
  {
  }

  lemma NoDuplicatesSplit(a: seq<PlotId>, b: seq<PlotId>)
    requires NoDuplicates(a + b)
    ensures NoDuplicates(a) && NoDuplicates(b) && forall x :: x in b ==> x !in a
  {
    forall i, j | 0 <= i < j < |b|
      ensures b[i] != b[j]
    {
      assert (a + b)[|a| + i] == b[i] && (a + b)[|a| + j] == b[j];
    }
    forall x | x in b
      ensures x !in a
    {
      var j :| 0 <= j < |b| && b[j] == x;
      assert (a + b)[|a| + j] == x;
      forall i | 0 <= i < |a|
        ensures a[i] != x
      {
        assert (a + b)[i] == a[i];
      }
    }
    forall i, j | 0 <= i < j < |a|
      ensures a[i] != a[j]
    {
      assert (a + b)[i] == a[i] && (a + b)[j] == a[j];
    }
  }

  /** Appending spans for plots the group has no span on, each once, keeps one span per plot:
    * the spans are those there were and one for each `SciQLopPlot` of `ps`, each new span
    * carrying the attributes. */
  lemma {:induction false} AddAllProperties(spans: seq<Span>, ps: seq<PlotId>, a: Attributes, kinds: set<PlotId>)
    requires NoDuplicates(SpanPlots(spans)) && NoDuplicates(ps)
    requires forall p :: p in ps ==> p !in SpanPlots(spans)
    ensures NoDuplicates(SpanPlots(AddAll(spans, ps, a, kinds)))
    ensures forall q :: q in SpanPlots(AddAll(spans, ps, a, kinds)) <==>
                        q in SpanPlots(spans) || (q in ps && q in kinds)
    ensures forall sp :: sp in AddAll(spans, ps, a, kinds) ==> sp in spans || Synced(a, sp)
    decreases |ps|
  {
    if ps != [] {
      var init, p := ps[..|ps| - 1], ps[|ps| - 1];
      assert ps == init + [p];
      NoDuplicatesSplit(init, [p]);
      AddAllProperties(spans, init, a, kinds);
      var before := AddAll(spans, init, a, kinds);
      if p in kinds {
        SpanPlotsSnoc(before, NewSpan(p, a));
        NoDuplicatesSnoc(SpanPlots(before), p);
      }
    }
  }

  /** `SpanPlots` commutes with removing by plot, whether every entry is removed or the index
    * loop steps over some. */
  lemma {:induction false} SpanPlotsKept(spans: seq<Span>, d: PlotId -> bool)
    ensures SpanPlots(Kept(spans, Lift(d))) == Kept(SpanPlots(spans), d)
    decreases |spans|
  {
    if spans != [] {
      SpanPlotsTail(spans);
      SpanPlotsKept(spans[1..], d);
    }
  }

  lemma {:induction false} SpanPlotsSkip(spans: seq<Span>, d: PlotId -> bool)
    ensures SpanPlots(SkipRemoval(spans, Lift(d))) == SkipRemoval(SpanPlots(spans), d)
    decreases |spans|
  {
    if spans != [] {
      SpanPlotsTail(spans);
      if d(spans[0].plot) {
        if |spans| > 1 {
          assert spans[1..][1..] == spans[2..];
          assert SpanPlots(spans)[1..][1..] == SpanPlots(spans)[2..];
          SpanPlotsTail(spans[1..]);
          SpanPlotsSkip(spans[2..], d);
        }
      } else {
        SpanPlotsSkip(spans[1..], d);
      }
    }
  }

  /** With one span per plot, `removeObject(p)` removes exactly the span on `p`: the step-over
    * never skips a span that should go. */
  lemma RemoveOneProperties(spans: seq<Span>, p: PlotId)
    requires NoDuplicates(SpanPlots(spans))
    ensures SkipRemoval(spans, OnPlot(p)) == Kept(spans, OnPlot(p))
    ensures NoDuplicates(SpanPlots(SkipRemoval(spans, OnPlot(p))))
    ensures forall q :: q in SpanPlots(SkipRemoval(spans, OnPlot(p))) <==> q in SpanPlots(spans) && q != p
    ensures forall sp :: sp in SkipRemoval(spans, OnPlot(p)) ==> sp in spans
  {
    forall i | 0 <= i < |spans| - 1
      ensures !(OnPlot(p)(spans[i]) && OnPlot(p)(spans[i + 1]))
    {
      assert SpanPlots(spans)[i] != SpanPlots(spans)[i + 1];
    }
    SkipRemovalExactWhenApart(spans, OnPlot(p));
    SpanPlotsKept(spans, IsPlot(p));
    KeptNoDuplicates(SpanPlots(spans), IsPlot(p));
    KeptMembers(SpanPlots(spans), IsPlot(p));
    KeptMembers(spans, OnPlot(p));
  }

  /** Removing the spans of the plots of `ps` one plot at a time leaves one span per plot, on
    * exactly the plots that were not removed, and only spans there were. */
  lemma {:induction false} RemoveAllProperties(spans: seq<Span>, ps: seq<PlotId>, kinds: set<PlotId>)
    requires NoDuplicates(SpanPlots(spans))
    ensures NoDuplicates(SpanPlots(RemoveAll(spans, ps, kinds)))
    ensures forall q :: q in SpanPlots(RemoveAll(spans, ps, kinds)) <==>
                        q in SpanPlots(spans) && !(q in ps && q in kinds)
    ensures forall sp :: sp in RemoveAll(spans, ps, kinds) ==> sp in spans
    decreases |ps|
  {
    if ps != [] {
      var init, p := ps[..|ps| - 1], ps[|ps| - 1];
      assert forall q :: q in ps <==> q in init || q == p;
      RemoveAllProperties(spans, init, kinds);
      if p in kinds {
        RemoveOneProperties(RemoveAll(spans, init, kinds), p);
      }
    }
  }

  /** After `updatePlotList` the invariant holds again: the plot list is exactly the new one,
    * each plot once, and there is exactly one span on each `SciQLopPlot` of the new list and no
    * other, each with the group's attributes. */
  lemma UpdateKeepsValid(g: Group, newPlots: seq<PlotId>, kinds: set<PlotId>)
    requires GroupValid(g, kinds)
    ensures GroupValid(UpdateStep(g, newPlots, kinds), kinds)
    ensures forall p :: p in UpdateStep(g, newPlots, kinds).plots <==> p in newPlots
    ensures forall p :: p in SpanPlots(UpdateStep(g, newPlots, kinds).spans) <==> p in newPlots && p in kinds
    ensures UpdateStep(g, newPlots, kinds).attrs == g.attrs
  {
    var appended := Appended(g.plots, newPlots);
    var additions := Additions(g.plots, newPlots);
    AppendedProperties(g.plots, newPlots);
    NoDuplicatesSplit(g.plots, additions);
    AddAllProperties(g.spans, additions, g.attrs, kinds);
    var grown := AddAll(g.spans, additions, g.attrs, kinds);
    var removed := Removed(appended, newPlots);
    RemovedMembers(appended, newPlots);
    RemoveAllProperties(grown, removed, kinds);
    UpdateHoldsNewPlots(g.plots, newPlots);
  }

  /** A group that starts with no plot and follows a panel shows one span on each of the
    * panel's `SciQLopPlot`s. */
  lemma FromEmpty(a: Attributes, panelPlots: seq<PlotId>, kinds: set<PlotId>)
    ensures var g := UpdateStep(Group([], [], a, [], [], []), panelPlots, kinds);
            && GroupValid(g, kinds)
            && forall p :: p in SpanPlots(g.spans) <==> p in panelPlots && p in kinds
  {
    UpdateKeepsValid(Group([], [], a, [], [], []), panelPlots, kinds);
  }

  /** The index loop of `removeObject` on the spans of one plot. */
  method RemoveSpansOf(spans: seq<Span>, p: PlotId) returns (r: seq<Span>)
    ensures r == SkipRemoval(spans, OnPlot(p))
  {
    r := spans;
    var i := 0;
    while i < |r|
      invariant i <= |r| + 1
      invariant SkipState(r, i, OnPlot(p)) == SkipRemoval(spans, OnPlot(p))
      decreases |r| + 1 - i
    {
      SkipStep(r, i, OnPlot(p));
      if r[i].plot == p {
        r := RemoveAt(r, i);
      }
      i := i + 1;
    }
    if i == |r| {
      assert r[..i] == r && r[i..] == [];
    }
  }

  // ---- the group ----

  /** `MultiPlotsVerticalSpan`. `sciqlopPlots` are the plots whose dynamic type is
    * `SciQLopPlot`: only those get a span. */
  class MultiPlotsVSpan {
    const sciqlopPlots: set<PlotId>
    var plots: seq<PlotId>
    var spans: seq<Span>
    var range: SciQLopPlotRange
    var selected: bool
    var lowerSelected: bool
    var upperSelected: bool
    var visible: bool
    var readOnly: bool
    var color: Color
    var tooltip: string
    var replotted: seq<PlotId>
    var rangeSignals: seq<SciQLopPlotRange>
    var selectionSignals: seq<bool>

    function Attrs(): Attributes
      reads this
    {
      Attributes(range, selected, lowerSelected, upperSelected, visible, readOnly, color, tooltip)
    }

    function State(): Group
      reads this
    {
      Group(plots, spans, Attrs(), replotted, rangeSignals, selectionSignals)
    }

    ghost predicate Valid()
      reads this
    {
      GroupValid(State(), sciqlopPlots)
    }

    /** The constructor stores the range, colour, visibility, read-only flag and tooltip, with no
      * selection, and follows the panel's current plots. */
    constructor (panelPlots: seq<PlotId>, kinds: set<PlotId>, horizontalRange: SciQLopPlotRange,
                 c: Color, ro: bool, vis: bool, tip: string)
      ensures Valid() && sciqlopPlots == kinds
      ensures State() == UpdateStep(Group([], [], Attributes(horizontalRange, false, false, false, vis, ro, c, tip), [], [], []),
                                    panelPlots, kinds)
    {
      sciqlopPlots := kinds;
      plots, spans := [], [];
      range, selected, lowerSelected, upperSelected := horizontalRange, false, false, false;
      visible, readOnly, color, tooltip := vis, ro, c, tip;
      replotted, rangeSignals, selectionSignals := [], [], [];
      new;
      UpdateKeepsValid(State(), panelPlots, kinds);
      UpdatePlotList(panelPlots);
    }

    /** `addObject`. */
    method AddObject(p: PlotId)
      modifies this
      ensures State() == old(State()).(spans := AddObjectSpans(old(spans), p, Attrs(), sciqlopPlots))
    {
      if p in sciqlopPlots {
        spans := spans + [NewSpan(p, Attrs())];
      }
    }

    /** `removeObject`. */
    method RemoveObject(p: PlotId)
      modifies this
      ensures State() == old(State()).(spans := RemoveObjectSpans(old(spans), p, sciqlopPlots))
    {
      if p in sciqlopPlots {
        spans := RemoveSpansOf(spans, p);
      }
    }

    /** `updatePlotList`, inherited from `SciQLopMultiPlotObject` with the hooks above; its
      * second loop walks a copy of the list. */
    method UpdatePlotList(newPlots: seq<PlotId>)
      modifies this
      ensures State() == UpdateStep(old(State()), newPlots, sciqlopPlots)
    {
      AppendNew(newPlots);
      RemoveGone(newPlots);
    }

    method AppendNew(newPlots: seq<PlotId>)
      modifies this
      ensures State() == old(State()).(plots := Appended(old(plots), newPlots),
                                       spans := AddAll(old(spans), Additions(old(plots), newPlots), Attrs(), sciqlopPlots))
    {
      ghost var added: seq<PlotId> := [];
      for i := 0 to |newPlots|
        invariant plots == Appended(old(plots), newPlots[..i])
        invariant added == Additions(old(plots), newPlots[..i])
        invariant State() == old(State()).(plots := plots, spans := AddAll(old(spans), added, Attrs(), sciqlopPlots))
      {
        assert newPlots[..i + 1][..i] == newPlots[..i];
        if newPlots[i] !in plots {
          plots := plots + [newPlots[i]];
          assert (added + [newPlots[i]])[..|added|] == added;
          added := added + [newPlots[i]];
          AddObject(newPlots[i]);
        }
      }
      assert newPlots[..|newPlots|] == newPlots;
    }

    method RemoveGone(newPlots: seq<PlotId>)
      modifies this
      ensures State() == old(State()).(plots := Kept(old(plots), Gone(newPlots)),
                                       spans := RemoveAll(old(spans), Removed(old(plots), newPlots), sciqlopPlots))
    {
      var kept, removed := SplitGone(plots, newPlots);
      plots := kept;
      for i := 0 to |removed|
        invariant State() == old(State()).(plots := kept, spans := RemoveAll(old(spans), removed[..i], sciqlopPlots))
      {
        assert removed[..i + 1][..i] == removed[..i];
        RemoveObject(removed[i]);
      }
      assert removed[..|removed|] == removed;
    }

    /** `set_selected`. */
    method SetSelected(b: bool)
      requires Valid()
      modifies this
      ensures Valid() && State() == SetStep(old(State()), SelectedTo(b))
    {
      SetStepKeepsValid(State(), SelectedTo(b), sciqlopPlots);
      if selected != b {
        spans := PushToAll(spans, SelectedTo(b));
        replotted := replotted + plots;
        selected := b;
        selectionSignals := selectionSignals + [b];
      }
    }

    /** `set_range`. */
    method SetRange(r: SciQLopPlotRange)
      requires Valid()
      modifies this
      ensures Valid() && State() == SetStep(old(State()), RangeTo(r))
    {
      SetStepKeepsValid(State(), RangeTo(r), sciqlopPlots);
      if NotEqual(r, range) {
        spans := PushToAll(spans, RangeTo(r));
        range := r;
        rangeSignals := rangeSignals + [r];
      }
    }

    /** `set_visible`. */
    method SetVisible(b: bool)
      requires Valid()
      modifies this
      ensures Valid() && State() == SetStep(old(State()), VisibleTo(b))
    {
      SetStepKeepsValid(State(), VisibleTo(b), sciqlopPlots);
      if visible != b {
        spans := PushToAll(spans, VisibleTo(b));
        visible := b;
      }
    }

    /** `show`. */
    method Show()
      requires Valid()
      modifies this
      ensures Valid() && State() == SetStep(old(State()), VisibleTo(true))
    {
      SetVisible(true);
    }

    /** `hide`. */
    method Hide()
      requires Valid()
      modifies this
      ensures Valid() && State() == SetStep(old(State()), VisibleTo(false))
    {
      SetVisible(false);
    }

    /** `set_color`. */
    method SetColor(c: Color)
      requires Valid()
      modifies this
      ensures Valid() && State() == SetStep(old(State()), ColorTo(c))
    {
      SetStepKeepsValid(State(), ColorTo(c), sciqlopPlots);
      if color != c {
        spans := PushToAll(spans, ColorTo(c));
        color := c;
      }
    }

    /** `set_read_only`. */
    method SetReadOnly(b: bool)
      requires Valid()
      modifies this
      ensures Valid() && State() == SetStep(old(State()), ReadOnlyTo(b))
    {
      SetStepKeepsValid(State(), ReadOnlyTo(b), sciqlopPlots);
      if readOnly != b {
        spans := PushToAll(spans, ReadOnlyTo(b));
        readOnly := b;
      }
    }

    /** `set_tool_tip`. */
    method SetToolTip(t: string)
      requires Valid()
      modifies this
      ensures Valid() && State() == SetStep(old(State()), ToolTipTo(t))
    {
      SetStepKeepsValid(State(), ToolTipTo(t), sciqlopPlots);
      if tooltip != t {
        spans := PushToAll(spans, ToolTipTo(t));
        tooltip := t;
      }
    }

    /** `select_lower_border`. */
    method SelectLowerBorder(b: bool)
      requires Valid()
      modifies this
      ensures Valid() && State() == SetStep(old(State()), LowerSelectedTo(b))
    {
      SetStepKeepsValid(State(), LowerSelectedTo(b), sciqlopPlots);
      if lowerSelected != b {
        spans := PushToAll(spans, LowerSelectedTo(b));
        replotted := replotted + plots;
        lowerSelected := b;
      }
    }

    /** `select_upper_border`. */
    method SelectUpperBorder(b: bool)
      requires Valid()
      modifies this
      ensures Valid() && State() == SetStep(old(State()), UpperSelectedTo(b))
    {
      SetStepKeepsValid(State(), UpperSelectedTo(b), sciqlopPlots);
      if upperSelected != b {
        spans := PushToAll(spans, UpperSelectedTo(b));
        replotted := replotted + plots;
        upperSelected := b;
      }
    }

    /** `is_selected`, `range`, `is_visible`, `get_color`, `is_read_only`, `get_tool_tip`: the
      * stored attributes, which every span carries. */
    function Selected(): (b: bool)
      reads this
      ensures Valid() ==> forall sp :: sp in spans ==> sp.selected == b
    {
      selected
    }

    function Range(): (r: SciQLopPlotRange)
      reads this
      ensures Valid() ==> forall sp :: sp in spans ==> sp.range == r
    {
      range
    }

    function Visible(): (b: bool)
      reads this
      ensures Valid() ==> forall sp :: sp in spans ==> sp.visible == b
    {
      visible
    }

    function GetColor(): (c: Color)
      reads this
      ensures Valid() ==> forall sp :: sp in spans ==> sp.color == c
    {
      color
    }

    function ReadOnly(): (b: bool)
      reads this
      ensures Valid() ==> forall sp :: sp in spans ==> sp.readOnly == b
    {
      readOnly
    }

    function ToolTip(): (t: string)
      reads this
      ensures Valid() ==> forall sp :: sp in spans ==> sp.tooltip == t
    {
      tooltip
    }
  }

  // ---- the older group, with parallel lists ----

  /** The spans the older `update_plot_list` creates for the plots `ps`, in order: every plot
    * (a `QCustomPlot`) gets one. */
  function NewSpans(ps: seq<PlotId>, a: Attributes): (r: seq<Span>)
    ensures SpanPlots(r) == ps && forall sp :: sp in r ==> Synced(a, sp)
  {
    seq(|ps|, i requires 0 <= i < |ps| => NewSpan(ps[i], a))
  }

  lemma NewSpansSnoc(ps: seq<PlotId>, p: PlotId, a: Attributes)
    ensures NewSpans(ps + [p], a) == NewSpans(ps, a) + [NewSpan(p, a)]
  {
  }

  /** The span is on a plot the new list lacks. */
  function OffList(newPlots: seq<PlotId>): Span -> bool
  {
    Lift(Gone(newPlots))
  }

  /** The older `update_plot_list`, as written: its first loop appends a span and the plot for
    * each new plot; its second loop walks `_plots` by index and, for each plot the new list
    * lacks, removes position i from both lists and steps over the entry that moves into it.
    * The result is the spans and the plots. */
  function LegacyUpdate(spans: seq<Span>, plots: seq<PlotId>, newPlots: seq<PlotId>, a: Attributes): (seq<Span>, seq<PlotId>)
  {
    var grownSpans := spans + NewSpans(Additions(plots, newPlots), a);
    (SkipRemoval(grownSpans, OffList(newPlots)), SkipRemoval(Appended(plots, newPlots), Gone(newPlots)))
  }

  /** The two lists stay parallel, every plot of the new list ends up in the list with a span,
    * and no plot that is in neither list appears. */
  lemma LegacyUpdateAligned(spans: seq<Span>, plots: seq<PlotId>, newPlots: seq<PlotId>, a: Attributes)
    requires SpanPlots(spans) == plots
    ensures var r := LegacyUpdate(spans, plots, newPlots, a);
            && SpanPlots(r.0) == r.1
            && (forall p :: p in newPlots ==> p in r.1)
            && (forall p :: p in r.1 ==> p in plots || p in newPlots)
  {
    var additions := Additions(plots, newPlots);
    var grownSpans := spans + NewSpans(additions, a);
    var grownPlots := Appended(plots, newPlots);
    AppendedProperties(plots, newPlots);
    assert SpanPlots(grownSpans) == grownPlots;
    SpanPlotsSkip(grownSpans, Gone(newPlots));
    SkipRemovalKeepsKept(grownPlots, Gone(newPlots));
    KeptMembers(grownPlots, Gone(newPlots));
    KeptMembers(SkipRemoval(grownPlots, Gone(newPlots)), Gone(newPlots));
  }

  /** Two plots that leave together and sit next to each other: the second one keeps its place
    * and its span. */
  lemma LegacyUpdateLeavesStale(p: PlotId, q: PlotId, a: Attributes)
    requires p != q
    ensures LegacyUpdate([NewSpan(p, a), NewSpan(q, a)], [p, q], [], a) == ([NewSpan(q, a)], [q])
  {
    assert Appended([p, q], []) == [p, q];
    assert Additions([p, q], []) == [];
    assert NewSpans([], a) == [];
    assert [NewSpan(p, a), NewSpan(q, a)] + [] == [NewSpan(p, a), NewSpan(q, a)];
    SkipRemovalMissesSecond(NewSpan(p, a), NewSpan(q, a), OffList([]));
    SkipRemovalMissesSecond(p, q, Gone([]));
  }

  /** The older `update_plot_list` as intended: every entry on a plot the new list lacks goes. */
  function LegacyUpdateIntended(spans: seq<Span>, plots: seq<PlotId>, newPlots: seq<PlotId>, a: Attributes): (seq<Span>, seq<PlotId>)
  {
    var grownSpans := spans + NewSpans(Additions(plots, newPlots), a);
    (Kept(grownSpans, OffList(newPlots)), Kept(Appended(plots, newPlots), Gone(newPlots)))
  }

  /** As intended the lists stay parallel and hold exactly the plots of the new list, each
    * once. */
  lemma LegacyUpdateIntendedHoldsNewPlots(spans: seq<Span>, plots: seq<PlotId>, newPlots: seq<PlotId>, a: Attributes)
    requires SpanPlots(spans) == plots && NoDuplicates(plots)
    ensures var r := LegacyUpdateIntended(spans, plots, newPlots, a);
            && SpanPlots(r.0) == r.1
            && (forall p :: p in r.1 <==> p in newPlots)
            && NoDuplicates(r.1)
  {
    var grownSpans := spans + NewSpans(Additions(plots, newPlots), a);
    AppendedProperties(plots, newPlots);
    assert SpanPlots(grownSpans) == Appended(plots, newPlots);
    SpanPlotsKept(grownSpans, Gone(newPlots));
    UpdateHoldsNewPlots(plots, newPlots);
  }

  /** The second loop of the older `update_plot_list`, on the two parallel lists. */
  method RemoveAbsentPairs(spans: seq<Span>, plots: seq<PlotId>, newPlots: seq<PlotId>) returns (s: seq<Span>, ps: seq<PlotId>)
    requires SpanPlots(spans) == plots
    ensures s == SkipRemoval(spans, OffList(newPlots)) && ps == SkipRemoval(plots, Gone(newPlots))
  {
    s, ps := spans, plots;
    var i := 0;
    while i < |ps|
      invariant SpanPlots(s) == ps && i <= |ps| + 1
      invariant SkipState(s, i, OffList(newPlots)) == SkipRemoval(spans, OffList(newPlots))
      invariant SkipState(ps, i, Gone(newPlots)) == SkipRemoval(plots, Gone(newPlots))
      decreases |ps| + 1 - i
    {
      SkipStep(s, i, OffList(newPlots));
      SkipStep(ps, i, Gone(newPlots));
      if ps[i] !in newPlots {
        s := RemoveAt(s, i);
        ps := RemoveAt(ps, i);
        assert SpanPlots(s) == ps;
      }
      i := i + 1;
    }
    if i == |ps| {
      assert s[..i] == s && s[i..] == [];
      assert ps[..i] == ps && ps[i..] == [];
    }
  }

  /** The older `MultiPlotsVerticalSpan`: `_spans` and `_plots` side by side, and the
    * attributes given to every span it creates. */
  class LegacyMultiSpan {
    var spans: seq<Span>
    var plots: seq<PlotId>
    var attrs: Attributes

    /** Span i is on plot i. */
    ghost predicate Valid()
      reads this
    {
      SpanPlots(spans) == plots
    }

    /** `update_plot_list`. */
    method UpdatePlotList(newPlots: seq<PlotId>)
      requires Valid()
      modifies this
      ensures Valid() && (spans, plots) == LegacyUpdate(old(spans), old(plots), newPlots, attrs)
      ensures attrs == old(attrs)
    {
      AppendNew(newPlots);
      AppendedProperties(old(plots), newPlots);
      spans, plots := RemoveAbsentPairs(spans, plots, newPlots);
      LegacyUpdateAligned(old(spans), old(plots), newPlots, attrs);
    }

    /** The first loop of `update_plot_list`. */
    method AppendNew(newPlots: seq<PlotId>)
      modifies this
      ensures plots == Appended(old(plots), newPlots)
      ensures spans == old(spans) + NewSpans(Additions(old(plots), newPlots), attrs)
      ensures attrs == old(attrs)
    {
      ghost var added: seq<PlotId> := [];
      for i := 0 to |newPlots|
        invariant plots == Appended(old(plots), newPlots[..i])
        invariant added == Additions(old(plots), newPlots[..i])
        invariant spans == old(spans) + NewSpans(added, attrs) && attrs == old(attrs)
      {
        assert newPlots[..i + 1][..i] == newPlots[..i];
        if newPlots[i] !in plots {
          spans := spans + [NewSpan(newPlots[i], attrs)];
          plots := plots + [newPlots[i]];
          assert (added + [newPlots[i]])[..|added|] == added;
          NewSpansSnoc(added, newPlots[i], attrs);
          added := added + [newPlots[i]];
        }
      }
      assert newPlots[..|newPlots|] == newPlots;
    }
  }
}
