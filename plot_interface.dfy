/** `SciQLopPlotInterface`: the axis lookups, the auto-scale and toggle-log shortcuts, the routing
  * of `line`/`scatter`/`parametric_curve` to `plot_impl`, `freeze_axis` and the
  * change-only `set_selected`. Axes are identified by number; their names and log flags are the
  * state the code reads. */
module PlotInterface {
  import opened Common
  import opened QcpEnums
  import opened PlotDispatch

  type AxisId = nat

  datatype AxisType = NoneAxis | XAxis | YAxis | ZAxis | TimeAxis

  /** `Qt::AnchorPoint`. */
  datatype AnchorPoint = AnchorLeft | AnchorHorizontalCenter | AnchorRight | AnchorTop
                       | AnchorVerticalCenter | AnchorBottom

  /** The axes a plot exposes (`None`: the accessor returns null). */
  datatype Axes = Axes(time: Option<AxisId>, x: Option<AxisId>, y: Option<AxisId>,
                       z: Option<AxisId>, x2: Option<AxisId>, y2: Option<AxisId>)

  /** `axis(AxisType)`. */
  function AxisByType(a: Axes, t: AxisType): (r: Option<AxisId>)
    ensures t == NoneAxis ==> r.None?
  {
    match t
    case TimeAxis => a.time
    case XAxis => a.x
    case YAxis => a.y
    case ZAxis => a.z
    case NoneAxis => None
  }

  /** `axis(anchor, index)`: only index 0 answers. */
  function AxisByAnchor(a: Axes, pos: AnchorPoint, index: int): (r: Option<AxisId>)
    ensures index != 0 ==> r.None?
    ensures pos in {AnchorHorizontalCenter, AnchorVerticalCenter} ==> r.None?
  {
    if index != 0 then None
    else match pos
      case AnchorBottom => a.x
      case AnchorLeft => a.y
      case AnchorRight => a.y2
      case AnchorTop => a.x2
      case _ => None
  }

  /** `axis(name)`: the first of x, y, z, x2, y2 that exists and carries that name. */
  function AxisByName(a: Axes, names: map<AxisId, string>, name: string): (r: Option<AxisId>)
  {
    var order := [a.x, a.y, a.z, a.x2, a.y2];
    FirstNamed(order, names, name)
  }

  function FirstNamed(axes: seq<Option<AxisId>>, names: map<AxisId, string>, name: string): (r: Option<AxisId>)
    ensures r.Some? ==> Some(r.value) in axes && r.value in names && names[r.value] == name
    ensures r.Some? <==> exists i :: 0 <= i < |axes| && Named(axes[i], names, name)
  {
    if axes == [] then None
    else if Named(axes[0], names, name) then axes[0]
    else
      var r := FirstNamed(axes[1..], names, name);
      assert forall i :: 1 <= i < |axes| ==> axes[i] == axes[1..][i - 1];
      r
  }

  predicate Named(ax: Option<AxisId>, names: map<AxisId, string>, name: string)
  {
    ax.Some? && ax.value in names && names[ax.value] == name
  }

  /** The lookups by type and by anchor give the documented axis. */
  lemma AxisLookups(a: Axes)
    ensures AxisByType(a, TimeAxis) == a.time && AxisByType(a, XAxis) == a.x
    ensures AxisByType(a, YAxis) == a.y && AxisByType(a, ZAxis) == a.z
    ensures AxisByAnchor(a, AnchorBottom, 0) == a.x && AxisByAnchor(a, AnchorLeft, 0) == a.y
    ensures AxisByAnchor(a, AnchorRight, 0) == a.y2 && AxisByAnchor(a, AnchorTop, 0) == a.x2
  {
  }

  /** The name lookup prefers x, then y, z, x2 and y2. */
  lemma AxisByNameOrder(a: Axes, names: map<AxisId, string>, name: string)
    ensures Named(a.x, names, name) ==> AxisByName(a, names, name) == a.x
    ensures !Named(a.x, names, name) && Named(a.y, names, name) ==> AxisByName(a, names, name) == a.y
    ensures AxisByName(a, names, name).None? <==>
              !Named(a.x, names, name) && !Named(a.y, names, name) && !Named(a.z, names, name) &&
              !Named(a.x2, names, name) && !Named(a.y2, names, name)
  {
    var order := [a.x, a.y, a.z, a.x2, a.y2];
    assert order[1..] == [a.y, a.z, a.x2, a.y2];
    if !Named(a.x, names, name) {
      assert AxisByName(a, names, name) == FirstNamed(order[1..], names, name);
    }
    if AxisByName(a, names, name).Some? {
      var i :| 0 <= i < |order| && Named(order[i], names, name);
      assert order[i] in {a.x, a.y, a.z, a.x2, a.y2};
    }
    if Named(a.x, names, name) { assert Named(order[0], names, name); }
    if Named(a.y, names, name) { assert Named(order[1], names, name); }
    if Named(a.z, names, name) { assert Named(order[2], names, name); }
    if Named(a.x2, names, name) { assert Named(order[3], names, name); }
    if Named(a.y2, names, name) { assert Named(order[4], names, name); }
  }

  /** `s` without any occurrence of the axes in `frozen`, in order. */
  function Without(s: seq<AxisId>, frozen: seq<AxisId>): seq<AxisId>
  {
    if s == [] then []
    else if s[0] in frozen then Without(s[1..], frozen)
    else [s[0]] + Without(s[1..], frozen)
  }

  /** Exactly the axes of `s` that are not frozen are kept, and no axis is gained. */
  lemma {:induction false} WithoutMembers(s: seq<AxisId>, frozen: seq<AxisId>)
    ensures forall x :: x in Without(s, frozen) <==> x in s && x !in frozen
    ensures |Without(s, frozen)| <= |s|
  {
    if s != [] {
      WithoutMembers(s[1..], frozen);
      assert forall x :: x in s <==> x == s[0] || x in s[1..];
    }
  }

  /** `QList::removeAll(ax)`. */
  function RemoveAll(s: seq<AxisId>, ax: AxisId): (r: seq<AxisId>)
    ensures r == Without(s, [ax])
  {
    if s == [] then []
    else if s[0] == ax then RemoveAll(s[1..], ax)
    else [s[0]] + RemoveAll(s[1..], ax)
  }

  lemma {:induction false} WithoutAppend(s: seq<AxisId>, frozen: seq<AxisId>, ax: AxisId)
    ensures Without(Without(s, frozen), [ax]) == Without(s, frozen + [ax])
  {
    if s != [] {
      WithoutAppend(s[1..], frozen, ax);
      if s[0] !in frozen {
        assert ([s[0]] + Without(s[1..], frozen))[1..] == Without(s[1..], frozen);
      }
    }
  }

  /** The axes the `M` shortcut rescales: the axis under the cursor, else the selected axes,
    * else the plot's default list, with every frozen axis removed. */
  method AutoScaleTargets(underCursor: Option<AxisId>, selectedAxes: seq<AxisId>,
                          axesToRescale: seq<AxisId>, frozen: seq<AxisId>) returns (r: seq<AxisId>)
    ensures var chosen := if underCursor.Some? then [underCursor.value]
                          else if selectedAxes != [] then selectedAxes else axesToRescale;
            r == Without(chosen, frozen)
  {
    var axes: seq<AxisId> := [];
    if underCursor.Some? {
      axes := axes + [underCursor.value];
    } else {
      axes := selectedAxes;
    }
    if axes == [] {
      r := axesToRescale;
    } else {
      r := axes;
    }
    ghost var chosen := r;
    assert Without(chosen, []) == chosen by { WithoutNothing(chosen); }
    var i := 0;
    while i < |frozen|
      invariant i <= |frozen|
      invariant r == Without(chosen, frozen[..i])
    {
      WithoutAppend(chosen, frozen[..i], frozen[i]);
      assert frozen[..i + 1] == frozen[..i] + [frozen[i]];
      r := RemoveAll(r, frozen[i]);
      i := i + 1;
    }
    assert frozen[..i] == frozen;
  }

  lemma {:induction false} WithoutNothing(s: seq<AxisId>)
    ensures Without(s, []) == s
  {
    if s != [] {
      WithoutNothing(s[1..]);
    }
  }

  /** A frozen axis is never rescaled, and an axis under the cursor that is not frozen is the
    * only one rescaled. */
  lemma AutoScaleNeverFrozen(chosen: seq<AxisId>, frozen: seq<AxisId>, ax: AxisId)
    ensures ax in frozen ==> ax !in Without(chosen, frozen)
    ensures ax !in frozen ==> Without([ax], frozen) == [ax]
  {
    WithoutMembers(chosen, frozen);
    assert Without([ax], frozen) == (if ax in frozen then [] else [ax]) + Without([], frozen);
  }

  /** The log flags after the `L` shortcut flipped each target axis in turn. */
  function Toggled(logs: map<AxisId, bool>, targets: seq<AxisId>): map<AxisId, bool>
    decreases |targets|
  {
    if targets == [] then logs
    else
      var ax := targets[0];
      Toggled(logs[ax := !(ax in logs && logs[ax])], targets[1..])
  }

  /** With distinct targets every targeted axis is flipped and every other axis kept. */
  lemma {:induction false} ToggledFlipsTargets(logs: map<AxisId, bool>, targets: seq<AxisId>, ax: AxisId)
    requires forall i, j :: 0 <= i < j < |targets| ==> targets[i] != targets[j]
    ensures ax in targets ==> ax in Toggled(logs, targets) && Toggled(logs, targets)[ax] == !(ax in logs && logs[ax])
    ensures ax !in targets && ax in logs ==> ax in Toggled(logs, targets) && Toggled(logs, targets)[ax] == logs[ax]
    ensures ax !in targets && ax !in logs ==> ax !in Toggled(logs, targets)
    decreases |targets|
  {
    if targets != [] {
      var t := targets[0];
      var next := logs[t := !(t in logs && logs[t])];
      ToggledFlipsTargets(next, targets[1..], ax);
      if ax == t {
        assert ax !in targets[1..];
      }
    }
  }

  /** The `L` shortcut: the axis under the cursor, else the selected axes. */
  function ToggleLogTargets(underCursor: Option<AxisId>, selectedAxes: seq<AxisId>): seq<AxisId>
  {
    if underCursor.Some? then [underCursor.value] else selectedAxes
  }

  /** What a call of `plot_impl` receives from the public entry points. */
  datatype ImplRequest = ImplRequest(graphType: GraphType, marker: GraphMarkerShape,
                                     metaData: map<string, int>)

  datatype DataSource = FromBuffers | FromCallable

  /** `line`, `scatter` and `parametric_curve`. The buffer form of `line` does not forward its
    * `metaData`. */
  function LineRequest(src: DataSource, marker: GraphMarkerShape, metaData: map<string, int>): ImplRequest
  {
    ImplRequest(GraphType.Line, marker, if src == FromBuffers then map[] else metaData)
  }

  function ScatterRequest(src: DataSource, marker: GraphMarkerShape, metaData: map<string, int>): ImplRequest
  {
    ImplRequest(Scatter, marker, metaData)
  }

  function ParametricCurveRequest(src: DataSource, marker: GraphMarkerShape, metaData: map<string, int>): ImplRequest
  {
    ImplRequest(ParametricCurve, marker, metaData)
  }

  /** The default markers: none for lines and curves, a cross for scatters. */
  const DefaultLineMarker: GraphMarkerShape := NoMarker
  const DefaultScatterMarker: GraphMarkerShape := Cross

  lemma RoutingTable(src: DataSource, marker: GraphMarkerShape, meta: map<string, int>)
    ensures LineRequest(src, marker, meta).graphType == GraphType.Line
    ensures ScatterRequest(src, marker, meta).graphType == Scatter
    ensures ParametricCurveRequest(src, marker, meta).graphType == ParametricCurve
    ensures LineRequest(src, marker, meta).marker == ScatterRequest(src, marker, meta).marker == marker
    ensures LineRequest(FromBuffers, marker, meta).metaData == map[]
    ensures LineRequest(FromCallable, marker, meta).metaData == meta
    ensures ScatterRequest(src, marker, meta).metaData == ParametricCurveRequest(src, marker, meta).metaData == meta
  {
  }

  const SelectedStyle := "border: 2px solid black;border-style: dashed;"
  const UnselectedStyle := "border: 0px;"

  class Plot {
    var axes: Axes
    var axisNames: map<AxisId, string>
    var logs: map<AxisId, bool>
    var axesToRescale: seq<AxisId>
    var frozenAxes: seq<AxisId>
    /** `m_selected` with its `selection_changed` emissions. */
    var selected: Notified<bool>
    var styleSheet: string

    /** The stylesheet shows the dashed border exactly when the plot is selected. */
    predicate Valid() reads this
    {
      styleSheet == if selected.value then SelectedStyle else UnselectedStyle
    }

    constructor (axes: Axes, names: map<AxisId, string>, toRescale: seq<AxisId>)
      ensures Valid() && this.axes == axes && axisNames == names && axesToRescale == toRescale
      ensures frozenAxes == [] && selected == Notified(false, [])
    {
      this.axes := axes;
      axisNames := names;
      logs := map[];
      axesToRescale := toRescale;
      frozenAxes := [];
      selected := Notified(false, []);
      styleSheet := UnselectedStyle;
    }

    /** `freeze_axis`. */
    method FreezeAxis(ax: AxisId)
      modifies this
      ensures frozenAxes == old(frozenAxes) + [ax]
      ensures axes == old(axes) && axesToRescale == old(axesToRescale) && selected == old(selected)
      ensures styleSheet == old(styleSheet) && logs == old(logs) && axisNames == old(axisNames)
    {
      frozenAxes := frozenAxes + [ax];
    }

    /** `set_selected`. */
    method SetSelected(s: bool)
      requires Valid()
      modifies this
      ensures Valid()
      ensures selected == SetNotified(old(selected), s)
      ensures axes == old(axes) && frozenAxes == old(frozenAxes) && logs == old(logs)
    {
      if selected.value != s {
        selected := Notified(s, selected.emitted + [s]);
        if s {
          styleSheet := SelectedStyle;
        } else {
          styleSheet := UnselectedStyle;
        }
      }
    }

    /** The `L` shortcut's action: `set_log(!log())` on each target. */
    method ToggleLog(underCursor: Option<AxisId>, selectedAxes: seq<AxisId>)
      modifies this
      ensures logs == Toggled(old(logs), ToggleLogTargets(underCursor, selectedAxes))
      ensures axes == old(axes) && selected == old(selected) && styleSheet == old(styleSheet)
      ensures frozenAxes == old(frozenAxes)
    {
      var targets := ToggleLogTargets(underCursor, selectedAxes);
      var i := 0;
      while i < |targets|
        invariant i <= |targets|
        invariant Toggled(logs, targets[i..]) == Toggled(old(logs), targets)
        invariant axes == old(axes) && selected == old(selected) && styleSheet == old(styleSheet)
        invariant frozenAxes == old(frozenAxes)
      {
        var ax := targets[i];
        assert targets[i..][1..] == targets[i + 1..];
        logs := logs[ax := !(ax in logs && logs[ax])];
        i := i + 1;
      }
    }
  }
}
