/** `SciQLopGraphComponent`: one QCustomPlot plottable (a graph, a curve or another kind) seen
  * through a guarded pointer, plus the scatter-shape mapping it uses. */
module GraphComponent {
  import opened Common
  import opened QtTypes
  import opened QcpEnums

  /** `_to_qcp_scatter_shape`: only six shapes are passed on, every other one becomes `ssNone`. */
  function ToQcpScatterShape(m: GraphMarkerShape): ScatterShape
  {
    match m
    case Circle => SsCircle
    case Square => SsSquare
    case Triangle => SsTriangle
    case Diamond => SsDiamond
    case Star => SsStar
    case Plus => SsPlus
    case _ => SsNone
  }

  /** `_from_qcp_scatter_style`. */
  function FromQcpScatterStyle(s: ScatterShape): GraphMarkerShape
  {
    match s
    case SsCircle => Circle
    case SsSquare => Square
    case SsTriangle => Triangle
    case SsDiamond => Diamond
    case SsStar => Star
    case SsPlus => Plus
    case _ => NoMarker
  }

  predicate Supported(m: GraphMarkerShape)
  {
    m == Circle || m == Square || m == Triangle || m == Diamond || m == Star || m == Plus
  }

  datatype PlottableKind = GraphKind | CurveKind | OtherKind

  /** `QCPScatterStyle`: shape and pen. */
  datatype ScatterStyle = ScatterStyle(shape: ScatterShape, pen: Pen)

  /** The fields of a `QCPAbstractPlottable` the component touches. Only graphs and curves have
    * a scatter style. */
  datatype Plottable = Plottable(kind: PlottableKind, pen: Pen, scatter: ScatterStyle, visible: bool)

  /** The plottable after `set_marker_shape(m)`: graphs and curves get the converted shape, other
    * plottables are left alone (the `std::monostate` branch). */
  function WithMarkerShape(p: Plottable, m: GraphMarkerShape): Plottable
  {
    if p.kind == OtherKind then p else p.(scatter := p.scatter.(shape := ToQcpScatterShape(m)))
  }

  /** The plottable after `set_marker_pen(pen)`. */
  function WithMarkerPen(p: Plottable, pen: Pen): Plottable
  {
    if p.kind == OtherKind then p else p.(scatter := p.scatter.(pen := pen))
  }

  /** What `marker_shape()` returns: the `std::visit` result is discarded, so the function falls
    * through to `NoMarker` whatever the plottable holds. */
  function MarkerShapeAsWritten(p: Option<Plottable>): GraphMarkerShape
  {
    if p.Some? then
      var _ := if p.value.kind == OtherKind then NoMarker
               else FromQcpScatterStyle(p.value.scatter.shape);
      NoMarker
    else NoMarker
  }

  /** What `marker_shape()` evidently means to return: the shape read back from the scatter
    * style of a graph or curve, `NoMarker` otherwise. */
  function MarkerShape(p: Option<Plottable>): GraphMarkerShape
  {
    if p.Some? && p.value.kind != OtherKind then FromQcpScatterStyle(p.value.scatter.shape)
    else NoMarker
  }

  /** `marker_pen()` as written: like `marker_shape()`, always a default pen. */
  function MarkerPenAsWritten(p: Option<Plottable>): Pen
  {
    DefaultPen
  }

  /** `marker_pen()` as evidently intended. */
  function MarkerPen(p: Option<Plottable>): Pen
  {
    if p.Some? && p.value.kind != OtherKind then p.value.scatter.pen else DefaultPen
  }

  class Component {
    /** `m_plottable`; `None` once the plottable is destroyed. */
    var plottable: Option<Plottable>
    var selected: bool

    constructor (p: Option<Plottable>)
      ensures plottable == p && !selected
    {
      plottable, selected := p, false;
    }

    /** `set_pen`. */
    method SetPen(pen: Pen)
      modifies this
      ensures plottable == if old(plottable).Some? then Some(old(plottable).value.(pen := pen)) else None
      ensures selected == old(selected)
    {
      if plottable.Some? {
        plottable := Some(plottable.value.(pen := pen));
      }
    }

    /** `set_color`: only the pen's colour changes. */
    method SetColor(color: Color)
      modifies this
      ensures plottable.Some? <==> old(plottable).Some?
      ensures plottable.Some? ==> plottable.value == old(plottable).value.(pen := WithColor(old(plottable).value.pen, color))
      ensures selected == old(selected)
    {
      if plottable.Some? {
        var pen := plottable.value.pen;
        pen := WithColor(pen, color);
        plottable := Some(plottable.value.(pen := pen));
      }
    }

    /** `set_marker_shape`. */
    method SetMarkerShape(m: GraphMarkerShape)
      modifies this
      ensures plottable == if old(plottable).Some? then Some(WithMarkerShape(old(plottable).value, m)) else None
      ensures selected == old(selected)
    {
      if plottable.Some? {
        plottable := Some(WithMarkerShape(plottable.value, m));
      }
    }

    /** `set_marker_pen`. */
    method SetMarkerPen(pen: Pen)
      modifies this
      ensures plottable == if old(plottable).Some? then Some(WithMarkerPen(old(plottable).value, pen)) else None
      ensures selected == old(selected)
    {
      if plottable.Some? {
        plottable := Some(WithMarkerPen(plottable.value, pen));
      }
    }

    /** `line_width()`: the pen width, or 0 without a plottable. */
    function LineWidth(): (w: real) reads this
      ensures plottable.None? ==> w == 0.0
      ensures plottable.Some? ==> w == plottable.value.pen.width
    {
      if plottable.Some? then plottable.value.pen.width else 0.0
    }

    /** `visible()`: false without a plottable. */
    function Visible(): (v: bool) reads this
      ensures v <==> plottable.Some? && plottable.value.visible
    {
      plottable.Some? && plottable.value.visible
    }
  }

  // ---- properties ----

  /** The six shapes the scatter mapping knows survive the round trip; every other shape,
    * `Cross` and `Dot` included, goes to `ssNone` and comes back as `NoMarker`. */
  lemma ScatterShapeRoundTrip(m: GraphMarkerShape)
    ensures Supported(m) ==> FromQcpScatterStyle(ToQcpScatterShape(m)) == m
    ensures !Supported(m) ==> ToQcpScatterShape(m) == SsNone && FromQcpScatterStyle(ToQcpScatterShape(m)) == NoMarker
  {
  }

  /** Unknown QCustomPlot shapes read as `NoMarker`. */
  lemma ScatterStyleUnknown(s: ScatterShape)
    ensures FromQcpScatterStyle(s) == NoMarker <==> s !in {SsCircle, SsSquare, SsTriangle, SsDiamond, SsStar, SsPlus}
  {
  }

  /** As written, a shape set on a graph is not read back: `marker_shape()` stays `NoMarker`. */
  lemma MarkerShapeIsLost(p: Plottable)
    requires p.kind == GraphKind
    ensures MarkerShapeAsWritten(Some(WithMarkerShape(p, Circle))) == NoMarker
    ensures MarkerShape(Some(WithMarkerShape(p, Circle))) == Circle
  {
  }

  /** The intended getter reads back every supported shape set on a graph or curve, and the
    * intended pen getter the pen. */
  lemma MarkerRoundTripIntended(p: Plottable, m: GraphMarkerShape, pen: Pen)
    requires p.kind != OtherKind
    ensures Supported(m) ==> MarkerShape(Some(WithMarkerShape(p, m))) == m
    ensures !Supported(m) ==> MarkerShape(Some(WithMarkerShape(p, m))) == NoMarker
    ensures MarkerPen(Some(WithMarkerPen(p, pen))) == pen
  {
  }

  /** As written, the marker pen getter ignores the pen that was set. */
  lemma MarkerPenIsLost(p: Plottable)
    requires p.kind == CurveKind
    ensures MarkerPenAsWritten(Some(WithMarkerPen(p, Pen(Gray, 3.0, DashLine)))) != Pen(Gray, 3.0, DashLine)
  {
  }

  /** Setting the marker shape or pen never touches the line pen or the visibility. */
  lemma MarkerSettersKeepPen(p: Plottable, m: GraphMarkerShape, pen: Pen)
    ensures WithMarkerShape(p, m).pen == p.pen && WithMarkerShape(p, m).visible == p.visible
    ensures WithMarkerPen(p, pen).pen == p.pen && WithMarkerPen(p, pen).scatter.shape == p.scatter.shape
  {
  }
}
