/** The tracer (`src/SciQLopTracer.cpp`, `Items/SciQLopTracer.hpp`): the data locator that
  * finds the data point under the mouse, the snapping of a colour-map position to the centre of
  * its cell, the quadrant of the axis rect the mouse is in, and the tooltip that follows it. */
module Tracer {
  import opened Common
  import opened QtTypes
  import opened QcpEnums

  /** `PlotableType`. */
  datatype PlotableType = Graph | Curve | ColorMap | NoPlotable

  /** `PlotQuadrant`. */
  datatype PlotQuadrant = TopLeft | TopRight | BottomLeft | BottomRight | NoQuadrant

  predicate OnLeft(q: PlotQuadrant) { q == TopLeft || q == BottomLeft }

  predicate OnTop(q: PlotQuadrant) { q == TopLeft || q == TopRight }

  // ---- snapping to a grid ----

  function FloorD(a: Double): Double
  {
    if a.Some? then D(a.value.Floor as real) else NaN
  }

  /** `_discretize`: the width of one of `count` bins of `[lower, upper]` is `q`, and the value
    * is replaced by the centre of its bin, `(floor((value - lower) / q) + 0.5) * q + lower`. A
    * zero `count` gives an infinite width and a zero width a NaN, both NaN here. */
  function Discretize(value: Double, lower: Double, upper: Double, count: int): (r: Double)
    ensures r.Some? <==> value.Some? && lower.Some? && upper.Some? && count != 0 && upper.value != lower.value
  {
    var q := Div(Sub(upper, lower), D(count as real));
    Add(Mul(Add(FloorD(Div(Sub(value, lower), q)), D(0.5)), q), lower)
  }

  lemma DivCancel(x: real, q: real)
    requires q != 0.0
    ensures (x * q) / q == x && (x / q) * q == x
  {
  }

  lemma DivNonZero(a: real, c: real)
    requires a != 0.0 && c != 0.0
    ensures a / c != 0.0
  {
    DivCancel(a, c);
  }

  lemma DivOf(m: real, x: real, q: real)
    requires q != 0.0 && m == x * q
    ensures m / q == x
  {
    DivCancel(x, q);
  }

  lemma MulLe(a: real, b: real, q: real)
    requires a <= b && q > 0.0
    ensures a * q <= b * q
  {
  }

  lemma MulLt(a: real, b: real, q: real)
    requires a < b && q > 0.0
    ensures a * q < b * q
  {
  }

  lemma DivLe(x: real, y: real, b: real)
    requires x <= y && b > 0.0
    ensures x / b <= y / b
  {
    DivCancel(x, b);
    DivCancel(y, b);
    if x / b > y / b {
      MulLt(y / b, x / b, b);
    }
  }

  lemma DivLt(x: real, y: real, b: real)
    requires x < y && b > 0.0
    ensures x / b < y / b
  {
    DivCancel(x, b);
    DivCancel(y, b);
    if x / b >= y / b {
      MulLe(y / b, x / b, b);
    }
  }

  /** `x` lies in the bin of its quotient by `q` rounded down to `k`. */
  lemma BinOf(x: real, q: real, k: real)
    requires q != 0.0 && k <= x / q < k + 1.0
    ensures q > 0.0 ==> k * q <= x < k * q + q
    ensures q < 0.0 ==> k * q + q < x <= k * q
  {
    var t := x / q;
    DivCancel(x, q);
    if q > 0.0 {
      MulLe(k, t, q);
      MulLt(t, k + 1.0, q);
      assert (k + 1.0) * q == k * q + q;
      assert k * q <= t * q;
      assert t * q == x;
      assert t * q < (k + 1.0) * q;
      assert x < k * q + q;
    } else {
      MulLe(k, t, -q);
      MulLt(t, k + 1.0, -q);
      assert (k + 1.0) * -q == -(k * q + q);
      assert k * -q == -(k * q);
      assert t * -q == -x;
    }
  }

  /** The discretized value is the centre of the bin of `value`: it is at most half a bin away
    * from it, with the bin closed on the side of `lower`. */
  lemma DiscretizeNearest(value: real, lower: real, upper: real, count: int)
    requires count != 0 && upper != lower
    ensures var r := Discretize(D(value), D(lower), D(upper), count);
            var q := (upper - lower) / count as real;
            && r.Some?
            && (q > 0.0 ==> r.value - q / 2.0 <= value < r.value + q / 2.0)
            && (q < 0.0 ==> r.value + q / 2.0 < value <= r.value - q / 2.0)
  {
    var q := (upper - lower) / count as real;
    DivNonZero(upper - lower, count as real);
    var k := ((value - lower) / q).Floor as real;
    BinOf(value - lower, q, k);
    assert (k + 0.5) * q == k * q + q / 2.0;
  }

  /** A bin centre is its own bin's centre: discretizing twice is discretizing once. */
  lemma DiscretizeIdempotent(value: Double, lower: Double, upper: Double, count: int)
    ensures Discretize(Discretize(value, lower, upper, count), lower, upper, count) == Discretize(value, lower, upper, count)
  {
    var r := Discretize(value, lower, upper, count);
    if r.Some? {
      var q := (upper.value - lower.value) / count as real;
      DivNonZero(upper.value - lower.value, count as real);
      var k := ((value.value - lower.value) / q).Floor;
      assert r.value == (k as real + 0.5) * q + lower.value;
      var m := r.value - lower.value;
      assert m == (k as real + 0.5) * q;
      DivOf(m, k as real + 0.5, q);
      assert (k as real + 0.5).Floor == k;
    }
  }

  function Log(a: Double, log10: real -> Double): Double
  {
    if a.Some? then log10(a.value) else NaN
  }

  /** `_nearest_axis_value`: on a linear axis the value is discretized over the range; on a
    * logarithmic one its `log10` is, over the `log10` of the range, and `pow(10, .)` is applied
    * to the result. `log10` and `pow` are parameters (`log10` giving NaN where the C library gives
    * NaN or an infinity). */
  function NearestAxisValue(value: Double, lower: Double, upper: Double, scale: ScaleType, count: int,
                            log10: real -> Double, pow10: real -> real): Double
  {
    match scale
    case Linear => Discretize(value, lower, upper, count)
    case Logarithmic =>
      var e := Discretize(Log(value, log10), Log(lower, log10), Log(upper, log10), count);
      if e.Some? then D(pow10(e.value)) else NaN
  }

  /** On a linear axis the nearest axis value is the centre of the value's bin; on a logarithmic
    * axis it is the value whose `log10` is the centre of the bin of the value's `log10`, when
    * `log10` inverts `pow(10, .)`. */
  lemma NearestAxisValueCentre(value: Double, lower: Double, upper: Double, scale: ScaleType, count: int,
                               log10: real -> Double, pow10: real -> real)
    requires forall x :: log10(pow10(x)) == D(x)
    ensures var r := NearestAxisValue(value, lower, upper, scale, count, log10, pow10);
            && (scale == Linear ==> r == Discretize(value, lower, upper, count))
            && (scale == Logarithmic && r.Some? ==>
                  log10(r.value) == Discretize(Log(value, log10), Log(lower, log10), Log(upper, log10), count))
            && (scale == Logarithmic && r.None? ==>
                  Discretize(Log(value, log10), Log(lower, log10), Log(upper, log10), count).None?)
  {
  }

  /** Snapping is idempotent on both kinds of axis: a snapped position stays where it is. */
  lemma NearestAxisValueIdempotent(value: Double, lower: Double, upper: Double, scale: ScaleType, count: int,
                                   log10: real -> Double, pow10: real -> real)
    requires forall x :: log10(pow10(x)) == D(x)
    ensures var r := NearestAxisValue(value, lower, upper, scale, count, log10, pow10);
            NearestAxisValue(r, lower, upper, scale, count, log10, pow10) == r
  {
    var lv, ll, lu := Log(value, log10), Log(lower, log10), Log(upper, log10);
    DiscretizeIdempotent(value, lower, upper, count);
    DiscretizeIdempotent(lv, ll, lu, count);
    var e := Discretize(lv, ll, lu, count);
    if scale == Logarithmic && e.Some? {
      assert Log(D(pow10(e.value)), log10) == e;
    }
  }

  /** `_log_scale_index`: `count * (log10(value) - log10(lower)) / (log10(upper) - log10(lower))`
    * truncated to an integer; `None` where the quotient is NaN or infinite, whose conversion the
    * C++ language leaves undefined. */
  function LogScaleIndex(value: Double, lower: Double, upper: Double, count: int, log10: real -> Double): Option<int>
  {
    var t := LogFraction(value, lower, upper, count, log10);
    if t.Some? then Some(TruncReal(t.value)) else None
  }

  /** The quotient `_log_scale_index` truncates. */
  function LogFraction(value: Double, lower: Double, upper: Double, count: int, log10: real -> Double): Double
  {
    var lower10 := Log(lower, log10);
    Div(Mul(D(count as real), Sub(Log(value, log10), lower10)), Sub(Log(upper, log10), lower10))
  }

  lemma ScaledFraction(c: real, a: real, b: real, t: real)
    requires 0.0 <= a <= b && b > 0.0 && c >= 0.0 && t == c * a / b
    ensures 0.0 <= t <= c
    ensures c > 0.0 && a < b ==> t < c
    ensures a == b ==> t == c
  {
    DivCancel(c, b);
    MulLe(0.0, a, c + 1.0);
    MulLe(a, b, c + 1.0);
    if c > 0.0 {
      MulLe(0.0, a, c);
      MulLe(a, b, c);
      DivLe(0.0, c * a, b);
      DivLe(c * a, c * b, b);
      if a < b {
        MulLt(a, b, c);
        DivLt(c * a, c * b, b);
      }
    } else {
      assert c * a == 0.0;
    }
    assert c * b / b == c by {
      DivCancel(c, b);
      assert c * b == b * c;
    }
  }

  /** A value whose `log10` lies within the range's gives an index from 0 to `count`, and
    * `count` itself only at the upper bound. */
  lemma LogScaleIndexBounds(value: real, lower: real, upper: real, count: nat, log10: real -> Double)
    requires log10(value).Some? && log10(lower).Some? && log10(upper).Some?
    requires log10(lower).value <= log10(value).value <= log10(upper).value
    requires log10(lower).value < log10(upper).value
    ensures var i := LogScaleIndex(D(value), D(lower), D(upper), count, log10);
            && i.Some? && 0 <= i.value <= count
            && (count > 0 ==> (i.value == count <==> log10(value).value == log10(upper).value))
  {
    var lv, ll, lu := log10(value).value, log10(lower).value, log10(upper).value;
    var t := count as real * (lv - ll) / (lu - ll);
    assert Log(D(value), log10) == D(lv) && Log(D(lower), log10) == D(ll) && Log(D(upper), log10) == D(lu);
    var f := LogFraction(D(value), D(lower), D(upper), count, log10);
    assert f.Some? && f.value == t;
    ScaledFraction(count as real, lv - ll, lu - ll, t);
    TruncUpTo(t, count);
  }

  /** Truncating a value from 0 to `c` gives 0 to `c`, and `c` only for `c` itself. */
  lemma TruncUpTo(t: real, c: nat)
    requires 0.0 <= t <= c as real
    ensures 0 <= TruncReal(t) <= c && (TruncReal(t) == c <==> t == c as real)
  {
  }

  // ---- quadrant and tooltip alignment ----

  /** A `QRect` by its edge coordinates `x1`, `y1`, `x2`, `y2`. */
  datatype IntRect = IntRect(x1: int, y1: int, x2: int, y2: int)

  /** `QRect::center`: the truncated middle of the edges. */
  function CenterX(r: IntRect): int { TruncDiv(r.x1 + r.x2, 2) }

  function CenterY(r: IntRect): int { TruncDiv(r.y1 + r.y2, 2) }

  /** `_quadrant`: the quadrant of the axis rect the position is in, on the left exactly when it
    * is left of the centre and on top exactly when it is above it. */
  function Quadrant(pos: Point, rect: IntRect): (q: PlotQuadrant)
    ensures q != NoQuadrant
    ensures OnLeft(q) <==> pos.x < CenterX(rect) as real
    ensures OnTop(q) <==> pos.y < CenterY(rect) as real
  {
    if pos.x < CenterX(rect) as real then
      if pos.y < CenterY(rect) as real then TopLeft else BottomLeft
    else if pos.y < CenterY(rect) as real then TopRight
    else BottomRight
  }

  /** A position on the centre lines goes to the right and to the bottom. */
  lemma QuadrantTies(rect: IntRect, x: real, y: real)
    ensures Quadrant(Point(CenterX(rect) as real, y), rect) in {TopRight, BottomRight}
    ensures Quadrant(Point(x, CenterY(rect) as real), rect) in {BottomLeft, BottomRight}
  {
  }

  datatype HAlign = AlignLeft | AlignHCenter | AlignRight

  datatype VAlign = AlignTop | AlignVCenter | AlignBottom

  /** A `Qt::Alignment` made of one horizontal and one vertical flag. */
  datatype Alignment = Alignment(h: HAlign, v: VAlign)

  /** The tooltip's initial position alignment, `AlignTop | AlignHCenter`. */
  const InitialAlignment := Alignment(AlignHCenter, AlignTop)

  /** `_update_tooltip_alignment`: the tooltip is anchored by its corner on the quadrant's side,
    * and keeps its alignment for `PlotQuadrant::None`. */
  function TooltipAlignment(current: Alignment, q: PlotQuadrant): (a: Alignment)
    ensures q == NoQuadrant ==> a == current
    ensures q != NoQuadrant ==>
              && (a.h == AlignLeft <==> OnLeft(q)) && (a.h == AlignRight <==> !OnLeft(q))
              && (a.v == AlignTop <==> OnTop(q)) && (a.v == AlignBottom <==> !OnTop(q))
  {
    match q
    case TopLeft => Alignment(AlignLeft, AlignTop)
    case TopRight => Alignment(AlignRight, AlignTop)
    case BottomLeft => Alignment(AlignLeft, AlignBottom)
    case BottomRight => Alignment(AlignRight, AlignBottom)
    case NoQuadrant => current
  }

  /** Distinct quadrants give distinct alignments. */
  lemma AlignmentOneToOne(current: Alignment, q1: PlotQuadrant, q2: PlotQuadrant)
    requires q1 != NoQuadrant && q2 != NoQuadrant
    ensures TooltipAlignment(current, q1) == TooltipAlignment(current, q2) <==> q1 == q2
  {
    var a1, a2 := TooltipAlignment(current, q1), TooltipAlignment(current, q2);
    if a1 == a2 {
      assert OnLeft(q1) == OnLeft(q2) && OnTop(q1) == OnTop(q2);
    }
  }

  /** The tooltip opens towards the centre of the axis rect: it is anchored by its left edge
    * exactly when the position is left of the centre, and by its top edge exactly when it is
    * above it. */
  lemma TooltipFacesCentre(current: Alignment, pos: Point, rect: IntRect)
    ensures var a := TooltipAlignment(current, Quadrant(pos, rect));
            && (a.h == AlignLeft <==> pos.x < CenterX(rect) as real)
            && (a.v == AlignTop <==> pos.y < CenterY(rect) as real)
  {
    var q := Quadrant(pos, rect);
    assert q != NoQuadrant;
  }

  // ---- the data locator ----

  /** The concrete class of a `QCPAbstractPlottable`, as `qobject_cast` tells them apart. */
  datatype PlottableClass = GraphClass | CurveClass | ColorMapClass | OtherClass

  /** A plottable by identity, with its class and its pen. */
  datatype Plottable = Plottable(id: nat, cls: PlottableClass, pen: Pen)

  /** The type `set_plottable` records: by class, and `None` for a null or unknown plottable. */
  function TypeOf(p: Option<Plottable>): (t: PlotableType)
    ensures t == Graph <==> p.Some? && p.value.cls == GraphClass
    ensures t == Curve <==> p.Some? && p.value.cls == CurveClass
    ensures t == ColorMap <==> p.Some? && p.value.cls == ColorMapClass
    ensures t == NoPlotable <==> p.None? || p.value.cls == OtherClass
  {
    if p.None? then NoPlotable
    else match p.value.cls
      case GraphClass => Graph
      case CurveClass => Curve
      case ColorMapClass => ColorMap
      case OtherClass => NoPlotable
  }

  /** A `(key, value, data)` triple. */
  datatype Location = Location(key: Double, value: Double, data: Double)

  const Missed := Location(NaN, NaN, NaN)

  /** `_nearest_data_point` on a graph or curve, given the distance `selectTest` returns and the
    * key and value of the first data point of its selection details, if any. The distance is
    * a `double` tested for truth: any non-zero value lets the selection through, the -1 of a
    * miss included, while an exact hit at distance 0 is dropped. */
  function NearestDataPoint(distance: real, selected: Option<(Double, Double)>): (r: Option<(Double, Double)>)
    ensures r.Some? <==> distance != 0.0 && selected.Some?
    ensures r.Some? ==> r == selected
  {
    if distance != 0.0 then selected else None
  }

  /** The truth test on the distance: a selection reported with the -1 of a miss is located,
    * one reported at distance 0 is not. */
  lemma NearestDataPointTruthTest(p: (Double, Double))
    ensures NearestDataPoint(-1.0, Some(p)) == Some(p)
    ensures NearestDataPoint(0.0, Some(p)) == None
    ensures forall d: real :: d > 0.0 ==> NearestDataPoint(d, Some(p)) == Some(p)
  {
  }

  /** `locate_data_graph` and `locate_data_curve`, given what `_nearest_data_point` found. */
  function LocatePoint(hit: Option<(Double, Double)>): (l: Location)
    ensures l.data == NaN
    ensures hit.None? ==> l == Missed
    ensures hit.Some? ==> l.key == hit.value.0 && l.value == hit.value.1
  {
    if hit.Some? then Location(hit.value.0, hit.value.1, NaN) else Missed
  }

  /** One axis of a colour map: the data's range and size and the axis' scale type. */
  datatype MapAxis = MapAxis(lower: Double, upper: Double, scale: ScaleType, size: int)

  /** What locating in a colour map reads from QCustomPlot: the mouse position in plot
    * coordinates (`pixelToCoord`), the two axes, `coordToCell` and `cell`. An index whose
    * conversion is undefined reaches `cell` as `None`. */
  datatype ColorMapProbe = ColorMapProbe(keyCoord: Double, valueCoord: Double, keyAxis: MapAxis, valueAxis: MapAxis,
                                         coordToCell: (Double, Double) -> (int, int),
                                         cell: (Option<int>, Option<int>) -> Double)

  function Snap(coord: Double, axis: MapAxis, log10: real -> Double, pow10: real -> real): Double
  {
    NearestAxisValue(coord, axis.lower, axis.upper, axis.scale, axis.size, log10, pow10)
  }

  /** `_nearest_data_point` on a colour map (and `locate_data_colormap`): each coordinate is
    * snapped to the centre of its cell, the cell indices come from `_log_scale_index` on a
    * logarithmic axis and from `coordToCell` otherwise, and the data is that cell's. */
  function LocateColorMap(p: ColorMapProbe, log10: real -> Double, pow10: real -> real): Location
  {
    var key := Snap(p.keyCoord, p.keyAxis, log10, pow10);
    var value := Snap(p.valueCoord, p.valueAxis, log10, pow10);
    var keyIndex := if p.keyAxis.scale == Logarithmic
                    then LogScaleIndex(key, p.keyAxis.lower, p.keyAxis.upper, p.keyAxis.size, log10)
                    else Some(p.coordToCell(key, value).0);
    var valueIndex := if p.valueAxis.scale == Logarithmic
                      then LogScaleIndex(value, p.valueAxis.lower, p.valueAxis.upper, p.valueAxis.size, log10)
                      else Some(p.coordToCell(key, value).1);
    Location(key, value, p.cell(keyIndex, valueIndex))
  }

  /** The located key and value sit on cell centres (locating again from them finds the same
    * position), and on a logarithmic key axis the key's cell is `_log_scale_index` of it. */
  lemma ColorMapOnCellCentres(p: ColorMapProbe, log10: real -> Double, pow10: real -> real)
    requires forall x :: log10(pow10(x)) == D(x)
    ensures var l := LocateColorMap(p, log10, pow10);
            && Snap(l.key, p.keyAxis, log10, pow10) == l.key
            && Snap(l.value, p.valueAxis, log10, pow10) == l.value
            && LocateColorMap(p.(keyCoord := l.key, valueCoord := l.value), log10, pow10) == l
  {
    var k, a := p.keyCoord, p.keyAxis;
    var v, b := p.valueCoord, p.valueAxis;
    NearestAxisValueIdempotent(k, a.lower, a.upper, a.scale, a.size, log10, pow10);
    NearestAxisValueIdempotent(v, b.lower, b.upper, b.scale, b.size, log10, pow10);
  }

  /** What `setPosition` reads for the plottable at the mouse position: the distance and the
    * first selected data point from `selectTest` on a graph or curve, the value axis' axis
    * rect and the colour-map lookups. */
  datatype Probe = Probe(distance: real, selected: Option<(Double, Double)>, axisRect: IntRect,
                         colorMap: ColorMapProbe)

  /** `QCPAbstractPlottableDataLocator`. */
  class DataLocator {
    var plottable: Option<Plottable>
    var kind: PlotableType
    var key: Double
    var value: Double
    var data: Double
    var quadrant: PlotQuadrant

    /** The recorded type is the plottable's. */
    ghost predicate Valid()
      reads this
    {
      kind == TypeOf(plottable)
    }

    /** The member initialisers: no plottable, NaN everywhere, no quadrant. */
    constructor ()
      ensures Valid() && plottable == None && kind == NoPlotable
      ensures key == NaN && value == NaN && data == NaN && quadrant == NoQuadrant
    {
      plottable, kind := None, NoPlotable;
      key, value, data := NaN, NaN, NaN;
      quadrant := NoQuadrant;
    }

    /** `set_plottable`: records the plottable and its type and forgets the last location; the
      * quadrant is kept. */
    method SetPlottable(p: Option<Plottable>)
      modifies this
      ensures Valid() && plottable == p && kind == TypeOf(p)
      ensures key == NaN && value == NaN && data == NaN && quadrant == old(quadrant)
    {
      plottable := p;
      if p.None? {
        kind := NoPlotable;
      } else if p.value.cls == GraphClass {
        kind := Graph;
      } else if p.value.cls == CurveClass {
        kind := Curve;
      } else if p.value.cls == ColorMapClass {
        kind := ColorMap;
      } else {
        kind := NoPlotable;
      }
      key, value, data := NaN, NaN, NaN;
    }

    /** `setPosition`: locates the data point under `pos` by the plottable's type and records
      * the quadrant; without a known plottable nothing changes. */
    method SetPosition(pos: Point, probe: Probe, log10: real -> Double, pow10: real -> real)
      requires Valid()
      modifies this
      ensures Valid() && plottable == old(plottable) && kind == old(kind)
      ensures kind == NoPlotable ==>
                key == old(key) && value == old(value) && data == old(data) && quadrant == old(quadrant)
      ensures (kind == Graph || kind == Curve) ==>
                Location(key, value, data) == LocatePoint(NearestDataPoint(probe.distance, probe.selected)) && quadrant == Quadrant(pos, probe.axisRect)
      ensures kind == ColorMap ==>
                Location(key, value, data) == LocateColorMap(probe.colorMap, log10, pow10) && quadrant == Quadrant(pos, probe.axisRect)
    {
      if kind == NoPlotable {
        return;
      }
      var l: Location;
      if kind == ColorMap {
        l := LocateColorMap(probe.colorMap, log10, pow10);
      } else {
        l := LocatePoint(NearestDataPoint(probe.distance, probe.selected));
      }
      key, value, data := l.key, l.value, l.data;
      quadrant := Quadrant(pos, probe.axisRect);
    }
  }

  const SelectedPen := Pen(Color(0, 0, 255, 255), 2.0, SolidLine)

  /** `SciQLopTracer`: pens and brushes (`None` for `Qt::NoBrush`), the selection state, the
    * plot coordinates of its position and its locator. */
  class TracerItem {
    const locator: DataLocator
    var selected: bool
    var pen: Pen
    var selectedPen: Pen
    var brush: Option<Brush>
    var selectedBrush: Option<Brush>
    var coords: (Double, Double)

    /** The constructor: no brushes, a black pen, a blue selected pen of width 2, and the
      * position `createPosition` makes, at (0, 0) in plot coordinates. */
    constructor ()
      ensures fresh(locator) && locator.Valid() && locator.plottable == None
      ensures !selected && pen == DefaultPen && selectedPen == SelectedPen && brush == None && selectedBrush == None
      ensures coords == (D(0.0), D(0.0))
    {
      locator := new DataLocator();
      selected := false;
      pen, selectedPen := DefaultPen, SelectedPen;
      brush, selectedBrush := None, None;
      coords := (D(0.0), D(0.0));
    }

    /** `mainPen`: the selected pen exactly while the tracer is selected. */
    function MainPen(): (p: Pen)
      reads this
      ensures selected ==> p == selectedPen
      ensures !selected ==> p == pen
    {
      if selected then selectedPen else pen
    }

    /** `mainBrush`. */
    function MainBrush(): (b: Option<Brush>)
      reads this
      ensures selected ==> b == selectedBrush
      ensures !selected ==> b == brush
    {
      if selected then selectedBrush else brush
    }

    /** `setPlotable`: hands the plottable to the locator and takes the pen of a graph or curve,
      * a black pen otherwise. */
    method SetPlotable(p: Option<Plottable>)
      modifies this, locator
      ensures locator.Valid() && locator.plottable == p
      ensures locator.key == NaN && locator.value == NaN && locator.data == NaN
      ensures locator.quadrant == old(locator.quadrant)
      ensures pen == if TypeOf(p) == Graph || TypeOf(p) == Curve then p.value.pen else DefaultPen
      ensures selected == old(selected) && selectedPen == old(selectedPen)
      ensures brush == old(brush) && selectedBrush == old(selectedBrush) && coords == old(coords)
    {
      locator.SetPlottable(p);
      if locator.kind == Graph || locator.kind == Curve {
        pen := p.value.pen;
      } else {
        pen := DefaultPen;
      }
    }

    /** `updatePosition`: moves the locator and puts the tracer at the located key and value. */
    method UpdatePosition(pos: Point, probe: Probe, log10: real -> Double, pow10: real -> real)
      requires locator.Valid()
      modifies this, locator
      ensures locator.Valid() && locator.plottable == old(locator.plottable)
      ensures old(locator.kind) == NoPlotable ==>
                && locator.key == old(locator.key) && locator.value == old(locator.value)
                && locator.data == old(locator.data) && locator.quadrant == old(locator.quadrant)
      ensures (old(locator.kind) == Graph || old(locator.kind) == Curve) ==>
                && Location(locator.key, locator.value, locator.data) == LocatePoint(NearestDataPoint(probe.distance, probe.selected))
                && locator.quadrant == Quadrant(pos, probe.axisRect)
      ensures old(locator.kind) == ColorMap ==>
                && Location(locator.key, locator.value, locator.data) == LocateColorMap(probe.colorMap, log10, pow10)
                && locator.quadrant == Quadrant(pos, probe.axisRect)
      ensures coords == (locator.key, locator.value)
      ensures selected == old(selected) && pen == old(pen) && selectedPen == old(selectedPen)
      ensures brush == old(brush) && selectedBrush == old(selectedBrush)
    {
      locator.SetPosition(pos, probe, log10, pow10);
      coords := (locator.key, locator.value);
    }
  }

  /** `TracerWithToolTip`: the tracer, the visibility of the tracer item and of the tooltip
    * (`visible()` reads the tracer's), the copied key, value and data, the tooltip's
    * alignment, the numbers its text shows (`x`, `y`, and `z` when the data is not NaN) and
    * the replots requested. */
  class TracerWithToolTip {
    const tracer: TracerItem
    var tracerVisible: bool
    var tooltipVisible: bool
    var x: Double
    var y: Double
    var data: Double
    var alignment: Alignment
    var shown: seq<Double>
    var replots: nat

    ghost predicate Valid()
      reads this, tracer, tracer.locator
    {
      tracer.locator.Valid()
    }

    /** The constructor: only the tooltip is hidden (a new QCustomPlot item starts visible), and
      * the tooltip is aligned top and horizontally centred. */
    constructor ()
      ensures Valid() && fresh(tracer) && fresh(tracer.locator) && tracer.locator.plottable == None
      ensures tracerVisible && !tooltipVisible && x == NaN && y == NaN && data == NaN && alignment == InitialAlignment
      ensures shown == [] && replots == 0
    {
      tracer := new TracerItem();
      tracerVisible, tooltipVisible := true, false;
      x, y, data := NaN, NaN, NaN;
      alignment := InitialAlignment;
      shown := [];
      replots := 0;
    }

    /** `update_position`: without a plottable nothing happens; otherwise both items are shown
      * if the tracer was hidden (a hidden tooltip beside a visible tracer stays hidden), the
      * tracer is moved, the located values are copied, the tooltip is aligned to the quadrant and shows
      * `x`, `y` and, unless it is NaN, the data, and a replot is requested when asked for. */
    method UpdatePosition(pos: Point, probe: Probe, log10: real -> Double, pow10: real -> real, replot: bool)
      requires Valid()
      modifies this, tracer, tracer.locator
      ensures Valid()
      ensures old(tracer.locator.plottable).None? ==>
                && tracerVisible == old(tracerVisible) && tooltipVisible == old(tooltipVisible) && x == old(x) && y == old(y) && data == old(data)
                && alignment == old(alignment) && shown == old(shown) && replots == old(replots)
                && tracer.locator.key == old(tracer.locator.key) && tracer.locator.quadrant == old(tracer.locator.quadrant)
      ensures old(tracer.locator.plottable).Some? ==>
                && tracerVisible
                && tooltipVisible == (old(tooltipVisible) || !old(tracerVisible))
                && x == tracer.locator.key && y == tracer.locator.value && data == tracer.locator.data
                && alignment == TooltipAlignment(old(alignment), tracer.locator.quadrant)
                && shown == (if data.Some? then [x, y, data] else [x, y])
                && replots == (if replot then old(replots) + 1 else old(replots))
    {
      if tracer.locator.plottable.None? {
        return;
      }
      if !tracerVisible {
        tracerVisible, tooltipVisible := true, true;
      }
      tracer.UpdatePosition(pos, probe, log10, pow10);
      x, y, data := tracer.locator.key, tracer.locator.value, tracer.locator.data;
      alignment := TooltipAlignment(alignment, tracer.locator.quadrant);
      if data.Some? {
        shown := [x, y, data];
      } else {
        shown := [x, y];
      }
      if replot {
        replots := replots + 1;
      }
    }

    /** `set_plotable`: forwards to the tracer, and hides both items and replots for a null
      * plottable. */
    method SetPlotable(p: Option<Plottable>)
      requires Valid()
      modifies this, tracer, tracer.locator
      ensures Valid() && tracer.locator.plottable == p && tracer.locator.kind == TypeOf(p)
      ensures tracer.locator.key == NaN && tracer.locator.value == NaN && tracer.locator.data == NaN
      ensures p.None? ==> !tracerVisible && !tooltipVisible && replots == old(replots) + 1
      ensures p.Some? ==> tracerVisible == old(tracerVisible) && tooltipVisible == old(tooltipVisible)
                          && replots == old(replots)
      ensures x == old(x) && y == old(y) && data == old(data) && alignment == old(alignment) && shown == old(shown)
    {
      tracer.SetPlotable(p);
      if p.None? {
        tracerVisible, tooltipVisible := false, false;
        replots := replots + 1;
      }
    }
  }
}
