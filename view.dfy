/** `view`: coordinate tuples and the zoom/move helpers of the legacy plot widgets. A widget is
  * modelled by the ranges it shows on each axis and an affine pixel-to-data map per axis (the
  * mapping of a linear axis). */
module View {
  import opened Common
  import opened AxisRange

  datatype Axis = X | Y | Z

  function AxisIndex(a: Axis): nat
  {
    match a
    case X => 0
    case Y => 1
    case Z => 2
  }

  /** `single_coordinate<T>`: a value tagged with the axis it lives on. */
  datatype SingleCoordinate<T> = SingleCoordinate(value: T, axis: Axis)

  /** `coordinates<T, ND>::component(axis)`: the entry indexed by the axis. */
  function Component<T>(c: seq<T>, axis: Axis): (r: SingleCoordinate<T>)
    requires AxisIndex(axis) < |c|
    ensures r.axis == axis && r.value == c[AxisIndex(axis)]
  {
    SingleCoordinate(c[AxisIndex(axis)], axis)
  }

  // ---- ND_coordinates operators ----

  /** The copy returned by the const `operator+`; `operator-` is `ShiftAll(c, -offset)`. */
  function ShiftAll(c: seq<real>, offset: real): seq<real>
  {
    seq(|c|, i requires 0 <= i < |c| => c[i] + offset)
  }

  /** The copy returned by the unary `operator-` of data coordinates. */
  function NegateAll(c: seq<real>): seq<real>
  {
    seq(|c|, i requires 0 <= i < |c| => -c[i])
  }

  /** The copy returned by the unary `operator-` of pixel coordinates. */
  function NegatePixels(c: seq<int>): seq<int>
  {
    seq(|c|, i requires 0 <= i < |c| => -c[i])
  }

  /** The non-const `operator+`/`operator-`: `broadcast` adds the offset to every component of
    * the coordinate array in place (`operator-` passes `-offset`). */
  method BroadcastAdd(c: array<real>, offset: real)
    modifies c
    ensures c[..] == ShiftAll(old(c[..]), offset)
  {
    for i := 0 to c.Length
      invariant forall k :: 0 <= k < i ==> c[k] == old(c[k]) + offset
      invariant forall k :: i <= k < c.Length ==> c[k] == old(c[k])
    {
      c[i] := c[i] + offset;
    }
  }

  // ---- widgets ----

  /** The pixel-to-data map of one axis: `data = origin + scale * pixel`. */
  datatype PixelMap = PixelMap(origin: real, scale: real)

  function MapPixel(m: PixelMap, px: int): real { m.origin + m.scale * px as real }

  class Widget {
    var xRange: Range
    var yRange: Range
    var zRange: Range
    var xMap: PixelMap
    var yMap: PixelMap
    var zMap: PixelMap

    constructor (x: Range, y: Range, mx: PixelMap, my: PixelMap)
      ensures xRange == x && yRange == y && zRange == Default()
      ensures xMap == mx && yMap == my
    {
      xRange, yRange, zRange := x, y, Default();
      xMap, yMap, zMap := mx, my, PixelMap(0.0, 0.0);
    }

    /** `widget->range(axis)`. */
    function Get(axis: Axis): Range reads this
    {
      match axis
      case X => xRange
      case Y => yRange
      case Z => zRange
    }

    function MapOf(axis: Axis): PixelMap reads this
    {
      match axis
      case X => xMap
      case Y => yMap
      case Z => zMap
    }

    /** Every range of the widget other than the one on `axis` equals the given one. */
    predicate OthersUnchanged(axis: Axis, ox: Range, oy: Range, oz: Range) reads this
    {
      (axis != X ==> xRange == ox) && (axis != Y ==> yRange == oy) && (axis != Z ==> zRange == oz)
    }

    /** `widget->set_range(range, axis)`. */
    method SetRange(r: Range, axis: Axis)
      modifies this
      ensures Get(axis) == r
      ensures OthersUnchanged(axis, old(xRange), old(yRange), old(zRange))
      ensures xMap == old(xMap) && yMap == old(yMap) && zMap == old(zMap)
    {
      match axis
      case X => xRange := r;
      case Y => yRange := r;
      case Z => zRange := r;
    }

    /** `widget->set_range(x_range, y_range)`. */
    method SetRanges(x: Range, y: Range)
      modifies this
      ensures xRange == x && yRange == y && zRange == old(zRange)
      ensures xMap == old(xMap) && yMap == old(yMap) && zMap == old(zMap)
    {
      xRange, yRange := x, y;
    }
  }

  /** `to_data_coordinates(widget, c)`. */
  function ToData(w: Widget, c: SingleCoordinate<int>): (r: SingleCoordinate<real>)
    reads w
    ensures r.axis == c.axis
  {
    SingleCoordinate(MapPixel(w.MapOf(c.axis), c.value), c.axis)
  }

  /** `distance(widget, single_pixel_coordinate)`: map(delta) - map(0) on the same axis. */
  function Distance(w: Widget, delta: SingleCoordinate<int>): SingleCoordinate<real>
    reads w
  {
    SingleCoordinate(ToData(w, delta).value - ToData(w, SingleCoordinate(0, delta.axis)).value,
                     delta.axis)
  }

  /** `distance(widget, pixel_coordinates<2>)`: the per-axis distances as data coordinates,
    * each the axis' scale times its pixel delta. */
  function Distance2(w: Widget, delta: seq<int>): (r: seq<real>)
    reads w
    requires |delta| == 2
    ensures |r| == 2
    ensures r[0] == w.MapOf(X).scale * delta[0] as real
    ensures r[1] == w.MapOf(Y).scale * delta[1] as real
  {
    [Distance(w, Component(delta, X)).value, Distance(w, Component(delta, Y)).value]
  }

  /** The range `zoom(widget, center, factor, axis)` installs: each bound x goes to
    * `factor * x + center * (1 - factor)`. */
  function ZoomedAbout(r: Range, center: real, factor: real): Range
  {
    var offset := center * (1.0 - factor);
    Range(factor * r.first + offset, factor * r.second + offset)
  }

  /** The range `move(widget, delta, axis)` installs. */
  function MovedByWidths(r: Range, delta: real): Range { Shifted(r, Width(r) * delta) }

  /** `zoom(widget, factor, axis)`: scales about the current centre. */
  method Zoom(w: Widget, factor: real, axis: Axis)
    modifies w
    ensures w.Get(axis) == Scaled(old(w.Get(axis)), factor)
    ensures w.OthersUnchanged(axis, old(w.xRange), old(w.yRange), old(w.zRange))
  {
    var r := new RangeVar(w.Get(axis));
    var newRange := r.Times(factor);
    w.SetRange(newRange, axis);
  }

  /** `zoom(widget, center, factor, axis)`. */
  method ZoomAbout(w: Widget, center: real, factor: real, axis: Axis)
    modifies w
    ensures w.Get(axis) == ZoomedAbout(old(w.Get(axis)), center, factor)
    ensures w.OthersUnchanged(axis, old(w.xRange), old(w.yRange), old(w.zRange))
  {
    var oldRange := w.Get(axis);
    var offset := center * (1.0 - factor);
    w.SetRange(Range(factor * oldRange.first + offset, factor * oldRange.second + offset), axis);
  }

  /** `zoom(widget, single_pixel_coordinate center, factor)`: about the data point under the
    * pixel, on the pixel's axis. */
  method ZoomAtPixel(w: Widget, center: SingleCoordinate<int>, factor: real)
    modifies w
    ensures w.Get(center.axis) == ZoomedAbout(old(w.Get(center.axis)), old(ToData(w, center).value), factor)
    ensures w.OthersUnchanged(center.axis, old(w.xRange), old(w.yRange), old(w.zRange))
  {
    ZoomAbout(w, ToData(w, center).value, factor, center.axis);
  }

  /** `move(widget, delta, axis)`: shifts the range by `width * delta`. */
  method MoveBy(w: Widget, delta: real, axis: Axis)
    modifies w
    ensures w.Get(axis) == MovedByWidths(old(w.Get(axis)), delta)
    ensures w.OthersUnchanged(axis, old(w.xRange), old(w.yRange), old(w.zRange))
    ensures w.xMap == old(w.xMap) && w.yMap == old(w.yMap) && w.zMap == old(w.zMap)
  {
    var oldRange := new RangeVar(w.Get(axis));
    var newRange := oldRange.Plus(Width(oldRange.Value()) * delta);
    w.SetRange(newRange, axis);
  }

  /** `move(widget, single_data_coordinate)`: shifts only the axis the coordinate names. */
  method MoveData(w: Widget, delta: SingleCoordinate<real>)
    modifies w
    ensures w.Get(delta.axis) == Shifted(old(w.Get(delta.axis)), delta.value)
    ensures w.OthersUnchanged(delta.axis, old(w.xRange), old(w.yRange), old(w.zRange))
    ensures w.xMap == old(w.xMap) && w.yMap == old(w.yMap) && w.zMap == old(w.zMap)
  {
    var oldRange := new RangeVar(w.Get(delta.axis));
    var newRange := oldRange.Plus(delta.value);
    w.SetRange(newRange, delta.axis);
  }

  /** `move(widget, data_coordinates<ND>)`: x by the first component, then y by the second. */
  method MoveDataND(w: Widget, delta: seq<real>)
    requires |delta| >= 2
    modifies w
    ensures w.xRange == Shifted(old(w.xRange), delta[0])
    ensures w.yRange == Shifted(old(w.yRange), delta[1])
    ensures w.zRange == old(w.zRange)
    ensures w.xMap == old(w.xMap) && w.yMap == old(w.yMap) && w.zMap == old(w.zMap)
  {
    MoveData(w, Component(delta, X));
    MoveData(w, Component(delta, Y));
  }

  /** `move(widget, pixel_coordinates<ND>)` for widgets that map pixels: moves by the opposite
    * of the pixel distance, so the content follows the cursor. */
  method MovePixels(w: Widget, delta: seq<int>)
    requires |delta| == 2
    modifies w
    ensures w.xRange == Shifted(old(w.xRange), -old(Distance(w, Component(delta, X)).value))
    ensures w.yRange == Shifted(old(w.yRange), -old(Distance(w, Component(delta, Y)).value))
    ensures w.zRange == old(w.zRange)
  {
    MoveDataND(w, NegateAll(Distance2(w, delta)));
  }

  // ---- properties ----

  /** The zoom centre is a fixed point of the zoom map, and the width scales by `|factor|`. */
  lemma ZoomAboutFixesCenter(r: Range, center: real, factor: real)
    ensures factor * center + center * (1.0 - factor) == center
    ensures Width(ZoomedAbout(r, center, factor)) == Width(r) * Abs(factor)
  {
    var z := ZoomedAbout(r, center, factor);
    assert z.second - z.first == factor * (r.second - r.first);
    if factor < 0.0 {
      if r.second - r.first < 0.0 {
        assert Width(z) == factor * (r.second - r.first);
      } else {
        assert Width(z) == -factor * (r.second - r.first);
      }
    } else {
      if r.second - r.first < 0.0 {
        assert Width(z) == -factor * (r.second - r.first);
      } else {
        assert Width(z) == factor * (r.second - r.first);
      }
    }
  }

  /** Zooming about a data point keeps that point at the same relative place in the range. */
  lemma ZoomAboutKeepsRelativePosition(r: Range, center: real, factor: real)
    ensures ZoomedAbout(r, center, factor).first - center == factor * (r.first - center)
    ensures ZoomedAbout(r, center, factor).second - center == factor * (r.second - center)
  {
  }

  /** On an ordered range, zooming about its own centre is `operator*`. */
  lemma ZoomAboutCenterIsScale(r: Range, factor: real)
    requires r.first <= r.second
    ensures ZoomedAbout(r, Center(r), factor) == Scaled(r, factor)
  {
    var c := Center(r);
    assert Width(r) == r.second - r.first;
    assert factor * r.first + c * (1.0 - factor) == c - Width(r) * factor / 2.0;
    assert factor * r.second + c * (1.0 - factor) == c + Width(r) * factor / 2.0;
  }

  /** Moving by `delta` widths shifts the centre by `delta * width` and keeps the width; moving
    * back by `-delta` restores the range. */
  lemma MoveByWidthsProperties(r: Range, delta: real)
    ensures Center(MovedByWidths(r, delta)) == Center(r) + Width(r) * delta
    ensures Width(MovedByWidths(r, delta)) == Width(r)
    ensures MovedByWidths(MovedByWidths(r, delta), -delta) == r
  {
    assert Width(MovedByWidths(r, delta)) == Width(r);
  }

  /** With an affine map the pixel distance does not depend on the origin. */
  lemma DistanceIsScaledDelta(w: Widget, delta: SingleCoordinate<int>)
    ensures Distance(w, delta).value == w.MapOf(delta.axis).scale * delta.value as real
    ensures Distance(w, delta).axis == delta.axis
  {
  }

  /** Shifting every component by `o` then by `-o` gives the coordinates back; negation is an
    * involution. */
  lemma CoordinateOpsRoundTrip(c: seq<real>, o: real)
    ensures ShiftAll(ShiftAll(c, o), -o) == c
    ensures NegateAll(NegateAll(c)) == c
    ensures |ShiftAll(c, o)| == |c| && |NegateAll(c)| == |c|
  {
  }

  /** Pixel negation is an involution and keeps the dimension. */
  lemma PixelNegationInvolutive(c: seq<int>)
    ensures NegatePixels(NegatePixels(c)) == c && |NegatePixels(c)| == |c|
  {
  }
}
