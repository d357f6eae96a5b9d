/** The straight lines of `src/SciQLopStraightLines.cpp` and `Items/SciQLopStraightLines.hpp`:
  * an infinite vertical or horizontal line through two points, and the wrapper that answers NaN
  * once the line is gone. A line at x = pos passes through (pos, 0) and (pos, 1); one at y = pos
  * through (0, pos) and (1, pos). */
module StraightLines {
  import opened Common
  import opened QtTypes
  import opened PlotItem
  import opened Shapes

  datatype Orientation = Horizontal | Vertical

  /** One axis's linear map from plot coordinates to pixels; a logarithmic axis is not
    * modelled. An axis whose range is not empty has a non-zero scale. */
  datatype AxisMap = AxisMap(offset: real, scale: real)

  function CoordToPixel(m: AxisMap, c: real): real { m.offset + m.scale * c }

  function PixelToCoord(m: AxisMap, px: real): (c: real)
    requires m.scale != 0.0
    ensures CoordToPixel(m, c) == px
  {
    (px - m.offset) / m.scale
  }

  /** The key (x) and value (y) axes of the plot the line is on. */
  datatype Axes = Axes(key: AxisMap, value: AxisMap)

  predicate Invertible(a: Axes) { a.key.scale != 0.0 && a.value.scale != 0.0 }

  /** `QCPItemPosition::pixelPosition`: absolute positions are pixels already, plot coordinates
    * go through the axes. */
  function PixelPosition(p: ItemPosition, a: Axes): Point
  {
    if p.kind == PtAbsolute then p.coords
    else Point(CoordToPixel(a.key, p.coords.x), CoordToPixel(a.value, p.coords.y))
  }

  /** `QCPItemPosition::setPixelPosition`: the coordinates whose pixel position is `px`, in the
    * position's own type. */
  function SetPixelPosition(p: ItemPosition, px: Point, a: Axes): (q: ItemPosition)
    requires Invertible(a)
    ensures q.kind == p.kind && PixelPosition(q, a) == px
  {
    if p.kind == PtAbsolute then p.(coords := px)
    else p.(coords := Point(PixelToCoord(a.key, px.x), PixelToCoord(a.value, px.y)))
  }

  /** Setting a pixel position back to the one a position has changes nothing. */
  lemma SetPixelPositionIdentity(p: ItemPosition, a: Axes)
    requires Invertible(a)
    ensures SetPixelPosition(p, PixelPosition(p, a), a) == p
  {
    if p.kind != PtAbsolute {
      var m := a.key;
      assert (m.offset + m.scale * p.coords.x - m.offset) / m.scale == p.coords.x;
      var n := a.value;
      assert (n.offset + n.scale * p.coords.y - n.offset) / n.scale == p.coords.y;
    }
  }

  /** Moving a position by a pixel offset keeps the coordinate of the axis that is not moved. */
  lemma ShiftKeepsOtherAxis(p: ItemPosition, a: Axes, dx: real, dy: real)
    requires Invertible(a)
    ensures SetPixelPosition(p, Point(PixelPosition(p, a).x + dx, PixelPosition(p, a).y), a).coords.y == p.coords.y
    ensures SetPixelPosition(p, Point(PixelPosition(p, a).x, PixelPosition(p, a).y + dy), a).coords.x == p.coords.x
  {
    SetPixelPositionIdentity(p, a);
    if p.kind != PtAbsolute {
      var n := a.value;
      assert (n.offset + n.scale * p.coords.y - n.offset) / n.scale == p.coords.y;
      var m := a.key;
      assert (m.offset + m.scale * p.coords.x - m.offset) / m.scale == p.coords.x;
    }
  }

  /** `QPen::setWidthF`: a negative width is refused and the pen kept. */
  function PenWithWidthF(p: Pen, w: real): (q: Pen)
    ensures w >= 0.0 ==> q == WithWidth(p, w)
    ensures w < 0.0 ==> q == p
  {
    if w < 0.0 then p else WithWidth(p, w)
  }

  /** `QPen::width`: the width rounded to an integer. It gives back the width set by
    * `setWidthF` exactly when that width is a whole number. */
  lemma IntegerWidthRoundTrip(w: real)
    requires w >= 0.0
    ensures RoundNonNeg(w) as real == w <==> w == w.Floor as real
  {
    var n := RoundNonNeg(w);
    if w == w.Floor as real {
      assert w.Floor as real - 0.5 <= w < w.Floor as real + 0.5;
      assert n == w.Floor;
    }
  }

  /** A width of one and a half is read back as two. */
  lemma FractionalWidthIsRounded()
    ensures RoundNonNeg(1.5) == 2
  {
  }

  // ---- the two points of a new line ----

  /** `QCPItemPosition::setType` on a position in plot coordinates whose axes are set: the
    * pixel position is kept, so a switch to absolute stores the pixel image of the
    * coordinates. */
  function RetypeFromPlot(p: ItemPosition, t: PositionType, a: Axes): (q: ItemPosition)
    requires p.kind == PtPlotCoords
    ensures q.kind == t && PixelPosition(q, a) == PixelPosition(p, a)
  {
    if t == PtPlotCoords then p else ItemPosition(PtAbsolute, PixelPosition(p, a))
  }

  /** The two points through `position` across orientation `o`. */
  function Through(position: real, o: Orientation): (Point, Point)
  {
    if o == Vertical then (Point(position, 0.0), Point(position, 1.0))
    else (Point(0.0, position), Point(1.0, position))
  }

  /** The points of a new line as the constructor writes them: the coordinates are set while
    * the positions still have QCustomPlot's default type, plot coordinates, and only then is
    * the type of `coordinates` given, which keeps their pixel position. */
  function EndsAsWritten(position: real, c: Coordinates, o: Orientation, a: Axes): (ItemPosition, ItemPosition)
  {
    var ends := Through(position, o);
    var t := PositionTypeOf(c);
    (RetypeFromPlot(ItemPosition(PtPlotCoords, ends.0), t, a),
     RetypeFromPlot(ItemPosition(PtPlotCoords, ends.1), t, a))
  }

  /** The points as intended: the type first, then the coordinates, as `EllipseItem` does. */
  function EndsIntended(position: real, c: Coordinates, o: Orientation): (ItemPosition, ItemPosition)
  {
    var ends := Through(position, o);
    (ItemPosition(PositionTypeOf(c), ends.0), ItemPosition(PositionTypeOf(c), ends.1))
  }

  /** The line read at the first point: its key when vertical, its value when horizontal. */
  function Across(p: Point, o: Orientation): real
  {
    if o == Vertical then p.x else p.y
  }

  /** The axis a line of orientation `o` is positioned along. */
  function AlongAxis(a: Axes, o: Orientation): AxisMap
  {
    if o == Vertical then a.key else a.value
  }

  /** As written, a line in data coordinates is placed as intended, while a line in pixels
    * lands at the pixel image of `position` read as a plot coordinate, not at pixel
    * `position`. */
  lemma EndsAsWrittenPlacement(position: real, o: Orientation, a: Axes)
    ensures EndsAsWritten(position, Data, o, a) == EndsIntended(position, Data, o)
    ensures var w := EndsAsWritten(position, Pixels, o, a);
      && w.0.kind == PtAbsolute && w.1.kind == PtAbsolute
      && Across(w.0.coords, o) == CoordToPixel(AlongAxis(a, o), position)
      && Across(w.1.coords, o) == CoordToPixel(AlongAxis(a, o), position)
  {
  }

  /** For example, with a key axis mapping x to 10 + 2x pixels, a vertical line asked for at
    * pixel 5 is drawn at pixel 20. */
  lemma PixelLineMisplaced()
    ensures var a := Axes(AxisMap(10.0, 2.0), AxisMap(0.0, 1.0));
      && EndsAsWritten(5.0, Pixels, Vertical, a).0.coords.x == 20.0
      && EndsIntended(5.0, Pixels, Vertical).0.coords.x == 5.0
  {
  }

  /** As intended, both points have the position type of the coordinate system and sit at
    * `position` across the line, so a line in pixels is drawn at pixel `position`. */
  lemma EndsIntendedAtPosition(position: real, c: Coordinates, o: Orientation, a: Axes)
    ensures var e := EndsIntended(position, c, o);
      && e.0.kind == PositionTypeOf(c) && e.1.kind == PositionTypeOf(c)
      && Across(e.0.coords, o) == position && Across(e.1.coords, o) == position
      && e.0.coords != e.1.coords
      && (c == Pixels ==> Across(PixelPosition(e.0, a), o) == position && Across(PixelPosition(e.1, a), o) == position)
  {
  }

  /** `StraightLine`: its orientation, its two points, its pen, the `moved` signals emitted,
    * and its `SciQLopPlotItem` part. */
  class StraightLine {
    const item: PlotItem
    const orientation: Orientation
    var point1: ItemPosition
    var point2: ItemPosition
    var pen: Pen
    var moved: seq<real>

    /** Qt never stores a negative pen width. */
    ghost predicate Valid()
      reads this, item
    {
      item.Valid() && pen.width >= 0.0
    }

    /** The constructor: the two points through `position` across the orientation are set in
      * plot coordinates and then given the position type of `coordinates`, which keeps their
      * pixel position on the plot's axes `axes`. The pen a `QCPItemStraightLine` starts with
      * is QCustomPlot's and is a parameter. */
    constructor (position: real, movable: bool, coordinates: Coordinates, o: Orientation, pen0: Pen, axes: Axes)
      requires pen0.width >= 0.0
      ensures fresh(item) && Valid() && orientation == o && item.movable == movable && !item.queuedReplot
      ensures (point1, point2) == EndsAsWritten(position, coordinates, o, axes)
      ensures point1.kind == PositionTypeOf(coordinates) && point2.kind == PositionTypeOf(coordinates)
      ensures coordinates == Data && o == Vertical ==>
                point1.coords == Point(position, 0.0) && point2.coords == Point(position, 1.0)
      ensures coordinates == Data && o == Horizontal ==>
                point1.coords == Point(0.0, position) && point2.coords == Point(1.0, position)
      ensures coordinates == Pixels ==>
                && point1.coords == PixelPosition(ItemPosition(PtPlotCoords, Through(position, o).0), axes)
                && point2.coords == PixelPosition(ItemPosition(PtPlotCoords, Through(position, o).1), axes)
      ensures pen == pen0 && moved == []
    {
      var it := new PlotItem();
      it.SetMovable(movable);
      item := it;
      orientation := o;
      var ends := Through(position, o);
      // the positions start in plot coordinates
      var p1, p2 := ItemPosition(PtPlotCoords, ends.0), ItemPosition(PtPlotCoords, ends.1);
      var t := PositionTypeOf(coordinates);
      point1, point2 := RetypeFromPlot(p1, t, axes), RetypeFromPlot(p2, t, axes);
      pen := pen0;
      moved := [];
    }

    /** `position`: the key of the first point on a vertical line, its value on a horizontal
      * one. */
    function Position(): (r: real)
      reads this
      ensures orientation == Vertical ==> r == point1.coords.x
      ensures orientation == Horizontal ==> r == point1.coords.y
    {
      if orientation == Vertical then point1.coords.x else point1.coords.y
    }

    /** `set_position`: both points across the line's orientation at `pos`, read back by
      * `position`, and a deferred replot asked for. */
    method SetPosition(pos: real)
      requires Valid()
      modifies this, item
      ensures Valid() && Position() == pos
      ensures orientation == Vertical ==> point1.coords == Point(pos, 0.0) && point2.coords == Point(pos, 1.0)
      ensures orientation == Horizontal ==> point1.coords == Point(0.0, pos) && point2.coords == Point(1.0, pos)
      ensures point1.kind == old(point1.kind) && point2.kind == old(point2.kind)
      ensures pen == old(pen) && moved == old(moved)
      ensures item.queuedReplot && item.movable == old(item.movable) && item.tooltip == old(item.tooltip)
    {
      if orientation == Vertical {
        point1, point2 := point1.(coords := Point(pos, 0.0)), point2.(coords := Point(pos, 1.0));
      } else {
        point1, point2 := point1.(coords := Point(0.0, pos)), point2.(coords := Point(1.0, pos));
      }
      item.Replot(false);
    }

    /** `move`, called while the line is dragged: both points shift by `dx` pixels on a vertical
      * line and by `dy` on a horizontal one, the other coordinate stays, the new position is
      * emitted by `moved`, and a deferred replot is asked for. */
    method Move(dx: real, dy: real, axes: Axes)
      requires Valid() && Invertible(axes)
      modifies this, item
      ensures Valid() && moved == old(moved) + [Position()]
      ensures orientation == Vertical ==>
                && PixelPosition(point1, axes) == Point(PixelPosition(old(point1), axes).x + dx, PixelPosition(old(point1), axes).y)
                && PixelPosition(point2, axes) == Point(PixelPosition(old(point2), axes).x + dx, PixelPosition(old(point2), axes).y)
                && point1.coords.y == old(point1.coords.y) && point2.coords.y == old(point2.coords.y)
      ensures orientation == Horizontal ==>
                && PixelPosition(point1, axes) == Point(PixelPosition(old(point1), axes).x, PixelPosition(old(point1), axes).y + dy)
                && PixelPosition(point2, axes) == Point(PixelPosition(old(point2), axes).x, PixelPosition(old(point2), axes).y + dy)
                && point1.coords.x == old(point1.coords.x) && point2.coords.x == old(point2.coords.x)
      ensures point1.kind == old(point1.kind) && point2.kind == old(point2.kind) && pen == old(pen)
      ensures item.queuedReplot && item.movable == old(item.movable) && item.tooltip == old(item.tooltip)
    {
      var px1, px2 := PixelPosition(point1, axes), PixelPosition(point2, axes);
      ShiftKeepsOtherAxis(point1, axes, dx, dy);
      ShiftKeepsOtherAxis(point2, axes, dx, dy);
      if orientation == Vertical {
        point1 := SetPixelPosition(point1, Point(px1.x + dx, px1.y), axes);
        point2 := SetPixelPosition(point2, Point(px2.x + dx, px2.y), axes);
        moved := moved + [point1.coords.x];
      } else {
        point1 := SetPixelPosition(point1, Point(px1.x, px1.y + dy), axes);
        point2 := SetPixelPosition(point2, Point(px2.x, px2.y + dy), axes);
        moved := moved + [point1.coords.y];
      }
      item.Replot(false);
    }

    /** `color()`: the pen's colour. */
    function GetColor(): Color
      reads this
    {
      pen.color
    }

    /** `set_color`: the pen's colour changes, its width and style stay. */
    method SetColor(c: Color)
      requires Valid()
      modifies this
      ensures Valid() && pen == WithColor(old(pen), c) && GetColor() == c
      ensures point1 == old(point1) && point2 == old(point2) && moved == old(moved)
    {
      pen := WithColor(pen, c);
    }

    /** `line_width`: the pen's integer width. */
    function LineWidth(): (w: int)
      requires Valid()
      reads this, item
      ensures w as real - 0.5 <= pen.width < w as real + 0.5
    {
      RoundNonNeg(pen.width)
    }

    /** `set_line_width`: the pen's width changes (unless negative), its colour and style stay;
      * `line_width` reads it back only when it is whole. */
    method SetLineWidth(w: real)
      requires Valid()
      modifies this
      ensures Valid() && pen == PenWithWidthF(old(pen), w)
      ensures w >= 0.0 ==> (LineWidth() as real == w <==> w == w.Floor as real)
      ensures point1 == old(point1) && point2 == old(point2) && moved == old(moved)
    {
      pen := PenWithWidthF(pen, w);
      if w >= 0.0 {
        IntegerWidthRoundTrip(w);
      }
    }
  }

  /** `SciQLopStraightLine`, `SciQLopVerticalLine` and `SciQLopHorizontalLine`: a guarded
    * pointer to the line, null once the plot has deleted it. */
  class SciQLopStraightLine {
    var line: StraightLine?

    ghost predicate Valid()
      reads this, line
      reads if line != null then {line.item} else {}
    {
      line != null ==> line.Valid()
    }

    /** The constructor; the vertical and horizontal lines are this with the orientation
      * fixed. The plot is dereferenced without a check. The position reads back as given in
      * data coordinates; in pixels it reads back as its pixel image. */
    constructor (position: real, movable: bool, coordinates: Coordinates, o: Orientation, pen0: Pen, axes: Axes)
      requires pen0.width >= 0.0
      ensures Valid() && line != null && fresh(line) && fresh(line.item)
      ensures line.orientation == o && line.item.movable == movable
      ensures line.Position() == (if coordinates == Data then position else CoordToPixel(AlongAxis(axes, o), position))
    {
      line := new StraightLine(position, movable, coordinates, o, pen0, axes);
      EndsAsWrittenPlacement(position, o, axes);
    }

    /** The plot deleting the line. */
    method LineDeleted()
      modifies this
      ensures line == null
    {
      line := null;
    }

    /** `position`: NaN once the line is gone. */
    function Position(): (r: Double)
      reads this, line
      ensures r.None? <==> line == null
      ensures line != null ==> r == Some(line.Position())
    {
      if line != null then Some(line.Position()) else None
    }

    /** `set_position`: the call goes to the line unguarded, so the line must still exist. */
    method SetPosition(pos: real)
      requires Valid() && line != null
      modifies line, line.item
      ensures Valid() && Position() == Some(pos)
    {
      line.SetPosition(pos);
    }

    /** `color`: an invalid colour (taken as a parameter) once the line is gone. */
    function GetColor(invalid: Color): (c: Color)
      reads this, line
      ensures line != null ==> c == line.pen.color
      ensures line == null ==> c == invalid
    {
      if line != null then line.GetColor() else invalid
    }

    /** `set_color`: ignored once the line is gone. */
    method SetColor(c: Color)
      requires Valid()
      modifies line
      ensures Valid()
      ensures line != null ==> GetColor(c) == c && line.pen.width == old(line.pen.width)
    {
      if line != null {
        line.SetColor(c);
      }
    }

    /** `line_width`: NaN once the line is gone. */
    function LineWidth(): (r: Double)
      requires Valid()
      reads this, line
      reads if line != null then {line.item} else {}
      ensures r.None? <==> line == null
      ensures line != null ==> r == Some(line.LineWidth() as real)
    {
      if line != null then Some(line.LineWidth() as real) else None
    }

    /** `set_line_width`: ignored once the line is gone. */
    method SetLineWidth(w: real)
      requires Valid()
      modifies line
      ensures Valid()
      ensures line != null ==> line.pen == PenWithWidthF(old(line.pen), w)
    {
      if line != null {
        line.SetLineWidth(w);
      }
    }
  }
}
