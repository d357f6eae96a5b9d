/** Vertical spans: `VerticalSpanBorder` and `VerticalSpan` of `Items/SciQLopVerticalSpan.hpp`
  * (borders held through `QPointer`s, every propagation guarded) and of the legacy
  * `SciQLopVerticalSpan.hpp` with `src/SciQLopVerticalSpan.cpp` (plain pointers). A border is a
  * straight line through two points sharing an x in plot coordinates (their y, in axis-rect
  * ratio, is always 0 and 1 and is not modelled); a span is the rectangle between its `left`
  * and `right` x, and its range is read back from the borders. */
module VerticalSpans {
  import opened Common
  import opened QtTypes
  import PlotRange

  // ---- borders as values ----

  /** The pen a border gets from its constructor and from `set_color`: solid, width 3. */
  function BorderPen(c: Color): Pen
  {
    Pen(c, 3.0, SolidLine)
  }

  const BorderInitialColor := Color(0, 255, 255, 255)

  /** A border: the x of its two end points, its pen, the item flags, the tooltip and the
    * number of replots it requested. */
  datatype Border = Border(x1: Double, x2: Double, pen: Pen, movable: bool, visible: bool,
                           selected: bool, tooltip: string, replots: nat)

  /** `position()`: the shared x of the two points, compared with the C++ `==`. */
  function BorderPosition(b: Border): Double
  {
    if Eq(b.x1, b.x2) then b.x1 else NaN
  }

  /** `set_position(x)`: both points go to x and a replot is requested, unless `position()`
    * already equals x. */
  function SetBorderPosition(b: Border, x: Double): Border
  {
    if Ne(BorderPosition(b), x) then b.(x1 := x, x2 := x, replots := b.replots + 1) else b
  }

  /** A border's position is a number exactly when both points share that x. */
  lemma BorderPositionShared(b: Border)
    ensures BorderPosition(b).Some? <==> b.x1.Some? && b.x1 == b.x2
    ensures BorderPosition(b).Some? ==> BorderPosition(b) == b.x1
  {
  }

  /** `position()` reads back the number `set_position` stored, a second `set_position` to the
    * same number does nothing, and setting the current position is a no-op; NaN is never equal
    * to the position, so setting it always moves both points and requests a replot. */
  lemma SetBorderPositionRoundTrip(b: Border, x: Double)
    ensures x.Some? ==> BorderPosition(SetBorderPosition(b, x)) == x
    ensures x.Some? ==> SetBorderPosition(SetBorderPosition(b, x), x) == SetBorderPosition(b, x)
    ensures Eq(BorderPosition(b), x) ==> SetBorderPosition(b, x) == b
    ensures !Eq(BorderPosition(b), x) ==>
              SetBorderPosition(b, x) == b.(x1 := x, x2 := x, replots := b.replots + 1)
    ensures x.None? ==> BorderPosition(SetBorderPosition(b, x)).None?
  {
  }

  /** The border constructor: `QCPItemStraightLine` starts with its points at x 0 and 1, so the
    * position is NaN and `set_position(x)` always moves both points to x and replots; the border
    * is movable, solid cyan of width 3, and asks for a second replot unless `do_not_replot`. */
  function NewBorder(x: Double, doNotReplot: bool): Border
  {
    var b := SetBorderPosition(Border(D(0.0), D(1.0), BorderPen(BorderInitialColor), true, true, false, "", 0), x);
    if doNotReplot then b else b.(replots := b.replots + 1)
  }

  /** Whatever x is, a new border has both points at x, so its position is x, and it has asked
    * for one replot from `set_position` and one more unless `do_not_replot`. */
  lemma NewBorderAt(x: Double, doNotReplot: bool)
    ensures NewBorder(x, doNotReplot).x1 == x && NewBorder(x, doNotReplot).x2 == x
    ensures BorderPosition(NewBorder(x, doNotReplot)) == x
    ensures NewBorder(x, doNotReplot).replots == if doNotReplot then 1 else 2
    ensures NewBorder(x, doNotReplot).movable && !NewBorder(x, doNotReplot).selected
    ensures NewBorder(x, doNotReplot).pen == Pen(Color(0, 255, 255, 255), 3.0, SolidLine)
  {
  }

  // ---- which border is the lower one ----

  datatype Side = Border1 | Border2

  function Other(s: Side): Side { if s == Border1 then Border2 else Border1 }

  /** The two borders of a span. */
  datatype Borders = Borders(b1: Border, b2: Border)

  function Get(bs: Borders, s: Side): Border { if s == Border1 then bs.b1 else bs.b2 }

  function Put(bs: Borders, s: Side, b: Border): Borders
  {
    if s == Border1 then bs.(b1 := b) else bs.(b2 := b)
  }

  /** `_lower_border`: border 1 when `border1.position() <= border2.position()`, else border 2. */
  function Lower(bs: Borders): Side
  {
    if Le(BorderPosition(bs.b1), BorderPosition(bs.b2)) then Border1 else Border2
  }

  /** `_upper_border`: border 2 when `border2.position() >= border1.position()`, else border 1. */
  function Upper(bs: Borders): Side
  {
    if Le(BorderPosition(bs.b1), BorderPosition(bs.b2)) then Border2 else Border1
  }

  /** The lower and upper borders are always the two different borders; when both positions are
    * numbers the lower one is at or left of the upper one, with border 1 lower and border 2
    * upper on a tie; when a position is NaN border 2 is the lower one and border 1 the upper. */
  lemma LowerUpperOrdered(bs: Borders)
    ensures Upper(bs) == Other(Lower(bs))
    ensures BorderPosition(bs.b1).Some? && BorderPosition(bs.b2).Some? ==>
              Le(BorderPosition(Get(bs, Lower(bs))), BorderPosition(Get(bs, Upper(bs))))
    ensures Eq(BorderPosition(bs.b1), BorderPosition(bs.b2)) ==> Lower(bs) == Border1 && Upper(bs) == Border2
    ensures BorderPosition(bs.b1).None? || BorderPosition(bs.b2).None? ==>
              Lower(bs) == Border2 && Upper(bs) == Border1
  {
  }

  /** `range()` of the legacy span: `QCPRange { lower position, upper position }`. Its
    * constructor's `normalize` never swaps this pair: the lower position is not greater than
    * the upper one, and a comparison with NaN is false. */
  function SpanRange(bs: Borders): (Double, Double)
  {
    (BorderPosition(Get(bs, Lower(bs))), BorderPosition(Get(bs, Upper(bs))))
  }

  /** With both positions numbers, the range is the two positions, smaller first. */
  lemma SpanRangeOrdered(bs: Borders)
    requires BorderPosition(bs.b1).Some? && BorderPosition(bs.b2).Some?
    ensures SpanRange(bs).0 == StdMin(BorderPosition(bs.b1), BorderPosition(bs.b2))
    ensures SpanRange(bs).1 == StdMax(BorderPosition(bs.b1), BorderPosition(bs.b2))
    ensures Le(SpanRange(bs).0, SpanRange(bs).1)
  {
  }

  /** `set_left_pos` on the borders: the lower border is moved to `pos`. */
  function MoveLower(bs: Borders, pos: Double): Borders
  {
    Put(bs, Lower(bs), SetBorderPosition(Get(bs, Lower(bs)), pos))
  }

  /** `set_right_pos` on the borders: the upper border is moved to `pos`. */
  function MoveUpper(bs: Borders, pos: Double): Borders
  {
    Put(bs, Upper(bs), SetBorderPosition(Get(bs, Upper(bs)), pos))
  }

  /** Moving the lower border to a number leaves the other border where it was, so the range
    * becomes `pos` and the old upper position, smaller first: a `pos` past the upper border
    * turns the moved border into the upper one. Moving the upper border is symmetric. */
  lemma MoveLowerRange(bs: Borders, pos: Double)
    requires BorderPosition(bs.b1).Some? && BorderPosition(bs.b2).Some? && pos.Some?
    ensures var u := BorderPosition(Get(bs, Upper(bs)));
            SpanRange(MoveLower(bs, pos)) == (StdMin(pos, u), StdMax(pos, u))
  {
    LowerUpperOrdered(bs);
    var r := MoveLower(bs, pos);
    SetBorderPositionRoundTrip(Get(bs, Lower(bs)), pos);
    assert Get(r, Upper(bs)) == Get(bs, Upper(bs));
    SpanRangeOrdered(r);
  }

  lemma MoveUpperRange(bs: Borders, pos: Double)
    requires BorderPosition(bs.b1).Some? && BorderPosition(bs.b2).Some? && pos.Some?
    ensures var l := BorderPosition(Get(bs, Lower(bs)));
            SpanRange(MoveUpper(bs, pos)) == (StdMin(pos, l), StdMax(pos, l))
  {
    LowerUpperOrdered(bs);
    var r := MoveUpper(bs, pos);
    SetBorderPositionRoundTrip(Get(bs, Upper(bs)), pos);
    assert Get(r, Lower(bs)) == Get(bs, Lower(bs));
    SpanRangeOrdered(r);
  }

  /** Re-applying the borders' own positions, as the `moved` handler does, changes nothing when
    * both positions are numbers: the handler only brings the rectangle to the borders. */
  lemma ResyncIsIdentity(bs: Borders)
    requires BorderPosition(bs.b1).Some? && BorderPosition(bs.b2).Some?
    ensures var m := MoveLower(bs, BorderPosition(Get(bs, Lower(bs))));
            MoveUpper(m, BorderPosition(Get(m, Upper(m)))) == bs
  {
    SetBorderPositionRoundTrip(Get(bs, Lower(bs)), BorderPosition(Get(bs, Lower(bs))));
    assert MoveLower(bs, BorderPosition(Get(bs, Lower(bs)))) == bs;
    SetBorderPositionRoundTrip(Get(bs, Upper(bs)), BorderPosition(Get(bs, Upper(bs))));
  }

  /** The legacy `set_range` on the borders: the lower border to the smaller bound, then the
    * upper border of the result to the larger one. */
  function SetRangeBorders(bs: Borders, r: (Double, Double)): Borders
  {
    MoveUpper(MoveLower(bs, StdMin(r.0, r.1)), StdMax(r.0, r.1))
  }

  /** As written, moving a span to a range that lies wholly right of it keeps its old upper
    * position: `set_left_pos` carries the lower border past the upper one, which then becomes
    * the lower border, and `set_right_pos` moves the border that was just placed; so the range
    * read back is (old upper, new upper), not the requested range. */
  lemma SetRangeBordersLeavesBorderBehind(bs: Borders, r: (Double, Double))
    requires BorderPosition(bs.b1).Some? && BorderPosition(bs.b2).Some?
    requires r.0.Some? && r.1.Some?
    requires Lt(SpanRange(bs).1, StdMin(r.0, r.1))
    ensures SpanRange(SetRangeBorders(bs, r)) == (SpanRange(bs).1, StdMax(r.0, r.1))
    ensures SpanRange(SetRangeBorders(bs, r)) != (StdMin(r.0, r.1), StdMax(r.0, r.1))
  {
    var lo, hi := StdMin(r.0, r.1), StdMax(r.0, r.1);
    LowerUpperOrdered(bs);
    var m := MoveLower(bs, lo);
    MoveLowerRange(bs, lo);
    SetBorderPositionRoundTrip(Get(bs, Lower(bs)), lo);
    assert BorderPosition(Get(m, Lower(bs))) == lo;
    MoveUpperRange(m, hi);
  }

  /** The span (0, 1) sent to (5, 6) reads back (1, 6). */
  lemma SetRangeBordersExample()
    ensures var bs := Borders(NewBorder(D(0.0), true), NewBorder(D(1.0), true));
            SpanRange(SetRangeBorders(bs, (D(5.0), D(6.0)))) == (D(1.0), D(6.0))
  {
    var bs := Borders(NewBorder(D(0.0), true), NewBorder(D(1.0), true));
    NewBorderAt(D(0.0), true);
    NewBorderAt(D(1.0), true);
    SetRangeBordersLeavesBorderBehind(bs, (D(5.0), D(6.0)));
  }

  /** `set_range` as evidently intended: the borders that are lower and upper before the call
    * go to the smaller and the larger bound. */
  function SetRangeBordersIntended(bs: Borders, r: (Double, Double)): Borders
  {
    var l := Lower(bs);
    var m := Put(bs, l, SetBorderPosition(Get(bs, l), StdMin(r.0, r.1)));
    Put(m, Other(l), SetBorderPosition(Get(m, Other(l)), StdMax(r.0, r.1)))
  }

  /** The intended `set_range` reads back the requested bounds, smaller first. */
  lemma SetRangeBordersIntendedReadsBack(bs: Borders, r: (Double, Double))
    requires r.0.Some? && r.1.Some?
    ensures SpanRange(SetRangeBordersIntended(bs, r)) == (StdMin(r.0, r.1), StdMax(r.0, r.1))
  {
    var lo, hi := StdMin(r.0, r.1), StdMax(r.0, r.1);
    var l := Lower(bs);
    var m := Put(bs, l, SetBorderPosition(Get(bs, l), lo));
    var f := Put(m, Other(l), SetBorderPosition(Get(m, Other(l)), hi));
    SetBorderPositionRoundTrip(Get(bs, l), lo);
    SetBorderPositionRoundTrip(Get(m, Other(l)), hi);
    assert BorderPosition(Get(f, l)) == lo && BorderPosition(Get(f, Other(l))) == hi;
    SpanRangeOrdered(f);
  }

  /** `set_color` of a span: the selected brush takes the RGB complement (255 - channel) of the
    * colour and keeps its alpha. */
  function InvertedColor(c: Color): Color
  {
    Color(255 - c.r, 255 - c.g, 255 - c.b, c.a)
  }

  /** Inverting twice gives the colour back, a valid colour stays valid, and only the alpha is
    * kept. */
  lemma InvertedColorInvolution(c: Color)
    ensures InvertedColor(InvertedColor(c)) == c
    ensures ValidColor(c) ==> ValidColor(InvertedColor(c))
    ensures InvertedColor(c).a == c.a && InvertedColor(c).r + c.r == 255
    ensures InvertedColor(c).g + c.g == 255 && InvertedColor(c).b + c.b == 255
  {
  }

  /** `selectTest` of the legacy span, with the pixel x of its `left` and `right` anchors, the
    * pixel y of its `top` and `bottom` anchors and the border `selectTest` distances as
    * parameters: -1 off the span vertically or near a border, 0 inside, else the pixel distance
    * to the nearer edge. */
  function SpanSelectTest(pos: Point, leftX: real, rightX: real, topY: real, bottomY: real,
                          lowerDistance: real, upperDistance: real): real
  {
    var left := Min(leftX, rightX);
    var right := Max(leftX, rightX);
    var grip := Max(10.0, (right - left) * 0.1);
    if pos.y <= topY || pos.y >= bottomY then -1.0
    else if lowerDistance != -1.0 && lowerDistance <= grip then -1.0
    else if upperDistance != -1.0 && upperDistance <= grip then -1.0
    else if pos.x <= right && pos.x >= left then 0.0
    else Min(Abs(pos.x - left), Abs(pos.x - right))
  }

  /** The span is hit (0) exactly inside its horizontal extent, between top and bottom and away
    * from both borders; it refuses (-1) outside the vertical extent and within
    * max(10, 10% of the width) of a border; elsewhere it answers the positive distance to the
    * nearer edge. */
  lemma SpanSelectTestCases(pos: Point, leftX: real, rightX: real, topY: real, bottomY: real,
                            lowerDistance: real, upperDistance: real)
    ensures var r := SpanSelectTest(pos, leftX, rightX, topY, bottomY, lowerDistance, upperDistance);
            var left, right := Min(leftX, rightX), Max(leftX, rightX);
            var grip := Max(10.0, (right - left) * 0.1);
            var nearBorder := (lowerDistance != -1.0 && lowerDistance <= grip) || (upperDistance != -1.0 && upperDistance <= grip);
            && (pos.y <= topY || pos.y >= bottomY ==> r == -1.0)
            && (nearBorder ==> r == -1.0)
            && (r == 0.0 <==> topY < pos.y < bottomY && !nearBorder && left <= pos.x <= right)
            && (r != -1.0 && r != 0.0 ==>
                  r > 0.0 && (pos.x < left || pos.x > right) && (r == left - pos.x || r == pos.x - right))
  {
  }

  // ---- the border as an object ----

  /** `VerticalSpanBorder` (the same in both headers). */
  class SpanBorder {
    var x1: Double
    var x2: Double
    var pen: Pen
    var movable: bool
    var visible: bool
    var selected: bool
    var tooltip: string
    var replots: nat
    /** The values `moved` was emitted with, oldest first. */
    var moved: seq<Double>

    function State(): Border
      reads this
    {
      Border(x1, x2, pen, movable, visible, selected, tooltip, replots)
    }

    /** The constructor, as `NewBorder`. */
    constructor (x: Double, doNotReplot: bool)
      ensures State() == NewBorder(x, doNotReplot) && moved == []
    {
      x1, x2 := D(0.0), D(1.0);
      pen := BorderPen(BorderInitialColor);
      movable, visible, selected := true, true, false;
      tooltip, replots, moved := "", 0, [];
      new;
      SetPosition(x);
      if !doNotReplot {
        Replot();
      }
    }

    function Position(): (p: Double)
      reads this
      ensures p == BorderPosition(State())
    {
      if Eq(x1, x2) then x1 else NaN
    }

    method SetPosition(x: Double)
      modifies this
      ensures State() == SetBorderPosition(old(State()), x) && moved == old(moved)
    {
      if Ne(Position(), x) {
        x1, x2 := x, x;
        replots := replots + 1;
      }
    }

    /** `replot`, counted; the deferral is `SciQLopPlotItem`'s. */
    method Replot()
      modifies this
      ensures State() == old(State()).(replots := old(replots) + 1) && moved == old(moved)
    {
      replots := replots + 1;
    }

    method SetColor(c: Color)
      modifies this
      ensures State() == old(State()).(pen := BorderPen(c)) && moved == old(moved)
    {
      pen := BorderPen(c);
    }

    method SetMovable(m: bool)
      modifies this
      ensures State() == old(State()).(movable := m) && moved == old(moved)
    {
      movable := m;
    }

    method SetVisible(v: bool)
      modifies this
      ensures State() == old(State()).(visible := v) && moved == old(moved)
    {
      visible := v;
    }

    method SetSelected(s: bool)
      modifies this
      ensures State() == old(State()).(selected := s) && moved == old(moved)
    {
      selected := s;
    }

    method SetToolTip(t: string)
      modifies this
      ensures State() == old(State()).(tooltip := t) && moved == old(moved)
    {
      tooltip := t;
    }

    /** `move(dx, dy)` (`src/SciQLopVerticalSpan.cpp`): each point is shifted by dx pixels,
      * through the x axis' `coordToPixel` and `pixelToCoord` given as parameters, a replot is
      * requested and `moved` emitted with the new x of the first point; dy is ignored. */
    method Move(dx: real, coordToPixel: Double -> Double, pixelToCoord: Double -> Double)
      modifies this
      ensures x1 == pixelToCoord(Add(coordToPixel(old(x1)), D(dx)))
      ensures x2 == pixelToCoord(Add(coordToPixel(old(x2)), D(dx)))
      ensures pen == old(pen) && movable == old(movable) && visible == old(visible)
      ensures selected == old(selected) && tooltip == old(tooltip) && replots == old(replots) + 1
      ensures moved == old(moved) + [x1]
    {
      x1 := pixelToCoord(Add(coordToPixel(x1), D(dx)));
      x2 := pixelToCoord(Add(coordToPixel(x2), D(dx)));
      replots := replots + 1;
      moved := moved + [x1];
    }
  }

  // ---- the span of Items/SciQLopVerticalSpan.hpp ----

  /** The span's own attributes: the x of the rectangle's `topLeft` and `bottomRight`, brush,
    * selected brush, whether both pens are `Qt::NoPen`, the item flags, the tooltip, the
    * remembered border selections and the replots it requested. */
  datatype SpanFields = SpanFields(left: Double, right: Double, brush: Color, selectedBrush: Color,
                                   noPen: bool, movable: bool, visible: bool, selected: bool,
                                   tooltip: string, lowerSelected: bool, upperSelected: bool, replots: nat)

  /** The selection fix-up of `set_left_pos`: when the lower border should be selected and is
    * not, the upper border is deselected and the lower one selected. */
  function KeepLowerSelected(bs: Borders, lowerSelected: bool): Borders
  {
    if lowerSelected && !Get(bs, Lower(bs)).selected then
      var d := Put(bs, Upper(bs), Get(bs, Upper(bs)).(selected := false));
      Put(d, Lower(d), Get(d, Lower(d)).(selected := true))
    else bs
  }

  /** The selection fix-up of `set_right_pos`, symmetric. */
  function KeepUpperSelected(bs: Borders, upperSelected: bool): Borders
  {
    if upperSelected && !Get(bs, Upper(bs)).selected then
      var d := Put(bs, Lower(bs), Get(bs, Lower(bs)).(selected := false));
      Put(d, Upper(d), Get(d, Upper(d)).(selected := true))
    else bs
  }

  /** After the fix-up the remembered lower selection holds on the lower border, the other
    * border is deselected when a change was needed, and no position moves. */
  lemma KeepLowerSelectedHolds(bs: Borders, flag: bool)
    ensures var r := KeepLowerSelected(bs, flag);
            && Lower(r) == Lower(bs) && SpanRange(r) == SpanRange(bs)
            && (flag ==> Get(r, Lower(r)).selected)
            && (flag && !Get(bs, Lower(bs)).selected ==> !Get(r, Upper(r)).selected)
            && (!flag || Get(bs, Lower(bs)).selected ==> r == bs)
  {
  }

  lemma KeepUpperSelectedHolds(bs: Borders, flag: bool)
    ensures var r := KeepUpperSelected(bs, flag);
            && Upper(r) == Upper(bs) && SpanRange(r) == SpanRange(bs)
            && (flag ==> Get(r, Upper(r)).selected)
            && (flag && !Get(bs, Upper(bs)).selected ==> !Get(r, Lower(r)).selected)
            && (!flag || Get(bs, Upper(bs)).selected ==> r == bs)
  {
  }

  /** `impl::VerticalSpan` of `Items/SciQLopVerticalSpan.hpp`. Its borders are `QPointer`s, so
    * either may become null when the plot deletes it. */
  class VerticalSpan {
    var border1: SpanBorder?
    var border2: SpanBorder?
    var left: Double
    var right: Double
    var brush: Color
    var selectedBrush: Color
    var noPen: bool
    var movable: bool
    var visible: bool
    var selected: bool
    var tooltip: string
    var lowerSelected: bool
    var upperSelected: bool
    var replots: nat

    ghost predicate Valid()
      reads this
    {
      border1 != null && border2 != null ==> border1 != border2
    }

    predicate Both()
      reads this
    {
      border1 != null && border2 != null
    }

    function Own(): SpanFields
      reads this
    {
      SpanFields(left, right, brush, selectedBrush, noPen, movable, visible, selected, tooltip,
                 lowerSelected, upperSelected, replots)
    }

    function Pair(): Borders
      requires Both()
      reads this, border1, border2
    {
      Borders(border1.State(), border2.State())
    }

    /** The constructor of this span lives in a source file that is not part of this model; this
      * one takes the two borders and the span's attributes as they are after it. */
    constructor (b1: SpanBorder, b2: SpanBorder, fields: SpanFields)
      requires b1 != b2
      ensures Valid() && border1 == b1 && border2 == b2 && Own() == fields
    {
      border1, border2 := b1, b2;
      left, right, brush, selectedBrush := fields.left, fields.right, fields.brush, fields.selectedBrush;
      noPen, movable, visible, selected := fields.noPen, fields.movable, fields.visible, fields.selected;
      tooltip, lowerSelected, upperSelected, replots := fields.tooltip, fields.lowerSelected, fields.upperSelected, fields.replots;
    }

    /** The plot deleting a border: its `QPointer` becomes null. */
    method BorderDeleted(s: Side)
      modifies this
      ensures s == Border1 ==> border1 == null && border2 == old(border2)
      ensures s == Border2 ==> border2 == null && border1 == old(border1)
      ensures Own() == old(Own()) && !Both()
    {
      if s == Border1 {
        border1 := null;
      } else {
        border2 := null;
      }
    }

    /** `_lower_border`: null unless both borders exist. */
    function LowerBorder(): (b: SpanBorder?)
      reads this, border1, border2
      ensures b == null <==> !Both()
      ensures b != null ==> b == if Lower(Pair()) == Border1 then border1 else border2
    {
      if border1 != null && border2 != null then
        if Le(border1.Position(), border2.Position()) then border1 else border2
      else null
    }

    /** `_upper_border`: null unless both borders exist. */
    function UpperBorder(): (b: SpanBorder?)
      reads this, border1, border2
      ensures b == null <==> !Both()
      ensures b != null ==> b == if Upper(Pair()) == Border1 then border1 else border2
    {
      if border1 != null && border2 != null then
        if Le(border1.Position(), border2.Position()) then border2 else border1
      else null
    }

    /** The lower border moved to `pos`, both borders existing. */
    method MoveLowerBorder(pos: Double)
      requires Valid() && Both()
      modifies border1, border2
      ensures Pair() == MoveLower(old(Pair()), pos)
    {
      var lower := LowerBorder();
      lower.SetPosition(pos);
    }

    /** The upper border moved to `pos`, both borders existing. */
    method MoveUpperBorder(pos: Double)
      requires Valid() && Both()
      modifies border1, border2
      ensures Pair() == MoveUpper(old(Pair()), pos)
    {
      var upper := UpperBorder();
      upper.SetPosition(pos);
    }

    /** The selection fix-up of `set_left_pos`, both borders existing. */
    method RestoreLowerSelection()
      requires Valid() && Both()
      modifies border1, border2
      ensures Pair() == KeepLowerSelected(old(Pair()), lowerSelected)
    {
      var lo := LowerBorder();
      var up := UpperBorder();
      if lowerSelected && !lo.selected {
        up.SetSelected(false);
        lo.SetSelected(true);
      }
    }

    /** The selection fix-up of `set_right_pos`, both borders existing. */
    method RestoreUpperSelection()
      requires Valid() && Both()
      modifies border1, border2
      ensures Pair() == KeepUpperSelected(old(Pair()), upperSelected)
    {
      var lo := LowerBorder();
      var up := UpperBorder();
      if upperSelected && !up.selected {
        lo.SetSelected(false);
        up.SetSelected(true);
      }
    }

    /** `set_left_pos`: with both borders, the rectangle's left goes to `pos`, the lower border
      * is moved there and the remembered lower selection is restored; otherwise nothing. */
    method SetLeftPos(pos: Double)
      requires Valid()
      modifies this, border1, border2
      ensures border1 == old(border1) && border2 == old(border2)
      ensures old(Both()) ==> Pair() == KeepLowerSelected(MoveLower(old(Pair()), pos), lowerSelected)
      ensures old(Both()) ==> Own() == old(Own()).(left := pos)
      ensures !old(Both()) ==> Own() == old(Own())
      ensures !old(Both()) && border1 != null ==> border1.State() == old(border1.State())
      ensures !old(Both()) && border2 != null ==> border2.State() == old(border2.State())
    {
      if border1 != null && border2 != null {
        left := pos;
        MoveLowerBorder(pos);
        RestoreLowerSelection();
      }
    }

    /** `set_right_pos`, symmetric. */
    method SetRightPos(pos: Double)
      requires Valid()
      modifies this, border1, border2
      ensures border1 == old(border1) && border2 == old(border2)
      ensures old(Both()) ==> Pair() == KeepUpperSelected(MoveUpper(old(Pair()), pos), upperSelected)
      ensures old(Both()) ==> Own() == old(Own()).(right := pos)
      ensures !old(Both()) ==> Own() == old(Own())
      ensures !old(Both()) && border1 != null ==> border1.State() == old(border1.State())
      ensures !old(Both()) && border2 != null ==> border2.State() == old(border2.State())
    {
      if border1 != null && border2 != null {
        right := pos;
        MoveUpperBorder(pos);
        RestoreUpperSelection();
      }
    }

    /** `setMovable`: the span and both borders, only when both borders exist. */
    method SetMovable(m: bool)
      requires Valid()
      modifies this, border1, border2
      ensures border1 == old(border1) && border2 == old(border2)
      ensures old(Both()) ==> Own() == old(Own()).(movable := m)
      ensures old(Both()) ==> border1.State() == old(border1.State()).(movable := m)
      ensures old(Both()) ==> border2.State() == old(border2.State()).(movable := m)
      ensures !old(Both()) ==> Own() == old(Own())
      ensures !old(Both()) && border1 != null ==> border1.State() == old(border1.State())
      ensures !old(Both()) && border2 != null ==> border2.State() == old(border2.State())
    {
      if border1 != null && border2 != null {
        movable := m;
        border1.SetMovable(m);
        border2.SetMovable(m);
      }
    }

    function Movable(): (m: bool)
      reads this
      ensures m == Own().movable
    {
      movable
    }

    /** `set_visible`: the span always, the borders only when both exist. */
    method SetVisible(v: bool)
      requires Valid()
      modifies this, border1, border2
      ensures border1 == old(border1) && border2 == old(border2)
      ensures Own() == old(Own()).(visible := v)
      ensures old(Both()) ==> border1.State() == old(border1.State()).(visible := v)
      ensures old(Both()) ==> border2.State() == old(border2.State()).(visible := v)
      ensures !old(Both()) && border1 != null ==> border1.State() == old(border1.State())
      ensures !old(Both()) && border2 != null ==> border2.State() == old(border2.State())
    {
      visible := v;
      if border1 != null && border2 != null {
        border1.SetVisible(v);
        border2.SetVisible(v);
      }
    }

    /** `range()`: `SciQLopPlotRange { lower position, upper position }`, whose constructor
      * orders the pair. Both borders are dereferenced unguarded. */
    function Range(): (r: PlotRange.SciQLopPlotRange)
      requires Both()
      reads this, border1, border2
      ensures r == PlotRange.Make(SpanRange(Pair()).0, SpanRange(Pair()).1)
    {
      PlotRange.SciQLopPlotRange(StdMin(LowerBorder().Position(), UpperBorder().Position()),
                                 StdMax(LowerBorder().Position(), UpperBorder().Position()))
    }

    /** `set_borders_tool_tip`: both borders, only when both exist. */
    method SetBordersToolTip(t: string)
      requires Valid()
      modifies border1, border2
      ensures old(Both()) ==> border1.State() == old(border1.State()).(tooltip := t)
      ensures old(Both()) ==> border2.State() == old(border2.State()).(tooltip := t)
      ensures !old(Both()) && border1 != null ==> border1.State() == old(border1.State())
      ensures !old(Both()) && border2 != null ==> border2.State() == old(border2.State())
    {
      if border1 != null && border2 != null {
        border1.SetToolTip(t);
        border2.SetToolTip(t);
      }
    }

    /** `set_borders_color`: both borders, only when both exist. */
    method SetBordersColor(c: Color)
      requires Valid()
      modifies border1, border2
      ensures old(Both()) ==> border1.State() == old(border1.State()).(pen := BorderPen(c))
      ensures old(Both()) ==> border2.State() == old(border2.State()).(pen := BorderPen(c))
      ensures !old(Both()) && border1 != null ==> border1.State() == old(border1.State())
      ensures !old(Both()) && border2 != null ==> border2.State() == old(border2.State())
    {
      if border1 != null && border2 != null {
        border1.SetColor(c);
        border2.SetColor(c);
      }
    }

    /** `borders_color`: the pen colour of border 1, or an invalid colour (`None`) when it is
      * gone; border 2 is not consulted. */
    function BordersColor(): (c: Option<Color>)
      reads this, border1
      ensures c.Some? <==> border1 != null
      ensures c.Some? ==> c.value == border1.pen.color
    {
      if border1 != null then Some(border1.pen.color) else None
    }

    /** `set_color`: brush, inverted selected brush, and no pens. */
    method SetColor(c: Color)
      modifies this
      ensures Own() == old(Own()).(brush := c, selectedBrush := InvertedColor(c), noPen := true)
      ensures border1 == old(border1) && border2 == old(border2)
    {
      brush, selectedBrush, noPen := c, InvertedColor(c), true;
    }

    function SpanColor(): (c: Color)
      reads this
      ensures c == Own().brush
    {
      brush
    }

    /** `replot`: one replot for each border when both exist, then the span's own. */
    method Replot()
      requires Valid()
      modifies this, border1, border2
      ensures border1 == old(border1) && border2 == old(border2)
      ensures Own() == old(Own()).(replots := old(replots) + 1)
      ensures old(Both()) ==> border1.State() == old(border1.State()).(replots := old(border1.replots) + 1)
      ensures old(Both()) ==> border2.State() == old(border2.State()).(replots := old(border2.replots) + 1)
      ensures !old(Both()) && border1 != null ==> border1.State() == old(border1.State())
      ensures !old(Both()) && border2 != null ==> border2.State() == old(border2.State())
    {
      if border1 != null && border2 != null {
        border1.Replot();
        border2.Replot();
      }
      replots := replots + 1;
    }

    /** The wrapper's `set_read_only(ro)`: `setMovable(!ro)`. */
    method SetReadOnly(ro: bool)
      requires Valid()
      modifies this, border1, border2
      ensures border1 == old(border1) && border2 == old(border2)
      ensures old(Both()) ==> ReadOnly() == ro
      ensures !old(Both()) ==> ReadOnly() == old(ReadOnly())
    {
      SetMovable(!ro);
    }

    /** The wrapper's `read_only()`: not movable. */
    function ReadOnly(): (ro: bool)
      reads this
      ensures ro <==> !Movable()
    {
      !movable
    }

    /** The wrapper's `set_tool_tip`: the span's own tooltip always, the borders' through
      * `set_borders_tool_tip`. */
    method SetToolTip(t: string)
      requires Valid()
      modifies this, border1, border2
      ensures border1 == old(border1) && border2 == old(border2)
      ensures Own() == old(Own()).(tooltip := t)
      ensures old(Both()) ==> border1.tooltip == t && border2.tooltip == t
      ensures !old(Both()) && border1 != null ==> border1.State() == old(border1.State())
      ensures !old(Both()) && border2 != null ==> border2.State() == old(border2.State())
    {
      tooltip := t;
      SetBordersToolTip(t);
    }
  }

  // ---- the legacy span of SciQLopVerticalSpan.hpp and src/SciQLopVerticalSpan.cpp ----

  /** The legacy span's own attributes. */
  datatype LegacyFields = LegacyFields(left: Double, right: Double, brush: Color, selectedBrush: Color,
                                       noPen: bool, movable: bool, visible: bool, selected: bool,
                                       tooltip: string, replots: nat)

  /** `QCPRange::operator!=`: not both bounds equal, so a range with a NaN bound always differs. */
  predicate RangesDiffer(a: (Double, Double), b: (Double, Double))
  {
    !(Eq(a.0, b.0) && Eq(a.1, b.1))
  }

  /** Both borders after the replot they are asked for by the span's `replot`. */
  function Replotted(bs: Borders): Borders
  {
    Borders(bs.b1.(replots := bs.b1.replots + 1), bs.b2.(replots := bs.b2.replots + 1))
  }

  /** Replots move no border. */
  lemma ReplottedKeepsRange(bs: Borders)
    ensures BorderPosition(Replotted(bs).b1) == BorderPosition(bs.b1)
    ensures BorderPosition(Replotted(bs).b2) == BorderPosition(bs.b2)
    ensures SpanRange(Replotted(bs)) == SpanRange(bs)
  {
  }

  /** The colour the legacy constructor gives the span. */
  const LegacyInitialColor := Color(0, 255, 0, 40)

  /** The borders the legacy constructor creates, made movable by its `setMovable(true)`:
    * border 1 at the lower bound without a replot, border 2 at the upper bound. */
  function InitialBorders(range: (Double, Double), doNotReplot: bool): Borders
  {
    Borders(NewBorder(range.0, true).(movable := true), NewBorder(range.1, doNotReplot).(movable := true))
  }

  /** For bounds that are numbers, `set_left_pos(min)` then `set_right_pos(max)` leave the new
    * borders where they were created, and the range reads back the bounds, smaller first. */
  lemma InitialBordersStay(range: (Double, Double), doNotReplot: bool)
    requires range.0.Some? && range.1.Some?
    ensures var bs := InitialBorders(range, doNotReplot);
            && MoveUpper(MoveLower(bs, StdMin(range.0, range.1)), StdMax(range.0, range.1)) == bs
            && SpanRange(bs) == (StdMin(range.0, range.1), StdMax(range.0, range.1))
  {
    var bs := InitialBorders(range, doNotReplot);
    NewBorderAt(range.0, true);
    NewBorderAt(range.1, doNotReplot);
    SpanRangeOrdered(bs);
    LowerUpperOrdered(bs);
    ResyncIsIdentity(bs);
  }

  /** Placing the borders of a freshly built span at its own range, and replotting or not,
    * leaves the span's range that range. */
  lemma PlacedRange(initial: Borders, range: (Double, Double), doNotReplot: bool)
    ensures var p := MoveUpper(MoveLower(initial, StdMin(range.0, range.1)), StdMax(range.0, range.1));
            initial == InitialBorders(range, doNotReplot) && range.0.Some? && range.1.Some? ==>
              SpanRange(if doNotReplot then p else Replotted(p)) == (StdMin(range.0, range.1), StdMax(range.0, range.1))
  {
    var p := MoveUpper(MoveLower(initial, StdMin(range.0, range.1)), StdMax(range.0, range.1));
    ReplottedKeepsRange(p);
    if initial == InitialBorders(range, doNotReplot) && range.0.Some? && range.1.Some? {
      InitialBordersStay(range, doNotReplot);
    }
  }

  /** `VerticalSpan` of the legacy header; its borders are plain pointers, never null. */
  class LegacyVerticalSpan {
    const border1: SpanBorder
    const border2: SpanBorder
    var left: Double
    var right: Double
    var brush: Color
    var selectedBrush: Color
    var noPen: bool
    var movable: bool
    var visible: bool
    var selected: bool
    var tooltip: string
    var replots: nat
    /** The ranges `range_changed` was emitted with, oldest first. */
    var rangeSignals: seq<(Double, Double)>

    ghost predicate Valid()
      reads this
    {
      border1 != border2
    }

    function Own(): LegacyFields
      reads this
    {
      LegacyFields(left, right, brush, selectedBrush, noPen, movable, visible, selected, tooltip, replots)
    }

    function Pair(): Borders
      reads this, border1, border2
    {
      Borders(border1.State(), border2.State())
    }

    /** The constructor (`src/SciQLopVerticalSpan.cpp`): border 1 at the lower bound, border 2 at
      * the upper bound, the span green and translucent, movable with its borders, visible, and
      * its rectangle from min to max of the bounds; a replot unless `do_not_replot`. */
    constructor (range: (Double, Double), doNotReplot: bool)
      ensures Valid() && fresh(border1) && fresh(border2) && rangeSignals == []
      ensures var p := MoveUpper(MoveLower(InitialBorders(range, doNotReplot), StdMin(range.0, range.1)), StdMax(range.0, range.1));
              Pair() == if doNotReplot then p else Replotted(p)
      ensures range.0.Some? && range.1.Some? ==> Range() == (StdMin(range.0, range.1), StdMax(range.0, range.1))
      ensures Own() == LegacyFields(StdMin(range.0, range.1), StdMax(range.0, range.1), LegacyInitialColor,
                                    InvertedColor(LegacyInitialColor), true, true, true, false, "",
                                    if doNotReplot then 0 else 1)
    {
      border1 := new SpanBorder(range.0, true);
      border2 := new SpanBorder(range.1, doNotReplot);
      left, right := NaN, NaN;
      brush, selectedBrush, noPen := LegacyInitialColor, InvertedColor(LegacyInitialColor), true;
      movable, visible, selected := true, true, false;
      tooltip, replots, rangeSignals := "", 0, [];
      new;
      border1.SetMovable(true);
      border2.SetMovable(true);
      assert Pair() == InitialBorders(range, doNotReplot);
      Place(range, doNotReplot);
    }

    /** The end of the constructor: `set_left_pos(min)`, `set_right_pos(max)` and the optional
      * replot. */
    method Place(range: (Double, Double), doNotReplot: bool)
      requires Valid()
      modifies this, border1, border2
      ensures var p := MoveUpper(MoveLower(old(Pair()), StdMin(range.0, range.1)), StdMax(range.0, range.1));
              Pair() == if doNotReplot then p else Replotted(p)
      ensures Own() == old(Own()).(left := StdMin(range.0, range.1), right := StdMax(range.0, range.1),
                                   replots := if doNotReplot then old(replots) else old(replots) + 1)
      ensures rangeSignals == old(rangeSignals)
      ensures old(Pair()) == InitialBorders(range, doNotReplot) && range.0.Some? && range.1.Some? ==>
                Range() == (StdMin(range.0, range.1), StdMax(range.0, range.1))
    {
      ghost var initial := Pair();
      SetLeftPos(StdMin(range.0, range.1));
      SetRightPos(StdMax(range.0, range.1));
      if !doNotReplot {
        Replot();
      }
      PlacedRange(initial, range, doNotReplot);
    }

    /** `set_left_pos`: the rectangle's left and the lower border go to `pos`. */
    method SetLeftPos(pos: Double)
      requires Valid()
      modifies this, border1, border2
      ensures Pair() == MoveLower(old(Pair()), pos) && Own() == old(Own()).(left := pos)
      ensures rangeSignals == old(rangeSignals)
    {
      left := pos;
      var lower := if Le(border1.Position(), border2.Position()) then border1 else border2;
      lower.SetPosition(pos);
    }

    /** `set_right_pos`: the rectangle's right and the upper border go to `pos`. */
    method SetRightPos(pos: Double)
      requires Valid()
      modifies this, border1, border2
      ensures Pair() == MoveUpper(old(Pair()), pos) && Own() == old(Own()).(right := pos)
      ensures rangeSignals == old(rangeSignals)
    {
      right := pos;
      var upper := if Le(border1.Position(), border2.Position()) then border2 else border1;
      upper.SetPosition(pos);
    }

    /** `setMovable`: the span and both borders. */
    method SetMovable(m: bool)
      requires Valid()
      modifies this, border1, border2
      ensures Own() == old(Own()).(movable := m) && rangeSignals == old(rangeSignals)
      ensures Pair() == Borders(old(border1.State()).(movable := m), old(border2.State()).(movable := m))
    {
      movable := m;
      border1.SetMovable(m);
      border2.SetMovable(m);
    }

    /** `set_visible`: the span and both borders. */
    method SetVisible(v: bool)
      requires Valid()
      modifies this, border1, border2
      ensures Own() == old(Own()).(visible := v) && rangeSignals == old(rangeSignals)
      ensures Pair() == Borders(old(border1.State()).(visible := v), old(border2.State()).(visible := v))
    {
      visible := v;
      border1.SetVisible(v);
      border2.SetVisible(v);
    }

    /** `range()`: the lower and the upper border's positions. */
    function Range(): (r: (Double, Double))
      reads this, border1, border2
      ensures r == SpanRange(Pair())
    {
      if Le(border1.Position(), border2.Position()) then (border1.Position(), border2.Position())
      else (border2.Position(), border1.Position())
    }

    /** `set_borders_color`. */
    method SetBordersColor(c: Color)
      requires Valid()
      modifies border1, border2
      ensures Pair() == Borders(old(border1.State()).(pen := BorderPen(c)), old(border2.State()).(pen := BorderPen(c)))
    {
      border1.SetColor(c);
      border2.SetColor(c);
    }

    /** `borders_color`: the pen colour of border 1. */
    function BordersColor(): (c: Color)
      reads this, border1
      ensures c == border1.State().pen.color
    {
      border1.pen.color
    }

    /** `set_color`: brush, inverted selected brush, and no pens. */
    method SetColor(c: Color)
      modifies this
      ensures Own() == old(Own()).(brush := c, selectedBrush := InvertedColor(c), noPen := true)
      ensures rangeSignals == old(rangeSignals)
    {
      brush, selectedBrush, noPen := c, InvertedColor(c), true;
    }

    /** `replot`: border 1, border 2, then the span. */
    method Replot()
      requires Valid()
      modifies this, border1, border2
      ensures Pair() == Replotted(old(Pair()))
      ensures Own() == old(Own()).(replots := old(replots) + 1) && rangeSignals == old(rangeSignals)
    {
      border1.Replot();
      border2.Replot();
      replots := replots + 1;
    }

    /** `set_range`: nothing when the requested range equals `range()`; otherwise the rectangle
      * and the borders go through `set_left_pos(min)` and `set_right_pos(max)`, a replot is
      * requested and `range_changed` emitted once with the range as given. */
    method SetRange(r: (Double, Double))
      requires Valid()
      modifies this, border1, border2
      ensures !RangesDiffer(old(Range()), r) ==>
                Pair() == old(Pair()) && Own() == old(Own()) && rangeSignals == old(rangeSignals)
      ensures RangesDiffer(old(Range()), r) ==>
                && Pair() == Replotted(SetRangeBorders(old(Pair()), r))
                && Own() == old(Own()).(left := StdMin(r.0, r.1), right := StdMax(r.0, r.1), replots := old(replots) + 1)
                && rangeSignals == old(rangeSignals) + [r]
    {
      if RangesDiffer(Range(), r) {
        SetLeftPos(StdMin(r.0, r.1));
        SetRightPos(StdMax(r.0, r.1));
        Replot();
        rangeSignals := rangeSignals + [r];
      }
    }

    /** `move(dx, dy)`: for a non-zero dx, the rectangle's left and right pixel x are shifted by
      * dx through the x axis' `coordToPixel` and `pixelToCoord` (parameters) and applied with
      * `set_left_pos` and `set_right_pos`; then a replot and one `range_changed` with the new
      * `range()`. dy is ignored. */
    method Move(dx: real, coordToPixel: Double -> Double, pixelToCoord: Double -> Double)
      requires Valid()
      modifies this, border1, border2
      ensures dx == 0.0 ==> Pair() == old(Pair()) && Own() == old(Own()) && rangeSignals == old(rangeSignals)
      ensures dx != 0.0 ==>
                var l := pixelToCoord(Add(coordToPixel(old(left)), D(dx)));
                var r := pixelToCoord(Add(coordToPixel(old(right)), D(dx)));
                && Pair() == Replotted(MoveUpper(MoveLower(old(Pair()), l), r))
                && Own() == old(Own()).(left := l, right := r, replots := old(replots) + 1)
                && rangeSignals == old(rangeSignals) + [Range()]
    {
      if dx != 0.0 {
        SetLeftPos(pixelToCoord(Add(coordToPixel(left), D(dx))));
        SetRightPos(pixelToCoord(Add(coordToPixel(right), D(dx))));
        Replot();
        rangeSignals := rangeSignals + [Range()];
      }
    }

    /** The handler connected to both borders' `moved`: the rectangle is brought to the lower and
      * upper borders' positions, a replot requested and `range_changed` emitted with `range()`. */
    method OnBorderMoved()
      requires Valid()
      modifies this, border1, border2
      ensures var m := MoveLower(old(Pair()), SpanRange(old(Pair())).0);
              && Pair() == Replotted(MoveUpper(m, SpanRange(m).1))
              && Own() == old(Own()).(left := SpanRange(old(Pair())).0, right := SpanRange(m).1, replots := old(replots) + 1)
              && rangeSignals == old(rangeSignals) + [Range()]
      ensures BorderPosition(old(border1.State())).Some? && BorderPosition(old(border2.State())).Some? ==>
                Pair() == Replotted(old(Pair())) && left == Range().0 && right == Range().1
    {
      if BorderPosition(border1.State()).Some? && BorderPosition(border2.State()).Some? {
        ResyncIsIdentity(Pair());
      }
      SetLeftPos(Range().0);
      SetRightPos(Range().1);
      Replot();
      rangeSignals := rangeSignals + [Range()];
    }

    /** `selectTest`, with the x axis' `coordToPixel`, the pixel y of the axis rect's top and
      * bottom (the rectangle spans it vertically) and the borders' own `selectTest` distances
      * as parameters. */
    function SelectTest(pos: Point, coordToPixel: Double -> Double, topY: real, bottomY: real,
                        lowerDistance: real, upperDistance: real): (d: real)
      reads this
      requires coordToPixel(left).Some? && coordToPixel(right).Some?
      ensures d == SpanSelectTest(pos, coordToPixel(left).value, coordToPixel(right).value, topY, bottomY,
                                  lowerDistance, upperDistance)
    {
      SpanSelectTest(pos, coordToPixel(left).value, coordToPixel(right).value, topY, bottomY,
                     lowerDistance, upperDistance)
    }

    /** The wrapper's `set_read_only(ro)`: `setMovable(!ro)`. */
    method SetReadOnly(ro: bool)
      requires Valid()
      modifies this, border1, border2
      ensures ReadOnly() == ro && border1.movable == !ro && border2.movable == !ro
      ensures SpanRange(Pair()) == old(SpanRange(Pair()))
    {
      SetMovable(!ro);
    }

    /** The wrapper's `read_only()`. */
    function ReadOnly(): (ro: bool)
      reads this
      ensures ro <==> !Own().movable
    {
      !movable
    }

    /** The wrapper's `set_tool_tip`: the span and both borders. */
    method SetToolTip(t: string)
      requires Valid()
      modifies this, border1, border2
      ensures Own() == old(Own()).(tooltip := t) && rangeSignals == old(rangeSignals)
      ensures Pair() == Borders(old(border1.State()).(tooltip := t), old(border2.State()).(tooltip := t))
    {
      tooltip := t;
      border1.SetToolTip(t);
      border2.SetToolTip(t);
    }

    /** A border dragged by dx pixels: its `move`, then the handler its `moved` signal reaches.
      * When the borders' positions are numbers afterwards, the rectangle spans exactly the
      * range between them. */
    method DragBorder(s: Side, dx: real, coordToPixel: Double -> Double, pixelToCoord: Double -> Double)
      requires Valid()
      modifies this, border1, border2
      ensures rangeSignals == old(rangeSignals) + [Range()]
      ensures BorderPosition(border1.State()).Some? && BorderPosition(border2.State()).Some? ==>
                left == Range().0 && right == Range().1
    {
      var b := if s == Border1 then border1 else border2;
      b.Move(dx, coordToPixel, pixelToCoord);
      OnBorderMoved();
    }
  }
}
