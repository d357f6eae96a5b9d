/** `QCPTimeSpan` and its two `QCPTimeSPanBorder`s (`Qt/QCustomPlot/QCPTimeSpan.hpp`): a
  * rectangle over a time range that extends over the whole height of the axis rectangle, with a
  * draggable line on each side. Horizontally the rectangle is in plot coordinates (the bottom
  * axis); vertically in axis-rectangle ratios, 0 at the top and 1 at the bottom. */
module TimeSpan {
  import opened Common
  import opened QtTypes
  import opened AxisRange
  import opened StraightLines

  /** Where the axis rectangle is on screen, vertically. */
  datatype AxisRectFrame = AxisRectFrame(top: real, height: real)

  /** A vertical axis-rectangle ratio in pixels. */
  function RatioToPixel(f: AxisRectFrame, ratio: real): real { f.top + ratio * f.height }

  /** The pen of a border: cyan, three pixels wide. */
  const BorderPen := Pen(Color(0, 255, 255, 255), 3.0, SolidLine)

  /** The rectangle's brush, a translucent green, and its pen, none. */
  const SpanBrush := Brush(Color(0, 255, 0, 40))
  const SpanPen := Pen(Color(0, 0, 0, 255), 1.0, NoPen)

  /** `QCPTimeSPanBorder::contains` in pixels: the pixel column `x` is at most the larger of
    * the border's pen width and ten pixels away from the border's column `bx`. */
  function BorderContainsPixel(bx: real, penWidth: real, x: int): (b: bool)
    ensures b <==> Abs(x as real - bx) <= Max(penWidth, 10.0)
  {
    x as real >= bx - Max(penWidth, 10.0) && x as real <= bx + Max(penWidth, 10.0)
  }

  /** `QCPTimeSPanBorder::contains` in data coordinates: the x coordinate is turned into a
    * pixel column, truncated to an integer, and tested as above. */
  function BorderContainsData(bx: real, penWidth: real, xAxis: AxisMap, x: real): (b: bool)
    ensures b <==> Abs(TruncReal(CoordToPixel(xAxis, x)) as real - bx) <= Max(penWidth, 10.0)
  {
    BorderContainsPixel(bx, penWidth, TruncReal(CoordToPixel(xAxis, x)))
  }

  /** With the borders' three-pixel pen a border catches the mouse within ten pixels. */
  lemma BorderToleranceIsTen(bx: real, x: int)
    ensures BorderContainsPixel(bx, BorderPen.width, x) <==> bx - 10.0 <= x as real <= bx + 10.0
  {
  }

  /** The time distance a border or the span moves for a drag of `dx` pixels:
    * `pixelToCoord(dx) - pixelToCoord(0)`. */
  function PixelDistance(xAxis: AxisMap, dx: int): (d: real)
    requires xAxis.scale != 0.0
    ensures d * xAxis.scale == dx as real
  {
    PixelToCoord(xAxis, dx as real) - PixelToCoord(xAxis, 0.0)
  }

  /** `contains(data_coordinates)` as written: x between the left and right keys, and y at most
    * the top corner's value and at least the bottom corner's. */
  function ContainsDataAsWritten(left: real, right: real, topValue: real, bottomValue: real, x: real, y: real): bool
  {
    x <= right && x >= left && y <= topValue && y >= bottomValue
  }

  /** The vertical values of the corners are ratios, 0 for the top and 1 for the bottom, so
    * the vertical test asks for 1 <= y <= 0: no point is ever inside. */
  lemma ContainsDataNeverHolds(left: real, right: real, x: real, y: real)
    ensures !ContainsDataAsWritten(left, right, 0.0, 1.0, x, y)
  {
  }

  /** The test as intended: the span covers the whole height, so only the time matters. */
  function ContainsData(left: real, right: real, x: real): bool
  {
    left <= x <= right
  }

  /** A point is inside the moved span exactly when the point moved back is inside the span, and
    * both ends of a span in order are inside it. */
  lemma ContainsDataFollowsMove(r: Range, dt: real, x: real)
    ensures ContainsData(Shifted(r, dt).first, Shifted(r, dt).second, x) <==> ContainsData(r.first, r.second, x - dt)
    ensures r.first <= r.second ==> ContainsData(r.first, r.second, r.first) && ContainsData(r.first, r.second, r.second)
  {
  }

  /** The intended test holds for some point of every ordered span, where the one as written
    * holds for none. */
  lemma ContainsDataDiffers(r: Range)
    requires r.first <= r.second
    ensures ContainsData(r.first, r.second, Center(r)) && !ContainsDataAsWritten(r.first, r.second, 0.0, 1.0, Center(r), 0.5)
  {
  }

  /** `QCPTimeSpan`: the keys of its corners, their vertical ratios, its selection and that of
    * its borders, its pen, brush and selectability, and the queued replots it asked for. */
  class QCPTimeSpan {
    var left: real
    var right: real
    var topRatio: real
    var bottomRatio: real
    var selected: bool
    var leftBorderSelected: bool
    var rightBorderSelected: bool
    var selectable: bool
    var brush: Brush
    var pen: Pen
    var replots: nat

    /** The constructor: the range set (one queued replot), a green brush, no pen, selectable. */
    constructor (timeRange: Range)
      ensures Range() == timeRange && topRatio == 0.0 && bottomRatio == 1.0
      ensures brush == SpanBrush && pen == SpanPen && selectable && replots == 1
      ensures !selected && !leftBorderSelected && !rightBorderSelected
    {
      left, right := timeRange.first, timeRange.second;
      topRatio, bottomRatio := 0.0, 1.0;
      replots := 1;
      selected, leftBorderSelected, rightBorderSelected := false, false, false;
      brush, pen, selectable := SpanBrush, SpanPen, true;
    }

    /** `range`: the keys of the top-left and bottom-right corners. */
    function Range(): (r: Range)
      reads this
      ensures r.first == left && r.second == right
    {
      AxisRange.Range(left, right)
    }

    /** `set_range`: the corners at the range's ends, from the top to the bottom of the axis
      * rectangle, and a queued replot. */
    method SetRange(r: Range)
      modifies this
      ensures Range() == r && topRatio == 0.0 && bottomRatio == 1.0 && replots == old(replots) + 1
      ensures selected == old(selected) && leftBorderSelected == old(leftBorderSelected)
      ensures rightBorderSelected == old(rightBorderSelected)
      ensures brush == old(brush) && pen == old(pen) && selectable == old(selectable)
    {
      left, right := r.first, r.second;
      topRatio, bottomRatio := 0.0, 1.0;
      replots := replots + 1;
    }

    /** `center`: the midpoint of the corners, in plot coordinates horizontally and in ratios
      * vertically. */
    function DataCenter(): (c: seq<real>)
      reads this
      ensures |c| == 2 && c[0] - left == right - c[0] && c[1] - topRatio == bottomRatio - c[1]
    {
      [(left + right) / 2.0, (topRatio + bottomRatio) / 2.0]
    }

    /** `pix_center`: the midpoint of the corners' pixel positions, truncated to integers. */
    function PixelCenter(xAxis: AxisMap, frame: AxisRectFrame): (c: seq<int>)
      reads this
      ensures |c| == 2
      ensures c[0] == TruncReal((CoordToPixel(xAxis, left) + CoordToPixel(xAxis, right)) / 2.0)
      ensures c[1] == TruncReal((RatioToPixel(frame, topRatio) + RatioToPixel(frame, bottomRatio)) / 2.0)
    {
      [TruncReal((CoordToPixel(xAxis, left) + CoordToPixel(xAxis, right)) / 2.0),
       TruncReal((RatioToPixel(frame, topRatio) + RatioToPixel(frame, bottomRatio)) / 2.0)]
    }

    /** `move(dt)`: both ends shifted by `dt`, so the width is kept. */
    method Move(dt: real)
      modifies this
      ensures Range() == Shifted(old(Range()), dt) && Width(Range()) == Width(old(Range()))
      ensures Center(Range()) == Center(old(Range())) + dt
      ensures topRatio == 0.0 && bottomRatio == 1.0 && replots == old(replots) + 1
      ensures selected == old(selected) && leftBorderSelected == old(leftBorderSelected)
      ensures rightBorderSelected == old(rightBorderSelected)
      ensures brush == old(brush) && pen == old(pen) && selectable == old(selectable)
    {
      SetRange(Shifted(Range(), dt));
    }

    /** `move(data_coordinates)`: moved by the horizontal component. */
    method MoveByData(delta: seq<real>)
      requires |delta| == 2
      modifies this
      ensures Range() == Shifted(old(Range()), delta[0]) && replots == old(replots) + 1
      ensures selected == old(selected) && brush == old(brush) && pen == old(pen)
    {
      Move(delta[0]);
    }

    /** `move(pixel_coordinates)`: moved by the time distance of the horizontal pixel offset. */
    method MoveByPixels(delta: seq<int>, xAxis: AxisMap)
      requires |delta| == 2 && xAxis.scale != 0.0
      modifies this
      ensures Range() == Shifted(old(Range()), PixelDistance(xAxis, delta[0])) && replots == old(replots) + 1
      ensures (Range().first - old(Range().first)) * xAxis.scale == delta[0] as real
      ensures selected == old(selected) && brush == old(brush) && pen == old(pen)
    {
      Move(PixelDistance(xAxis, delta[0]));
    }

    /** `contains(data_coordinates)`, as written (see `ContainsDataNeverHolds`). */
    function ContainsDataPoint(pos: seq<real>): bool
      requires |pos| == 2
      reads this
    {
      ContainsDataAsWritten(left, right, topRatio, bottomRatio, pos[0], pos[1])
    }

    /** `contains(pixel_coordinates)`: inside the pixel box spanned by the corners. */
    function ContainsPixel(pos: seq<int>, xAxis: AxisMap, frame: AxisRectFrame): (b: bool)
      requires |pos| == 2
      reads this
      ensures b <==> CoordToPixel(xAxis, left) <= pos[0] as real <= CoordToPixel(xAxis, right)
                     && RatioToPixel(frame, topRatio) <= pos[1] as real <= RatioToPixel(frame, bottomRatio)
    {
      var x, y := pos[0] as real, pos[1] as real;
      x <= CoordToPixel(xAxis, right) && x >= CoordToPixel(xAxis, left)
      && y <= RatioToPixel(frame, bottomRatio) && y >= RatioToPixel(frame, topRatio)
    }

    /** The left border, anchored at the left corners, catches the pixel columns near the left
    * corner's; the right border those near the right corner's. */
    function LeftBorderContains(x: int, xAxis: AxisMap): (b: bool)
      reads this
      ensures b <==> Abs(x as real - CoordToPixel(xAxis, left)) <= 10.0
    {
      BorderContainsPixel(CoordToPixel(xAxis, left), BorderPen.width, x)
    }

    function RightBorderContains(x: int, xAxis: AxisMap): (b: bool)
      reads this
      ensures b <==> Abs(x as real - CoordToPixel(xAxis, right)) <= 10.0
    {
      BorderContainsPixel(CoordToPixel(xAxis, right), BorderPen.width, x)
    }

    /** A drag of the left border by `dx` (its `move_sig`): only the lower bound moves. */
    method LeftBorderMoved(dx: real)
      modifies this
      ensures Range() == AxisRange.Range(old(left) + dx, old(right)) && replots == old(replots) + 1
      ensures selected == old(selected) && brush == old(brush) && pen == old(pen)
    {
      var r := Range();
      SetRange(AxisRange.Range(r.first + dx, r.second));
    }

    /** A drag of the right border by `dx`: only the upper bound moves. */
    method RightBorderMoved(dx: real)
      modifies this
      ensures Range() == AxisRange.Range(old(left), old(right) + dx) && replots == old(replots) + 1
      ensures selected == old(selected) && brush == old(brush) && pen == old(pen)
    {
      var r := Range();
      SetRange(AxisRange.Range(r.first, r.second + dx));
    }

    /** A border dragged by pixels emits the time distance of the horizontal pixel offset. */
    method LeftBorderMovedByPixels(delta: seq<int>, xAxis: AxisMap)
      requires |delta| == 2 && xAxis.scale != 0.0
      modifies this
      ensures Range() == AxisRange.Range(old(left) + PixelDistance(xAxis, delta[0]), old(right))
      ensures replots == old(replots) + 1 && selected == old(selected)
    {
      LeftBorderMoved(PixelDistance(xAxis, delta[0]));
    }

    method RightBorderMovedByPixels(delta: seq<int>, xAxis: AxisMap)
      requires |delta| == 2 && xAxis.scale != 0.0
      modifies this
      ensures Range() == AxisRange.Range(old(left), old(right) + PixelDistance(xAxis, delta[0]))
      ensures replots == old(replots) + 1 && selected == old(selected)
    {
      RightBorderMoved(PixelDistance(xAxis, delta[0]));
    }

    /** `set_selected` of the span, and of a border: the flag, and a queued replot. */
    method SetSelected(b: bool)
      modifies this
      ensures selected == b && Range() == old(Range()) && replots == old(replots) + 1
      ensures leftBorderSelected == old(leftBorderSelected) && rightBorderSelected == old(rightBorderSelected)
    {
      selected := b;
      replots := replots + 1;
    }

    method SetBorderSelected(leftBorder: bool, b: bool)
      modifies this
      ensures leftBorder ==> leftBorderSelected == b && rightBorderSelected == old(rightBorderSelected)
      ensures !leftBorder ==> rightBorderSelected == b && leftBorderSelected == old(leftBorderSelected)
      ensures selected == old(selected) && Range() == old(Range()) && replots == old(replots) + 1
    {
      if leftBorder {
        leftBorderSelected := b;
      } else {
        rightBorderSelected := b;
      }
      replots := replots + 1;
    }
  }

  /** Dragging the left border and then the right one by the same distance is moving the span. */
  lemma BordersComposeToMove(r: Range, dx: real)
    ensures AxisRange.Range(AxisRange.Range(r.first + dx, r.second).first,
                            AxisRange.Range(r.first + dx, r.second).second + dx) == Shifted(r, dx)
  {
  }
}
