/** The Qt value types the model touches, as plain records of the fields the code reads or
  * writes. */
module QtTypes {

  /** `QColor` as 8-bit RGBA channels. */
  datatype Color = Color(r: int, g: int, b: int, a: int)

  predicate ValidColor(c: Color)
  {
    0 <= c.r < 256 && 0 <= c.g < 256 && 0 <= c.b < 256 && 0 <= c.a < 256
  }

  const Black := Color(0, 0, 0, 255)
  const Gray := Color(160, 160, 164, 255)

  datatype PenStyle = NoPen | SolidLine | DashLine | DotLine

  /** `QPen`: colour, floating-point width and style. */
  datatype Pen = Pen(color: Color, width: real, style: PenStyle)

  /** A default-constructed `QPen`: solid black, width 1. */
  const DefaultPen := Pen(Black, 1.0, SolidLine)

  /** `QBrush`: a colour. */
  datatype Brush = Brush(color: Color)

  /** A point of a `QPointF`/`QPoint`. */
  datatype Point = Point(x: real, y: real)

  /** `QRectF` by its left, top, right and bottom edges. */
  datatype Rect = Rect(left: real, top: real, right: real, bottom: real)

  function RectCenter(r: Rect): Point
  {
    Point((r.left + r.right) / 2.0, (r.top + r.bottom) / 2.0)
  }

  function RectWidth(r: Rect): real { r.right - r.left }

  function RectHeight(r: Rect): real { r.bottom - r.top }

  /** `QColor::setColor` on a pen: the colour changes, the width and style stay. */
  function WithColor(p: Pen, c: Color): (q: Pen)
    ensures q.color == c && q.width == p.width && q.style == p.style
  {
    p.(color := c)
  }

  /** `QPen::setWidthF`. */
  function WithWidth(p: Pen, w: real): (q: Pen)
    ensures q.width == w && q.color == p.color && q.style == p.style
  {
    p.(width := w)
  }

  /** The `Qt::ItemFlag` values the item models return. */
  datatype ItemFlag = ItemIsEnabled | ItemIsSelectable | ItemIsEditable | ItemIsDragEnabled | ItemIsDropEnabled

  /** The `Qt::ItemDataRole` values the item models' `data()` distinguishes. */
  datatype Role = DisplayRole | UserRole | DecorationRole | ToolTipRole | OtherRole(code: int)

  /** `qRound` on a non-negative value: the nearest integer, halves rounded up. */
  function RoundNonNeg(x: real): (n: int)
    requires x >= 0.0
    ensures n as real - 0.5 <= x < n as real + 0.5
  {
    (x + 0.5).Floor
  }

  /** `qRound`: the nearest integer, halves rounded away from zero (`int(x + 0.5)` or
    * `int(x - 0.5)`, and `int` truncates toward zero). */
  function Round(x: real): (n: int)
    ensures x >= 0.0 ==> n >= 0 && n as real - 0.5 <= x < n as real + 0.5
    ensures x < 0.0 ==> n <= 0 && n as real - 0.5 < x <= n as real + 0.5
  {
    if x >= 0.0 then (x + 0.5).Floor else -((0.5 - x).Floor)
  }

  /** `QPointF::toPoint`, which `QMouseEvent::pos()` applies to the exact position: both
    * coordinates rounded with `qRound`. */
  function RoundPoint(p: Point): (q: Point)
    ensures q.x == Round(p.x) as real && q.y == Round(p.y) as real
    ensures -0.5 <= q.x - p.x <= 0.5 && -0.5 <= q.y - p.y <= 0.5
  {
    Point(Round(p.x) as real, Round(p.y) as real)
  }

  /** `qRound` rounds halves away from zero, so it treats both signs alike. */
  lemma RoundAwayFromZero(x: real)
    ensures Round(-x) == -Round(x)
    ensures Round(2.5) == 3 && Round(-2.5) == -3 && Round(-0.4) == 0
  {
  }
}
