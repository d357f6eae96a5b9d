/** The shape items of `Items/SciQLopShapesItems.hpp`: an ellipse given by its bounding
  * rectangle, a curved line with its two end terminations, and the wrappers that refuse a null
  * plot. Each item's `SciQLopPlotItem` part (the movable flag, the tooltip, the deferred replot)
  * is the `PlotItem` it holds. */
module Shapes {
  import opened Common
  import opened QtTypes
  import opened QcpEnums
  import opened PlotItem

  /** The coordinate system a shape is given in; `enums.hpp` is not part of this model, and
    * only the two values the shapes test for are named. */
  datatype Coordinates = Pixels | Data

  /** `QCPItemPosition::PositionType`, the two the shapes use. */
  datatype PositionType = PtAbsolute | PtPlotCoords

  /** A `QCPItemPosition`: its type and its coordinates. */
  datatype ItemPosition = ItemPosition(kind: PositionType, coords: Point)

  /** Data coordinates are plot coordinates; anything else is absolute (pixels). */
  function PositionTypeOf(c: Coordinates): (t: PositionType)
    ensures t == PtPlotCoords <==> c == Data
    ensures t == PtAbsolute <==> c != Data
  {
    if c == Data then PtPlotCoords else PtAbsolute
  }

  /** `QRectF::moveCenter`: the rectangle translated so that its centre is `p`. */
  function MoveCenter(r: Rect, p: Point): (q: Rect)
    ensures RectCenter(q) == p
    ensures RectWidth(q) == RectWidth(r) && RectHeight(q) == RectHeight(r)
  {
    var w, h := RectWidth(r), RectHeight(r);
    Rect(p.x - w / 2.0, p.y - h / 2.0, p.x - w / 2.0 + w, p.y - h / 2.0 + h)
  }

  /** Moving the centre twice is moving it once to the second place, and moving it to where it
    * is changes nothing. */
  lemma MoveCenterComposes(r: Rect, p: Point, q: Point)
    ensures MoveCenter(MoveCenter(r, p), q) == MoveCenter(r, q)
    ensures MoveCenter(r, RectCenter(r)) == r
  {
  }

  // ---- the ellipse ----

  /** What an `EllipseItem` constructor sets: the position type and coordinates of the two
    * corners, the movable flag, the tooltip, and the pen and brush when given. */
  datatype EllipseSetup = EllipseSetup(topLeft: ItemPosition, bottomRight: ItemPosition, movable: bool,
                                       tooltip: string, pen: Option<Pen>, brush: Option<Brush>)

  /** The first constructor: both corners take the position type of `coordinates` and the
    * rectangle's corners. */
  function EllipseSetupOf(rect: Rect, movable: bool, coordinates: Coordinates, toolTip: string): (e: EllipseSetup)
    ensures e.topLeft == ItemPosition(PositionTypeOf(coordinates), Point(rect.left, rect.top))
    ensures e.bottomRight == ItemPosition(PositionTypeOf(coordinates), Point(rect.right, rect.bottom))
    ensures e.movable == movable && e.tooltip == toolTip && e.pen.None? && e.brush.None?
  {
    var t := PositionTypeOf(coordinates);
    EllipseSetup(ItemPosition(t, Point(rect.left, rect.top)), ItemPosition(t, Point(rect.right, rect.bottom)),
                 movable, toolTip, None, None)
  }

  /** The constructor with a pen and a brush, as written: it delegates to the first one without
    * passing the tooltip on, so the tooltip argument is dropped. */
  function EllipseWithPenSetupOf(rect: Rect, pen: Pen, brush: Brush, movable: bool, coordinates: Coordinates,
                                 toolTip: string): EllipseSetup
  {
    EllipseSetupOf(rect, movable, coordinates, "").(pen := Some(pen), brush := Some(brush))
  }

  /** The tooltip given to the pen-and-brush constructor is lost: the item's tooltip is empty
    * whatever was passed. */
  lemma EllipseWithPenDropsToolTip(rect: Rect, pen: Pen, brush: Brush, movable: bool, coordinates: Coordinates,
                                   toolTip: string)
    ensures EllipseWithPenSetupOf(rect, pen, brush, movable, coordinates, toolTip).tooltip == ""
    ensures toolTip != "" ==>
              EllipseWithPenSetupOf(rect, pen, brush, movable, coordinates, toolTip).tooltip != toolTip
  {
  }

  /** The pen-and-brush constructor as intended: the tooltip is passed on. */
  function EllipseWithPenSetupIntended(rect: Rect, pen: Pen, brush: Brush, movable: bool, coordinates: Coordinates,
                                       toolTip: string): EllipseSetup
  {
    EllipseSetupOf(rect, movable, coordinates, toolTip).(pen := Some(pen), brush := Some(brush))
  }

  /** As intended it sets everything the first constructor sets, the tooltip included, and the
    * pen and brush. */
  lemma EllipseWithPenIntendedKeepsToolTip(rect: Rect, pen: Pen, brush: Brush, movable: bool,
                                           coordinates: Coordinates, toolTip: string)
    ensures var e := EllipseWithPenSetupIntended(rect, pen, brush, movable, coordinates, toolTip);
            && e.tooltip == toolTip
            && e.(pen := None, brush := None) == EllipseSetupOf(rect, movable, coordinates, toolTip)
            && e.pen == Some(pen) && e.brush == Some(brush)
  {
  }

  /** `EllipseItem`. */
  class EllipseItem {
    const item: PlotItem
    var topLeft: ItemPosition
    var bottomRight: ItemPosition
    var pen: Pen
    var brush: Brush

    ghost predicate Valid()
      reads this, item
    {
      item.Valid()
    }

    /** Both constructors, from what they set; the pen and brush a `QCPItemEllipse` starts with
      * are QCustomPlot's and are taken as parameters. */
    constructor (e: EllipseSetup, defaultPen: Pen, defaultBrush: Brush)
      ensures fresh(item) && Valid()
      ensures topLeft == e.topLeft && bottomRight == e.bottomRight
      ensures item.movable == e.movable && item.tooltip == e.tooltip
      ensures pen == (if e.pen.Some? then e.pen.value else defaultPen)
      ensures brush == (if e.brush.Some? then e.brush.value else defaultBrush)
      ensures !item.queuedReplot
    {
      var it := new PlotItem();
      it.SetMovable(e.movable);
      it.SetToolTip(e.tooltip);
      item := it;
      topLeft, bottomRight := e.topLeft, e.bottomRight;
      pen := if e.pen.Some? then e.pen.value else defaultPen;
      brush := if e.brush.Some? then e.brush.value else defaultBrush;
    }

    /** `boundingRectangle`: the rectangle spanned by the two corners, as given (not
      * normalised). */
    function BoundingRectangle(): (r: Rect)
      reads this
      ensures Point(r.left, r.top) == topLeft.coords && Point(r.right, r.bottom) == bottomRight.coords
    {
      Rect(topLeft.coords.x, topLeft.coords.y, bottomRight.coords.x, bottomRight.coords.y)
    }

    /** `position`: the centre of the bounding rectangle, as far from each edge as from the
      * opposite one. */
    function Position(): (p: Point)
      reads this
      ensures p.x - topLeft.coords.x == bottomRight.coords.x - p.x
      ensures p.y - topLeft.coords.y == bottomRight.coords.y - p.y
    {
      RectCenter(BoundingRectangle())
    }

    /** `setPosition`: the rectangle is moved so that its centre is `pos`, keeping its width and
      * height and the position types, and a deferred replot is asked for. */
    method SetPosition(pos: Point)
      requires Valid()
      modifies this, item
      ensures Valid() && Position() == pos
      ensures BoundingRectangle() == MoveCenter(old(BoundingRectangle()), pos)
      ensures RectWidth(BoundingRectangle()) == RectWidth(old(BoundingRectangle()))
      ensures RectHeight(BoundingRectangle()) == RectHeight(old(BoundingRectangle()))
      ensures topLeft.kind == old(topLeft.kind) && bottomRight.kind == old(bottomRight.kind)
      ensures pen == old(pen) && brush == old(brush)
      ensures item.queuedReplot && item.movable == old(item.movable) && item.tooltip == old(item.tooltip)
    {
      var rect := MoveCenter(BoundingRectangle(), pos);
      topLeft := topLeft.(coords := Point(rect.left, rect.top));
      bottomRight := bottomRight.(coords := Point(rect.right, rect.bottom));
      item.Replot(false);
    }
  }

  /** The wrappers' refusal of a null plot (`std::invalid_argument`). */
  const NullPlotMessage := "plot is nullptr"

  /** The three `SciQLopEllipseItem` constructors: a null plot throws; otherwise the item is
    * built from the bounding rectangle, with the pen and brush of the second form, or a pen of
    * the line colour and width (solid) and a brush of the fill colour for the third. */
  datatype EllipseArgs =
    | Plain
    | WithPen(pen: Pen, brush: Brush)
    | WithColors(lineColor: Color, lineWidth: real, fillColor: Color)

  function WrapperSetup(rect: Rect, args: EllipseArgs, movable: bool, coordinates: Coordinates,
                        toolTip: string): (e: EllipseSetup)
    ensures args.Plain? ==> e == EllipseSetupOf(rect, movable, coordinates, toolTip)
    ensures args.WithColors? ==> e.pen == Some(Pen(args.lineColor, args.lineWidth, SolidLine))
                                 && e.brush == Some(Brush(args.fillColor))
    ensures args.WithPen? ==> e.pen == Some(args.pen) && e.brush == Some(args.brush)
    ensures !args.Plain? ==> e.tooltip == "" && e.topLeft.kind == PositionTypeOf(coordinates)
    ensures e.movable == movable
    ensures e.topLeft == ItemPosition(PositionTypeOf(coordinates), Point(rect.left, rect.top))
    ensures e.bottomRight == ItemPosition(PositionTypeOf(coordinates), Point(rect.right, rect.bottom))
  {
    match args
    case Plain => EllipseSetupOf(rect, movable, coordinates, toolTip)
    case WithPen(p, b) => EllipseWithPenSetupOf(rect, p, b, movable, coordinates, toolTip)
    case WithColors(lc, lw, fc) => EllipseWithPenSetupOf(rect, Pen(lc, lw, SolidLine), Brush(fc), movable, coordinates, toolTip)
  }

  method NewEllipseItem(plotIsNull: bool, rect: Rect, args: EllipseArgs, movable: bool, coordinates: Coordinates,
                        toolTip: string, defaultPen: Pen, defaultBrush: Brush)
    returns (r: Result<EllipseItem>)
    ensures r.Err? <==> plotIsNull
    ensures r.Err? ==> r.error == NullPlotMessage
    ensures r.Ok? ==> fresh(r.value) && fresh(r.value.item) && r.value.Valid()
    ensures r.Ok? ==> var e := WrapperSetup(rect, args, movable, coordinates, toolTip);
                      && r.value.topLeft == e.topLeft && r.value.bottomRight == e.bottomRight
                      && r.value.item.tooltip == e.tooltip && r.value.item.movable == e.movable
                      && r.value.pen == (if e.pen.Some? then e.pen.value else defaultPen)
                      && r.value.brush == (if e.brush.Some? then e.brush.value else defaultBrush)
  {
    if plotIsNull {
      return Err(NullPlotMessage);
    }
    var e := new EllipseItem(WrapperSetup(rect, args, movable, coordinates, toolTip), defaultPen, defaultBrush);
    r := Ok(e);
  }

  // ---- the curved line ----

  /** `QPen(color, width)`: a solid pen. */
  function SolidPen(c: Color, w: real): (p: Pen)
    ensures p.color == c && p.width == w && p.style == SolidLine
  {
    Pen(c, w, SolidLine)
  }

  /** `CurvedLineItem`. QCustomPlot's `tail` is the start ending and `head` the end one. */
  class CurvedLineItem {
    const item: PlotItem
    var start: ItemPosition
    var end: ItemPosition
    var startDir: ItemPosition
    var endDir: ItemPosition
    var tail: EndingStyle
    var head: EndingStyle
    var pen: Pen

    ghost predicate Valid()
      reads this, item
    {
      item.Valid()
    }

    /** The constructor: not movable; both ends take the position type of `coordinates`; the
      * start termination goes to the tail and the stop one to the head. The direction points
      * and the pen a `QCPItemCurve` starts with are QCustomPlot's and are parameters. */
    constructor (startPos: Point, stopPos: Point, startTerminator: LineTermination, stopTerminator: LineTermination,
                 coordinates: Coordinates, toolTip: string, dir0: ItemPosition, dir1: ItemPosition, pen0: Pen)
      ensures fresh(item) && Valid() && !item.movable && item.tooltip == toolTip
      ensures start == ItemPosition(PositionTypeOf(coordinates), startPos)
      ensures end == ItemPosition(PositionTypeOf(coordinates), stopPos)
      ensures startDir == dir0 && endDir == dir1 && pen == pen0
      ensures tail == TerminationToQcp(startTerminator) && head == TerminationToQcp(stopTerminator)
    {
      var it := new PlotItem();
      it.SetMovable(false);
      it.SetToolTip(toolTip);
      item := it;
      var t := PositionTypeOf(coordinates);
      start, end := ItemPosition(t, startPos), ItemPosition(t, stopPos);
      startDir, endDir := dir0, dir1;
      tail, head := TerminationToQcp(startTerminator), TerminationToQcp(stopTerminator);
      pen := pen0;
    }

    function StartPos(): (p: Point)
      reads this
      ensures p == start.coords
    {
      start.coords
    }

    function StopPos(): (p: Point)
      reads this
      ensures p == end.coords
    {
      end.coords
    }

    method SetStartPos(p: Point)
      modifies this
      ensures StartPos() == p && start.kind == old(start.kind)
      ensures end == old(end) && startDir == old(startDir) && endDir == old(endDir)
      ensures tail == old(tail) && head == old(head) && pen == old(pen)
    {
      start := start.(coords := p);
    }

    method SetStopPos(p: Point)
      modifies this
      ensures StopPos() == p && end.kind == old(end.kind)
      ensures start == old(start) && startDir == old(startDir) && endDir == old(endDir)
      ensures tail == old(tail) && head == old(head) && pen == old(pen)
    {
      end := end.(coords := p);
    }

    /** `startTermination`: the tail's style read back as a termination. */
    function StartTermination(): (t: LineTermination)
      reads this
      ensures TerminationToQcp(t) == tail
    {
      TerminationRoundTrip(NoneTermination, tail);
      TerminationFromQcp(tail)
    }

    function StopTermination(): (t: LineTermination)
      reads this
      ensures TerminationToQcp(t) == head
    {
      TerminationRoundTrip(NoneTermination, head);
      TerminationFromQcp(head)
    }

    /** `setStartTermination`: reads back as set. */
    method SetStartTermination(t: LineTermination)
      modifies this
      ensures tail == TerminationToQcp(t) && StartTermination() == t
      ensures head == old(head) && start == old(start) && end == old(end)
      ensures startDir == old(startDir) && endDir == old(endDir) && pen == old(pen)
    {
      tail := TerminationToQcp(t);
      TerminationRoundTrip(t, tail);
    }

    method SetStopTermination(t: LineTermination)
      modifies this
      ensures head == TerminationToQcp(t) && StopTermination() == t
      ensures tail == old(tail) && start == old(start) && end == old(end)
      ensures startDir == old(startDir) && endDir == old(endDir) && pen == old(pen)
    {
      head := TerminationToQcp(t);
      TerminationRoundTrip(t, head);
    }

    function StartDirPos(): (p: Point)
      reads this
      ensures p == startDir.coords
    {
      startDir.coords
    }

    function StopDirPos(): (p: Point)
      reads this
      ensures p == endDir.coords
    {
      endDir.coords
    }

    method SetStartDirPos(p: Point)
      modifies this
      ensures StartDirPos() == p && startDir.kind == old(startDir.kind)
      ensures start == old(start) && end == old(end) && endDir == old(endDir)
      ensures tail == old(tail) && head == old(head) && pen == old(pen)
    {
      startDir := startDir.(coords := p);
    }

    method SetStopDirPos(p: Point)
      modifies this
      ensures StopDirPos() == p && endDir.kind == old(endDir.kind)
      ensures start == old(start) && end == old(end) && startDir == old(startDir)
      ensures tail == old(tail) && head == old(head) && pen == old(pen)
    {
      endDir := endDir.(coords := p);
    }

    function LineColor(): (c: Color)
      reads this
      ensures c == pen.color
    {
      pen.color
    }

    function Width(): (w: real)
      reads this
      ensures w == pen.width
    {
      pen.width
    }

    /** `setColor`: a new solid pen of that colour and the current width. */
    method SetColor(c: Color)
      modifies this
      ensures pen == SolidPen(c, old(pen.width))
      ensures LineColor() == c && Width() == old(Width())
      ensures start == old(start) && end == old(end) && startDir == old(startDir) && endDir == old(endDir)
      ensures tail == old(tail) && head == old(head)
    {
      pen := SolidPen(c, Width());
    }

    /** `setWidth`: a new solid pen of the current colour and that width. */
    method SetWidth(w: real)
      modifies this
      ensures pen == SolidPen(old(pen.color), w)
      ensures Width() == w && LineColor() == old(LineColor())
      ensures start == old(start) && end == old(end) && startDir == old(startDir) && endDir == old(endDir)
      ensures tail == old(tail) && head == old(head)
    {
      pen := SolidPen(LineColor(), w);
    }
  }

  /** `SciQLopCurvedLineItem`'s constructor: a null plot throws. */
  method NewCurvedLineItem(plotIsNull: bool, startPos: Point, stopPos: Point, startTerminator: LineTermination,
                           stopTerminator: LineTermination, coordinates: Coordinates, toolTip: string,
                           dir0: ItemPosition, dir1: ItemPosition, pen0: Pen)
    returns (r: Result<CurvedLineItem>)
    ensures r.Err? <==> plotIsNull
    ensures r.Err? ==> r.error == NullPlotMessage
    ensures r.Ok? ==> fresh(r.value) && fresh(r.value.item) && r.value.Valid()
                      && r.value.StartTermination() == startTerminator
                      && r.value.StopTermination() == stopTerminator
                      && r.value.StartPos() == startPos && r.value.StopPos() == stopPos
    ensures r.Ok? ==> && r.value.start.kind == PositionTypeOf(coordinates)
                      && r.value.end.kind == PositionTypeOf(coordinates)
                      && !r.value.item.movable && r.value.item.tooltip == toolTip
                      && r.value.startDir == dir0 && r.value.endDir == dir1 && r.value.pen == pen0
  {
    if plotIsNull {
      return Err(NullPlotMessage);
    }
    var c := new CurvedLineItem(startPos, stopPos, startTerminator, stopTerminator, coordinates, toolTip, dir0, dir1, pen0);
    TerminationRoundTrip(startTerminator, c.tail);
    TerminationRoundTrip(stopTerminator, c.head);
    r := Ok(c);
  }
}
