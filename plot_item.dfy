/** `SciQLopPlotItem` (`Items/SciQLopPlotItem.hpp`), the base of the movable plot items: the
  * coalesced deferred replot, dragging with the left mouse button, and the tooltip text. */
module PlotItem {
  import opened QtTypes

  /** The mouse buttons an event can report as held. */
  datatype MouseButton = LeftButton | RightButton | MiddleButton

  /** A requested call of the item's `move(dx, dy)`. */
  datatype Move = Move(dx: real, dy: real)

  /** What a mouse move does to a movable flag, the last position and the moves requested so
    * far: `move` is called with the offset from the last position when the item is movable and
    * exactly the left button is held, and the position is recorded either way. */
  function MoveStep(movable: bool, last: Point, moves: seq<Move>, pos: Point, buttons: set<MouseButton>): (r: (Point, seq<Move>))
    ensures r.0 == pos
    ensures movable && buttons == {LeftButton} ==> r.1 == moves + [Move(pos.x - last.x, pos.y - last.y)]
    ensures !(movable && buttons == {LeftButton}) ==> r.1 == moves
  {
    if movable && buttons == {LeftButton} then (pos, moves + [Move(pos.x - last.x, pos.y - last.y)])
    else (pos, moves)
  }

  /** The last position and the moves after mouse moves through `path` with exactly the left
    * button held, on a movable item: `MoveStep` applied event by event. */
  function Dragged(last: Point, moves: seq<Move>, path: seq<Point>): (Point, seq<Move>)
    decreases |path|
  {
    if path == [] then (last, moves)
    else
      var r := MoveStep(true, last, moves, path[0], {LeftButton});
      Dragged(r.0, r.1, path[1..])
  }

  function SumX(ms: seq<Move>): real
    decreases |ms|
  {
    if ms == [] then 0.0 else SumX(ms[..|ms| - 1]) + ms[|ms| - 1].dx
  }

  function SumY(ms: seq<Move>): real
    decreases |ms|
  {
    if ms == [] then 0.0 else SumY(ms[..|ms| - 1]) + ms[|ms| - 1].dy
  }

  lemma SumSnoc(ms: seq<Move>, m: Move)
    ensures SumX(ms + [m]) == SumX(ms) + m.dx && SumY(ms + [m]) == SumY(ms) + m.dy
  {
    assert (ms + [m])[..|ms|] == ms;
  }

  /** A drag moves the item by exactly the distance the mouse travelled, with one move per
    * event, and leaves the last position at the end of the path: the offsets telescope. */
  lemma {:induction false} DragTelescopes(last: Point, moves: seq<Move>, path: seq<Point>)
    requires path != []
    ensures var r := Dragged(last, moves, path);
            && r.0 == path[|path| - 1]
            && |r.1| == |moves| + |path|
            && SumX(r.1) == SumX(moves) + path[|path| - 1].x - last.x
            && SumY(r.1) == SumY(moves) + path[|path| - 1].y - last.y
    decreases |path|
  {
    var m := Move(path[0].x - last.x, path[0].y - last.y);
    SumSnoc(moves, m);
    if |path| > 1 {
      DragTelescopes(path[0], moves + [m], path[1..]);
    }
  }

  /** An item of a plot, with the fields of `SciQLopPlotItem` and `SciQlopItemWithToolTip`,
    * the layer replots done, the deferred replots queued on the event loop and the `move` calls
    * made. */
  class PlotItem {
    var movable: bool
    var deletable: bool
    var queuedReplot: bool
    var lastPosition: Point
    var tooltip: string
    var timers: nat
    var layerReplots: nat
    var moves: seq<Move>

    /** A deferred replot is queued exactly while the flag is up, and never more than one. */
    ghost predicate Valid()
      reads this
    {
      timers <= 1 && (queuedReplot <==> timers == 1)
    }

    /** The constructor: neither movable nor deletable, nothing queued, an empty tooltip. */
    constructor ()
      ensures Valid() && !movable && !deletable && !queuedReplot && tooltip == ""
      ensures timers == 0 && layerReplots == 0 && moves == []
    {
      movable, deletable, queuedReplot := false, false, false;
      lastPosition := Point(0.0, 0.0);
      tooltip := "";
      timers, layerReplots := 0, 0;
      moves := [];
    }

    function Movable(): (m: bool)
      reads this
      ensures m <==> movable
    {
      movable
    }

    method SetMovable(m: bool)
      modifies this
      ensures movable == m && Movable() == m
      ensures deletable == old(deletable) && queuedReplot == old(queuedReplot) && timers == old(timers)
      ensures lastPosition == old(lastPosition) && tooltip == old(tooltip)
      ensures layerReplots == old(layerReplots) && moves == old(moves)
    {
      movable := m;
    }

    function ToolTip(): (t: string)
      reads this
      ensures t == tooltip
    {
      tooltip
    }

    method SetToolTip(t: string)
      modifies this
      ensures tooltip == t && ToolTip() == t
      ensures movable == old(movable) && deletable == old(deletable) && queuedReplot == old(queuedReplot)
      ensures timers == old(timers) && lastPosition == old(lastPosition)
      ensures layerReplots == old(layerReplots) && moves == old(moves)
    {
      tooltip := t;
    }

    /** `replot`: an immediate replot redraws the layer now; otherwise one single-shot timer is
      * queued, unless one already is. */
    method Replot(immediate: bool)
      requires Valid()
      modifies this
      ensures Valid()
      ensures immediate ==> layerReplots == old(layerReplots) + 1 && timers == old(timers) && queuedReplot == old(queuedReplot)
      ensures !immediate ==> layerReplots == old(layerReplots) && queuedReplot && timers == 1
      ensures movable == old(movable) && deletable == old(deletable) && lastPosition == old(lastPosition)
      ensures tooltip == old(tooltip) && moves == old(moves)
    {
      if immediate {
        layerReplots := layerReplots + 1;
      } else if !queuedReplot {
        queuedReplot := true;
        timers := timers + 1;
      }
    }

    /** The queued timer firing: the layer is redrawn and the flag lowered. */
    method RunTimer()
      requires Valid() && timers > 0
      modifies this
      ensures Valid() && timers == 0 && !queuedReplot && layerReplots == old(layerReplots) + 1
      ensures movable == old(movable) && deletable == old(deletable) && lastPosition == old(lastPosition)
      ensures tooltip == old(tooltip) && moves == old(moves)
    {
      timers := timers - 1;
      layerReplots := layerReplots + 1;
      queuedReplot := false;
    }

    /** `mousePressEvent`: the press position becomes the last position. The handler reads it with
      * `pos()`, which rounds the exact position `pos` to whole pixels, while `mouseMoveEvent`
      * reads the exact `position()`. */
    method MousePress(pos: Point)
      modifies this
      ensures lastPosition == RoundPoint(pos)
      ensures movable == old(movable) && deletable == old(deletable) && queuedReplot == old(queuedReplot)
      ensures timers == old(timers) && tooltip == old(tooltip)
      ensures layerReplots == old(layerReplots) && moves == old(moves)
    {
      lastPosition := RoundPoint(pos);
    }

    /** `mouseMoveEvent`. */
    method MouseMove(pos: Point, buttons: set<MouseButton>)
      modifies this
      ensures (lastPosition, moves) == MoveStep(old(movable), old(lastPosition), old(moves), pos, buttons)
      ensures movable == old(movable) && deletable == old(deletable) && queuedReplot == old(queuedReplot)
      ensures timers == old(timers) && tooltip == old(tooltip) && layerReplots == old(layerReplots)
    {
      if movable && buttons == {LeftButton} {
        moves := moves + [Move(pos.x - lastPosition.x, pos.y - lastPosition.y)];
      }
      lastPosition := pos;
    }
  }
}
