/** The keyboard and mouse-wheel handlers of the plots (`Qt/Events/Keyboard.hpp`,
  * `Qt/Events/Wheel.hpp`, and the legacy `src/Events/Keyboard.hpp`): which key or wheel event
  * asks for which plot action, and what those actions do to the plot's ranges. */
module Events {
  import opened Common
  import opened AxisRange
  import opened View

  /** The keyboard modifiers an event can carry; an event's modifiers are compared as a whole
    * set (`modifiers() == Qt::ControlModifier` is false for Ctrl+Shift). */
  datatype Modifier = Shift | Control | Alt | Meta | Keypad

  datatype Key = KeyM | KeyRight | KeyLeft | KeyUp | KeyDown | KeyDelete | OtherKey(code: int)

  predicate IsArrow(k: Key) { k == KeyRight || k == KeyLeft || k == KeyUp || k == KeyDown }

  /** A plot action a key asks for: auto-scaling y, moving an axis by a fraction of its width,
    * zooming an axis about its centre, or deleting the selected object. */
  datatype KeyAction = AutoScaleY | MoveAxis(delta: real, axis: Axis) | ZoomAxis(factor: real, axis: Axis) | DeleteSelected

  /** The horizontal arrows act on x, the vertical ones on y; Right and Up go forward. */
  function ArrowAxis(k: Key): Axis { if k == KeyRight || k == KeyLeft then X else Y }

  function ArrowForward(k: Key): bool { k == KeyRight || k == KeyUp }

  /** `handleKeyboardEvent`: the action run, or none when the handler returns false. Without a
    * modifier, M and the arrows; with exactly Ctrl, the arrows; Delete whatever the
    * modifiers. */
  function KeyboardAction(mods: set<Modifier>, key: Key): Option<KeyAction>
  {
    if mods == {} && key == KeyM then Some(AutoScaleY)
    else if mods == {} && IsArrow(key) then Some(MoveAxis(if ArrowForward(key) then 0.2 else -0.2, ArrowAxis(key)))
    else if mods == {Control} && IsArrow(key) then Some(ZoomAxis(if ArrowForward(key) then 1.2 else 0.8, ArrowAxis(key)))
    else if key == KeyDelete then Some(DeleteSelected)
    else None
  }

  /** The dispatch table, case by case: an event is handled exactly when it is one of these. */
  lemma KeyboardActionTable(mods: set<Modifier>, key: Key)
    ensures KeyboardAction(mods, key).Some? <==>
              key == KeyDelete || (mods == {} && (key == KeyM || IsArrow(key))) || (mods == {Control} && IsArrow(key))
    ensures mods == {} ==>
              && (key == KeyM ==> KeyboardAction(mods, key) == Some(AutoScaleY))
              && (key == KeyRight ==> KeyboardAction(mods, key) == Some(MoveAxis(0.2, X)))
              && (key == KeyLeft ==> KeyboardAction(mods, key) == Some(MoveAxis(-0.2, X)))
              && (key == KeyUp ==> KeyboardAction(mods, key) == Some(MoveAxis(0.2, Y)))
              && (key == KeyDown ==> KeyboardAction(mods, key) == Some(MoveAxis(-0.2, Y)))
    ensures mods == {Control} ==>
              && (key == KeyRight ==> KeyboardAction(mods, key) == Some(ZoomAxis(1.2, X)))
              && (key == KeyLeft ==> KeyboardAction(mods, key) == Some(ZoomAxis(0.8, X)))
              && (key == KeyUp ==> KeyboardAction(mods, key) == Some(ZoomAxis(1.2, Y)))
              && (key == KeyDown ==> KeyboardAction(mods, key) == Some(ZoomAxis(0.8, Y)))
    ensures key == KeyDelete ==> KeyboardAction(mods, key) == Some(DeleteSelected)
  {
  }

  /** Ctrl+M and Shift+arrows do nothing. */
  lemma UnhandledExamples()
    ensures KeyboardAction({Control}, KeyM).None?
    ensures KeyboardAction({Shift}, KeyRight).None?
    ensures KeyboardAction({Control, Shift}, KeyUp).None?
  {
  }

  /** The legacy handler: the same table without Delete (the plot's own `move` and `zoom`
    * stand for the view helpers). */
  function LegacyKeyboardAction(mods: set<Modifier>, key: Key): Option<KeyAction>
  {
    if mods == {} && key == KeyM then Some(AutoScaleY)
    else if mods == {} && IsArrow(key) then Some(MoveAxis(if ArrowForward(key) then 0.2 else -0.2, ArrowAxis(key)))
    else if mods == {Control} && IsArrow(key) then Some(ZoomAxis(if ArrowForward(key) then 1.2 else 0.8, ArrowAxis(key)))
    else None
  }

  /** The two handlers agree on every key but Delete, which only the current one handles. */
  lemma LegacyAgreesButDelete(mods: set<Modifier>, key: Key)
    ensures key != KeyDelete ==> LegacyKeyboardAction(mods, key) == KeyboardAction(mods, key)
    ensures key == KeyDelete ==> LegacyKeyboardAction(mods, key).None? && KeyboardAction(mods, key) == Some(DeleteSelected)
  {
  }

  /** What an action does to the x and y ranges: moves and zooms go through the view helpers,
    * the other two leave the ranges to the plot. */
  function ActionRanges(x: Range, y: Range, a: KeyAction): (Range, Range)
  {
    match a
    case MoveAxis(d, axis) => if axis == X then (MovedByWidths(x, d), y) else (x, MovedByWidths(y, d))
    case ZoomAxis(f, axis) => if axis == X then (Scaled(x, f), y) else (x, Scaled(y, f))
    case _ => (x, y)
  }

  /** Left undoes Right and Down undoes Up; each keeps the width and touches one axis. */
  lemma ArrowMovesUndo(x: Range, y: Range)
    ensures var r := ActionRanges(x, y, KeyboardAction({}, KeyRight).value);
            r.1 == y && Width(r.0) == Width(x) && ActionRanges(r.0, r.1, KeyboardAction({}, KeyLeft).value) == (x, y)
    ensures var u := ActionRanges(x, y, KeyboardAction({}, KeyUp).value);
            u.0 == x && Width(u.1) == Width(y) && ActionRanges(u.0, u.1, KeyboardAction({}, KeyDown).value) == (x, y)
  {
    MoveByWidthsProperties(x, 0.2);
    MoveByWidthsProperties(y, 0.2);
  }

  /** A zoom scales the width by its factor about the same centre. */
  lemma ScaledWidth(r: Range, f: real)
    requires f >= 0.0
    ensures Width(Scaled(r, f)) == Width(r) * f && Center(Scaled(r, f)) == Center(r)
  {
  }

  /** Ctrl+Right then Ctrl+Left does not give the range back: the width ends at 96 % of what it
    * was, about the same centre. */
  lemma ZoomInOutShrinks(x: Range, y: Range)
    ensures var r := ActionRanges(x, y, KeyboardAction({Control}, KeyRight).value);
            var s := ActionRanges(r.0, r.1, KeyboardAction({Control}, KeyLeft).value);
            && s.1 == y && Width(s.0) == Width(x) * 0.96 && Center(s.0) == Center(x)
  {
    ScaledWidth(x, 1.2);
    ScaledWidth(Scaled(x, 1.2), 0.8);
  }

  /** `handleKeyboardEvent` on a widget: ranges the view helpers change are changed in place,
    * and the other two actions are handed back to the plot. */
  method HandleKeyboardEvent(w: Widget, mods: set<Modifier>, key: Key) returns (handled: bool, request: Option<KeyAction>)
    modifies w
    ensures handled <==> KeyboardAction(mods, key).Some?
    ensures handled ==> (w.xRange, w.yRange) == ActionRanges(old(w.xRange), old(w.yRange), KeyboardAction(mods, key).value)
    ensures !handled ==> w.xRange == old(w.xRange) && w.yRange == old(w.yRange)
    ensures w.zRange == old(w.zRange)
    ensures request.Some? <==> KeyboardAction(mods, key) in {Some(AutoScaleY), Some(DeleteSelected)}
    ensures request.Some? ==> request == KeyboardAction(mods, key)
  {
    var a := KeyboardAction(mods, key);
    request := None;
    if a.None? {
      return false, None;
    }
    match a.value {
      case MoveAxis(d, axis) => MoveBy(w, d, axis);
      case ZoomAxis(f, axis) => Zoom(w, f, axis);
      case _ => request := a;
    }
    handled := true;
  }

  // ---- the wheel ----

  /** `zoomFactor`: one plus the wheel angle over 720, so a usual step of 120 eighths of a
    * degree zooms by 7/6. */
  function ZoomFactor(wheelAngle: int): (f: real)
    ensures (f > 1.0 <==> wheelAngle > 0) && (f == 1.0 <==> wheelAngle == 0)
  {
    1.0 + wheelAngle as real / 720.0
  }

  /** Opposite wheel steps do not cancel: the product of their factors is below one unless the
    * angle is zero. */
  lemma OppositeStepsShrink(a: int)
    ensures ZoomFactor(a) * ZoomFactor(-a) == 1.0 - (a as real / 720.0) * (a as real / 720.0)
    ensures a != 0 ==> ZoomFactor(a) * ZoomFactor(-a) < 1.0
    ensures ZoomFactor(120) == 7.0 / 6.0
  {
  }

  /** A `QPoint`. */
  datatype IntPoint = IntPoint(x: int, y: int)

  /** `wheelMovement`: the pixel delta when it is not zero, otherwise the angle delta in degrees
    * (an eighth of it, with C++ integer division). */
  function WheelMovement(pixelDelta: IntPoint, angleDelta: IntPoint): (m: IntPoint)
    ensures pixelDelta != IntPoint(0, 0) ==> m == pixelDelta
    ensures pixelDelta == IntPoint(0, 0) ==> m == IntPoint(TruncDiv(angleDelta.x, 8), TruncDiv(angleDelta.y, 8))
  {
    if pixelDelta.x != 0 || pixelDelta.y != 0 then pixelDelta
    else IntPoint(TruncDiv(angleDelta.x, 8), TruncDiv(angleDelta.y, 8))
  }

  /** A full step of 120 is 15 degrees either way, and less than eight is nothing. */
  lemma WheelMovementExamples()
    ensures WheelMovement(IntPoint(0, 0), IntPoint(0, 120)) == IntPoint(0, 15)
    ensures WheelMovement(IntPoint(0, 0), IntPoint(-7, -120)) == IntPoint(0, -15)
  {
  }

  /** What a wheel event asks the view for. */
  datatype WheelRequest = ZoomAtPixelAction(center: SingleCoordinate<int>, factor: real) | MovePixelsAction(delta: seq<int>) | NoWheelAction

  /** `handleWheelEvent`'s dispatch: with exactly Ctrl, a zoom of y about the cursor unless the
    * wheel also turned sideways; with exactly Alt, a move by the vertical angle; with exactly
    * Shift, a zoom of x about the cursor; otherwise a move by the pixel delta, or by the
    * vertical angle horizontally when there is none. `center` is the cursor position rounded
    * to a `QPoint`. */
  function WheelAction(mods: set<Modifier>, pixelDelta: IntPoint, angleDelta: IntPoint, center: IntPoint): WheelRequest
  {
    if mods == {Control} then
      if angleDelta.x == 0 then ZoomAtPixelAction(SingleCoordinate(center.y, Y), ZoomFactor(angleDelta.y)) else NoWheelAction
    else if mods == {Alt} then MovePixelsAction([0, angleDelta.y])
    else if mods == {Shift} then ZoomAtPixelAction(SingleCoordinate(center.x, X), ZoomFactor(angleDelta.y))
    else if pixelDelta != IntPoint(0, 0) then MovePixelsAction([pixelDelta.x, pixelDelta.y])
    else MovePixelsAction([angleDelta.y, 0])
  }

  /** The wheel table, case by case: only Ctrl with a sideways turn does nothing, Ctrl zooms y,
    * Shift zooms x, and every move is two-dimensional. */
  lemma WheelActionTable(mods: set<Modifier>, pixelDelta: IntPoint, angleDelta: IntPoint, center: IntPoint)
    ensures var a := WheelAction(mods, pixelDelta, angleDelta, center);
            && (a.NoWheelAction? <==> mods == {Control} && angleDelta.x != 0)
            && (a.ZoomAtPixelAction? ==>
                  a.factor == ZoomFactor(angleDelta.y)
                  && (a.center.axis == Y <==> mods == {Control})
                  && (a.center.axis == X <==> mods == {Shift}))
            && (a.MovePixelsAction? ==> |a.delta| == 2)
            && (mods == {Alt} ==> a == MovePixelsAction([0, angleDelta.y]))
            && (mods !in {{Control}, {Alt}, {Shift}} && pixelDelta != IntPoint(0, 0) ==>
                  a == MovePixelsAction([pixelDelta.x, pixelDelta.y]))
            && (mods !in {{Control}, {Alt}, {Shift}} && pixelDelta == IntPoint(0, 0) ==>
                  a == MovePixelsAction([angleDelta.y, 0]))
  {
  }

  /** `handleWheelEvent` on a widget: the action applied through the view helpers; the handler
    * always reports the event as handled. */
  method HandleWheelEvent(w: Widget, mods: set<Modifier>, pixelDelta: IntPoint, angleDelta: IntPoint, center: IntPoint)
    returns (handled: bool)
    modifies w
    ensures handled
    ensures var a := WheelAction(mods, pixelDelta, angleDelta, center);
            && (a.NoWheelAction? ==> w.xRange == old(w.xRange) && w.yRange == old(w.yRange))
            && (a.ZoomAtPixelAction? ==>
                  w.Get(a.center.axis) == ZoomedAbout(old(w.Get(a.center.axis)), old(ToData(w, a.center).value), a.factor)
                  && w.OthersUnchanged(a.center.axis, old(w.xRange), old(w.yRange), old(w.zRange)))
            && (a.MovePixelsAction? ==>
                  w.xRange == Shifted(old(w.xRange), -old(Distance(w, Component(a.delta, X)).value))
                  && w.yRange == Shifted(old(w.yRange), -old(Distance(w, Component(a.delta, Y)).value)))
    ensures w.zRange == old(w.zRange)
  {
    var a := WheelAction(mods, pixelDelta, angleDelta, center);
    WheelActionTable(mods, pixelDelta, angleDelta, center);
    match a {
      case ZoomAtPixelAction(c, f) => ZoomAtPixel(w, c, f);
      case MovePixelsAction(d) => MovePixels(w, d);
      case NoWheelAction =>
    }
    handled := true;
  }
}
