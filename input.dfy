/** Input normalisation: which canonical notepad event each mouse, touch and
    keyboard handler emits. Coordinates are taken relative to the canvas's
    top-left corner and scaled by the device pixel ratio. */
module Input {
  import opened Geometry

  datatype Option<T> = None | Some(value: T)

  /** The notepad's own events: the only thing that reaches the controller. */
  datatype PenEvent =
    | PenDown(x: real, y: real)
    | PenMove(point: Point)
    | PenUp
    | Undo
    | Redo

  /** The top-left corner of the canvas's bounding rectangle, in CSS pixels. */
  datatype Rect = Rect(x: real, y: real)

  /** A mouse cannot sense pressure, so every mouse sample gets this force. */
  const MouseForce: real := 0.2

  /** A client coordinate converted to a device-pixel canvas coordinate. */
  function CanvasCoord(ratio: real, client: real, origin: real): real {
    ratio * (client - origin)
  }

  // ----- Mouse -----

  datatype MouseKind = MouseDown | MouseUp | MouseMove | MouseOut
  datatype MouseEvent = MouseEvent(kind: MouseKind, clientX: real, clientY: real)

  /** Every mouse event emits exactly one pen event. */
  function OnMouse(e: MouseEvent, rect: Rect, ratio: real): (r: PenEvent)
    ensures r.PenDown? <==> e.kind == MouseDown
    ensures r.PenMove? <==> e.kind == MouseMove
    ensures r.PenUp? <==> e.kind == MouseUp || e.kind == MouseOut
    ensures r.PenMove? ==> r.point.force == MouseForce
    ensures r.PenDown? ==>
      r.x == CanvasCoord(ratio, e.clientX, rect.x) && r.y == CanvasCoord(ratio, e.clientY, rect.y)
    ensures r.PenMove? ==>
      r.point.x == CanvasCoord(ratio, e.clientX, rect.x) && r.point.y == CanvasCoord(ratio, e.clientY, rect.y)
  {
    var x := CanvasCoord(ratio, e.clientX, rect.x);
    var y := CanvasCoord(ratio, e.clientY, rect.y);
    match e.kind
    case MouseDown => PenDown(x, y)
    case MouseUp => PenUp
    case MouseMove => PenMove(Point(x, y, MouseForce))
    case MouseOut => PenUp
  }

  // ----- Touch -----

  datatype Touch = Touch(touchType: string, clientX: real, clientY: real, force: real)
  datatype TouchKind = TouchStart | TouchEnd | TouchMove | TouchCancel

  /** A touch event with every contact currently on the surface. */
  datatype TouchEvent = TouchEvent(kind: TouchKind, touches: seq<Touch>)

  predicate IsStylus(t: Touch) {
    t.touchType == "stylus"
  }

  predicate NoStylus(ts: seq<Touch>) {
    forall i :: 0 <= i < |ts| ==> !IsStylus(ts[i])
  }

  /** `i` is the first stylus contact among `ts`. */
  predicate FirstStylusAt(ts: seq<Touch>, i: nat) {
    i < |ts| && IsStylus(ts[i]) && forall j :: 0 <= j < i ==> !IsStylus(ts[j])
  }

  /** The position of the first stylus contact, if any. */
  function FindStylus(ts: seq<Touch>): (r: Option<nat>)
    ensures r.Some? ==> FirstStylusAt(ts, r.value)
    ensures r.None? ==> NoStylus(ts)
  {
    if ts == [] then None
    else if IsStylus(ts[0]) then Some(0)
    else match FindStylus(ts[1..])
      case None => None
      case Some(k) => Some(k + 1)
  }

  /** Only a stylus draws. At touch start, finger taps are gestures: two
      fingers undo, three redo, any other count does nothing. Lifting or
      cancelling any contact ends the stroke. A move without a stylus is
      ignored. */
  function OnTouch(e: TouchEvent, rect: Rect, ratio: real): (r: Option<PenEvent>)
    ensures e.kind == TouchEnd || e.kind == TouchCancel ==> r == Some(PenUp)
    ensures e.kind == TouchStart ==> forall i: nat :: FirstStylusAt(e.touches, i) ==>
      r == Some(PenDown(CanvasCoord(ratio, e.touches[i].clientX, rect.x),
                        CanvasCoord(ratio, e.touches[i].clientY, rect.y)))
    ensures e.kind == TouchStart ==>
      (r == Some(Undo) <==> NoStylus(e.touches) && |e.touches| == 2)
    ensures e.kind == TouchStart ==>
      (r == Some(Redo) <==> NoStylus(e.touches) && |e.touches| == 3)
    ensures e.kind == TouchStart ==>
      (r == None <==> NoStylus(e.touches) && |e.touches| != 2 && |e.touches| != 3)
    ensures e.kind == TouchMove ==> forall i: nat :: FirstStylusAt(e.touches, i) ==>
      r == Some(PenMove(Point(CanvasCoord(ratio, e.touches[i].clientX, rect.x),
                              CanvasCoord(ratio, e.touches[i].clientY, rect.y),
                              e.touches[i].force)))
    ensures e.kind == TouchMove ==> (r == None <==> NoStylus(e.touches))
  {
    match e.kind
    case TouchStart =>
      (match FindStylus(e.touches)
       case Some(i) =>
         var t := e.touches[i];
         Some(PenDown(CanvasCoord(ratio, t.clientX, rect.x), CanvasCoord(ratio, t.clientY, rect.y)))
       case None =>
         if |e.touches| == 2 then Some(Undo)
         else if |e.touches| == 3 then Some(Redo)
         else None)
    case TouchEnd => Some(PenUp)
    case TouchMove =>
      (match FindStylus(e.touches)
       case Some(i) =>
         var t := e.touches[i];
         Some(PenMove(Point(CanvasCoord(ratio, t.clientX, rect.x), CanvasCoord(ratio, t.clientY, rect.y), t.force)))
       case None => None)
    case TouchCancel => Some(PenUp)
  }

  /** A finger resting beside the stylus does not draw: the move carries the
      stylus's position and force, whichever order the contacts come in. */
  lemma StylusDisambiguation(finger: Touch, stylus: Touch, rect: Rect, ratio: real)
    requires !IsStylus(finger) && IsStylus(stylus)
    ensures var expected := Some(PenMove(Point(CanvasCoord(ratio, stylus.clientX, rect.x),
                                               CanvasCoord(ratio, stylus.clientY, rect.y),
                                               stylus.force)));
      && OnTouch(TouchEvent(TouchMove, [finger, stylus]), rect, ratio) == expected
      && OnTouch(TouchEvent(TouchMove, [stylus, finger]), rect, ratio) == expected
  {
    assert FirstStylusAt([finger, stylus], 1);
    assert FirstStylusAt([stylus, finger], 0);
  }

  // ----- Keyboard -----

  datatype KeyEvent = KeyEvent(key: string, metaKey: bool, shiftKey: bool)

  /** Cmd+Z undoes, Cmd+Shift+Z redoes; nothing else emits anything, and the
      keyboard never draws. */
  function OnKeyDown(e: KeyEvent): (r: Option<PenEvent>)
    ensures r == Some(Undo) <==> e.metaKey && !e.shiftKey && e.key == "z"
    ensures r == Some(Redo) <==> e.metaKey && e.shiftKey && e.key == "z"
    ensures r == None <==> !(e.metaKey && e.key == "z")
  {
    if e.metaKey && !e.shiftKey && e.key == "z" then Some(Undo)
    else if e.metaKey && e.shiftKey && e.key == "z" then Some(Redo)
    else None
  }
}
