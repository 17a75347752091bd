/** The pannable, zoomable canvas: the viewport state and its event handlers.
    DOM checks (`closest('button')`, the background test, focus in a text
    field) arrive as booleans on the events. */
module WorkflowCanvas {

  const MinZoom: real := 25.0
  const MaxZoom: real := 200.0
  const DefaultZoom: real := 100.0
  const ZoomStep: real := 10.0
  const WheelZoomFactor: real := 0.1
  const MiddleButton: int := 1
  const SpaceCode := "Space"

  datatype Point = Point(x: real, y: real)

  const Origin := Point(0.0, 0.0)

  datatype ViewState = ViewState(
    zoom: real,
    pan: Point,
    isDragging: bool,
    isSpacePressed: bool,
    lastMousePos: Point)

  datatype Event =
    | KeyDown(code: string, repeat: bool, inTextField: bool)
    | KeyUp(code: string)
    | Wheel(ctrlKey: bool, deltaX: real, deltaY: real)
    | MouseDown(onButtonOrNode: bool, button: int, isBackground: bool, client: Point)
    | MouseMove(client: Point)
    | MouseUp
    | MouseLeave
    | ZoomIn
    | ZoomOut
    | ResetZoom

  const Initial := ViewState(DefaultZoom, Origin, false, false, Origin)

  predicate ZoomInRange(z: real) {
    MinZoom <= z <= MaxZoom
  }

  function Min(a: real, b: real): real { if a <= b then a else b }
  function Max(a: real, b: real): real { if a >= b then a else b }

  /** `Math.min(Math.max(z, 25), 200)`. */
  function Clamp(z: real): (r: real)
    ensures ZoomInRange(r)
    ensures ZoomInRange(z) ==> r == z
    ensures z < MinZoom ==> r == MinZoom
    ensures z > MaxZoom ==> r == MaxZoom
  {
    Min(Max(z, MinZoom), MaxZoom)
  }

  /** The state after one event. */
  function Next(s: ViewState, e: Event): (r: ViewState)
    ensures ZoomInRange(s.zoom) ==> ZoomInRange(r.zoom)
    ensures r.isDragging && !s.isDragging ==> e.MouseDown?
    ensures r.pan != s.pan ==> (e.Wheel? && !e.ctrlKey) || e.MouseMove? || e.ResetZoom?
    ensures r.zoom != s.zoom ==> (e.Wheel? && e.ctrlKey) || e.ZoomIn? || e.ZoomOut? || e.ResetZoom?
    ensures e.KeyUp? && e.code == SpaceCode ==> !r.isDragging && !r.isSpacePressed
  {
    match e
    case KeyDown(code, repeat, inTextField) =>
      if code == SpaceCode && !repeat && !inTextField then s.(isSpacePressed := true) else s
    case KeyUp(code) =>
      if code == SpaceCode then s.(isSpacePressed := false, isDragging := false) else s
    case Wheel(ctrlKey, deltaX, deltaY) =>
      if ctrlKey then s.(zoom := Clamp(s.zoom + (-deltaY) * WheelZoomFactor))
      else s.(pan := Point(s.pan.x - deltaX, s.pan.y - deltaY))
    case MouseDown(onButtonOrNode, button, isBackground, client) =>
      if onButtonOrNode then s
      else if s.isSpacePressed || button == MiddleButton || isBackground then
        s.(isDragging := true, lastMousePos := client)
      else s
    case MouseMove(client) =>
      if !s.isDragging then s
      else s.(pan := Point(s.pan.x + (client.x - s.lastMousePos.x),
                           s.pan.y + (client.y - s.lastMousePos.y)),
              lastMousePos := client)
    case MouseUp => s.(isDragging := false)
    case MouseLeave => s.(isDragging := false)
    case ZoomIn => s.(zoom := Min(s.zoom + ZoomStep, MaxZoom))
    case ZoomOut => s.(zoom := Max(s.zoom - ZoomStep, MinZoom))
    case ResetZoom => s.(zoom := DefaultZoom, pan := Origin)
  }

  /** A ctrl-wheel zooms against the vertical delta, clamped, and keeps the
      pan; a plain wheel pans against both deltas and keeps the zoom. */
  lemma WheelEffect(s: ViewState, ctrlKey: bool, dx: real, dy: real)
    ensures var r := Next(s, Wheel(ctrlKey, dx, dy));
            (ctrlKey ==> r == s.(zoom := Clamp(s.zoom - WheelZoomFactor * dy))) &&
            (!ctrlKey ==> r == s.(pan := Point(s.pan.x - dx, s.pan.y - dy)))
  {
  }

  /** Key-down enters hand mode exactly on a fresh Space press outside a text
      field, and changes nothing else. */
  lemma KeyDownEffect(s: ViewState, code: string, repeat: bool, inTextField: bool)
    ensures var r := Next(s, KeyDown(code, repeat, inTextField));
            r.zoom == s.zoom && r.pan == s.pan && r.isDragging == s.isDragging &&
            r.lastMousePos == s.lastMousePos &&
            r.isSpacePressed == (s.isSpacePressed || (code == SpaceCode && !repeat && !inTextField))
  {
  }

  /** Releasing the button or leaving the canvas ends the drag and nothing else. */
  lemma MouseUpEffect(s: ViewState)
    ensures Next(s, MouseUp) == s.(isDragging := false)
    ensures Next(s, MouseLeave) == s.(isDragging := false)
  {
  }

  /** The state after a sequence of events, in order. */
  function Run(s: ViewState, es: seq<Event>): ViewState
    decreases |es|
  {
    if es == [] then s else Run(Next(s, es[0]), es[1..])
  }

  /** The zoom stays within [25, 200] along every event sequence. */
  lemma {:induction false} RunKeepsZoomInRange(s: ViewState, es: seq<Event>)
    requires ZoomInRange(s.zoom)
    ensures ZoomInRange(Run(s, es).zoom)
    decreases |es|
  {
    if es != [] {
      RunKeepsZoomInRange(Next(s, es[0]), es[1..]);
    }
  }

  /** Every state reachable from start-up has its zoom within [25, 200]. */
  lemma ReachableZoomInRange(es: seq<Event>)
    ensures ZoomInRange(Run(Initial, es).zoom)
  {
    RunKeepsZoomInRange(Initial, es);
  }

  function Moves(ps: seq<Point>): (es: seq<Event>)
    ensures |es| == |ps| && forall i :: 0 <= i < |ps| ==> es[i] == MouseMove(ps[i])
  {
    seq(|ps|, i requires 0 <= i < |ps| => MouseMove(ps[i]))
  }

  /** Across a drag the pan moves by exactly the pointer's total displacement:
      the frame-to-frame deltas telescope. */
  lemma {:induction false} DragTelescopes(s: ViewState, ps: seq<Point>)
    requires s.isDragging && ps != []
    ensures var t := Run(s, Moves(ps));
            var last := ps[|ps| - 1];
            t.isDragging && t.lastMousePos == last && t.zoom == s.zoom &&
            t.isSpacePressed == s.isSpacePressed &&
            t.pan == Point(s.pan.x + (last.x - s.lastMousePos.x), s.pan.y + (last.y - s.lastMousePos.y))
    decreases |ps|
  {
    var t := Next(s, MouseMove(ps[0]));
    assert Moves(ps)[1..] == Moves(ps[1..]);
    if |ps| > 1 {
      DragTelescopes(t, ps[1..]);
    }
  }

  /** While no drag is active, pointer motion changes nothing. */
  lemma {:induction false} MovesWithoutDrag(s: ViewState, ps: seq<Point>)
    requires !s.isDragging
    ensures Run(s, Moves(ps)) == s
    decreases |ps|
  {
    if ps != [] {
      assert Moves(ps)[1..] == Moves(ps[1..]);
      MovesWithoutDrag(s, ps[1..]);
    }
  }

  /** Releasing space stops an active drag at once: later pointer motion
      leaves the pan where it was. */
  lemma SpaceReleaseHaltsPan(s: ViewState, ps: seq<Point>)
    ensures var released := Next(s, KeyUp(SpaceCode));
            Run(released, Moves(ps)) == released && released.pan == s.pan
  {
    MovesWithoutDrag(Next(s, KeyUp(SpaceCode)), ps);
  }

  /** Two plain wheel pans move the pan as one wheel pan by the summed deltas. */
  lemma WheelPansAdd(s: ViewState, dx1: real, dy1: real, dx2: real, dy2: real)
    ensures Next(Next(s, Wheel(false, dx1, dy1)), Wheel(false, dx2, dy2)) ==
            Next(s, Wheel(false, dx1 + dx2, dy1 + dy2))
  {
  }

  /** From start-up, five zoom-ins reach 150, and a reset returns to zoom 100
      and pan (0, 0) whatever the pan was. */
  lemma FiveZoomInsThenReset(s: ViewState)
    ensures Run(Initial, [ZoomIn, ZoomIn, ZoomIn, ZoomIn, ZoomIn]).zoom == 150.0
    ensures Next(s, ResetZoom).zoom == DefaultZoom && Next(s, ResetZoom).pan == Origin
  {
    var es := [ZoomIn, ZoomIn, ZoomIn, ZoomIn, ZoomIn];
    assert Run(Initial, es) == Run(Initial.(zoom := 110.0), es[1..]);
    assert Run(Initial.(zoom := 110.0), es[1..]) == Run(Initial.(zoom := 120.0), es[2..]);
    assert Run(Initial.(zoom := 120.0), es[2..]) == Run(Initial.(zoom := 130.0), es[3..]);
    assert Run(Initial.(zoom := 130.0), es[3..]) == Run(Initial.(zoom := 140.0), es[4..]);
    assert Run(Initial.(zoom := 140.0), es[4..]) == Run(Initial.(zoom := 150.0), []);
  }

  /** A press on a button or a step node never starts a drag; elsewhere a drag
      starts exactly when space is held, the middle button is used or the
      press is on the background. */
  lemma MouseDownStartsDrag(s: ViewState, onButtonOrNode: bool, button: int, isBackground: bool, p: Point)
    ensures var r := Next(s, MouseDown(onButtonOrNode, button, isBackground, p));
            var starts := !onButtonOrNode && (s.isSpacePressed || button == MiddleButton || isBackground);
            (starts ==> r.isDragging && r.lastMousePos == p) &&
            (!starts ==> r == s) &&
            r.pan == s.pan && r.zoom == s.zoom && r.isSpacePressed == s.isSpacePressed
  {
  }

  /** The canvas component's state variables and handlers. */
  class Canvas {
    var zoom: real
    var pan: Point
    var isDragging: bool
    var isSpacePressed: bool
    var lastMousePos: Point

    function State(): ViewState
      reads this
    {
      ViewState(zoom, pan, isDragging, isSpacePressed, lastMousePos)
    }

    predicate Valid()
      reads this
    {
      ZoomInRange(zoom)
    }

    constructor ()
      ensures Valid() && State() == Initial
    {
      zoom := DefaultZoom;
      pan := Origin;
      isDragging := false;
      isSpacePressed := false;
      lastMousePos := Origin;
    }

    method HandleKeyDown(code: string, repeat: bool, inTextField: bool)
      requires Valid()
      modifies this
      ensures Valid() && State() == Next(old(State()), KeyDown(code, repeat, inTextField))
    {
      if code == SpaceCode && !repeat && !inTextField {
        isSpacePressed := true;
      }
    }

    method HandleKeyUp(code: string)
      requires Valid()
      modifies this
      ensures Valid() && State() == Next(old(State()), KeyUp(code))
    {
      if code == SpaceCode {
        isSpacePressed := false;
        isDragging := false;
      }
    }

    method HandleWheel(ctrlKey: bool, deltaX: real, deltaY: real)
      requires Valid()
      modifies this
      ensures Valid() && State() == Next(old(State()), Wheel(ctrlKey, deltaX, deltaY))
    {
      if ctrlKey {
        var delta := -deltaY;
        var newZoom := zoom + delta * WheelZoomFactor;
        zoom := Min(Max(newZoom, MinZoom), MaxZoom);
      } else {
        pan := Point(pan.x - deltaX, pan.y - deltaY);
      }
    }

    method HandleMouseDown(onButtonOrNode: bool, button: int, isBackground: bool, client: Point)
      requires Valid()
      modifies this
      ensures Valid() && State() == Next(old(State()), MouseDown(onButtonOrNode, button, isBackground, client))
    {
      if onButtonOrNode {
        return;
      }
      var isMiddleClick := button == MiddleButton;
      if isSpacePressed || isMiddleClick || isBackground {
        isDragging := true;
        lastMousePos := client;
      }
    }

    method HandleMouseMove(client: Point)
      requires Valid()
      modifies this
      ensures Valid() && State() == Next(old(State()), MouseMove(client))
    {
      if !isDragging {
        return;
      }
      var deltaX := client.x - lastMousePos.x;
      var deltaY := client.y - lastMousePos.y;
      pan := Point(pan.x + deltaX, pan.y + deltaY);
      lastMousePos := client;
    }

    /** Bound to both `onMouseUp` and `onMouseLeave`. */
    method HandleMouseUp()
      requires Valid()
      modifies this
      ensures Valid() && State() == Next(old(State()), MouseUp)
      ensures State() == Next(old(State()), MouseLeave)
    {
      isDragging := false;
    }

    method HandleZoomIn()
      requires Valid()
      modifies this
      ensures Valid() && State() == Next(old(State()), ZoomIn)
    {
      zoom := Min(zoom + ZoomStep, MaxZoom);
    }

    method HandleZoomOut()
      requires Valid()
      modifies this
      ensures Valid() && State() == Next(old(State()), ZoomOut)
    {
      zoom := Max(zoom - ZoomStep, MinZoom);
    }

    method HandleResetZoom()
      requires Valid()
      modifies this
      ensures Valid() && State() == Next(old(State()), ResetZoom)
    {
      zoom := DefaultZoom;
      pan := Origin;
    }
  }
}
