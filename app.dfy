/**
  The drawing client: the pointer state machine that turns mouse-down, drag
  and mouse-up into segments, the local `draw` onto the canvas context, the
  Clear button, the colour picker's handler and the two socket listeners.

  The pure functions below give the meaning of each handler on an abstract
  client state; the `App` class holds the same state in mutable fields and
  each of its methods is proved to perform the matching function.
 */
module LiveCanvas {
  import opened Protocol
  import opened Canvas2D

  const CanvasWidth: nat := 800
  const CanvasHeight: nat := 600
  const InitialColor: Color := "red"
  /** The brush width `draw` sets before stroking. */
  const BrushWidth: int := 5

  /** The segment `draw(prevX, prevY, x, y, color)` puts on the canvas. */
  function BrushSegment(prevX: int, prevY: int, x: int, y: int, color: Color): Segment
  {
    Segment(Point(prevX, prevY), Point(x, y), color, BrushWidth, RoundJoin, RoundCap)
  }

  /** The segment a client draws for an emitted `draw` event: its five
      arguments, passed positionally to `draw`. */
  function SegmentOf(e: ClientEvent): Segment
    requires e.Draw?
  {
    BrushSegment(e.prevX, e.prevY, e.x, e.y, e.color)
  }

  /** Everything the client handlers read or change. `hasSocket` is false
      until the mount effect has connected; `surface` is the canvas and
      `sent` the events emitted on the socket so far. */
  datatype ClientState = ClientState(
    hasSocket: bool,
    isMouseDown: bool,
    prevCoord: Option<Point>,
    selectedColor: Color,
    surface: seq<Segment>,
    sent: seq<ClientEvent>)

  /** The state at the first render. */
  function Initial(): ClientState
  {
    ClientState(false, false, None, InitialColor, [], [])
  }

  /** A drag at this state produces a segment. */
  predicate DrawsOnDrag(st: ClientState)
  {
    st.hasSocket && st.isMouseDown && st.prevCoord.Some?
  }

  /** The point a mouse event denotes inside a canvas whose bounding box
      starts at (left, top). */
  function CanvasOffset(clientX: int, clientY: int, left: int, top: int): Point
  {
    Point(clientX - left, clientY - top)
  }

  /** handleMouseDrag with the event's canvas offset `p`. */
  function Drag(st: ClientState, p: Point): (r: ClientState)
    ensures r.hasSocket == st.hasSocket && r.isMouseDown == st.isMouseDown
    ensures r.selectedColor == st.selectedColor
    // a segment is drawn and emitted exactly when socket, mouse-down and a
    // previous point are all present
    ensures r.sent != st.sent <==> DrawsOnDrag(st)
    ensures DrawsOnDrag(st) ==>
      var q := st.prevCoord.value;
      && r.sent == st.sent + [Draw(q.x, q.y, p.x, p.y, st.selectedColor)]
      && r.surface == st.surface + [SegmentOf(r.sent[|r.sent| - 1])]
    ensures !DrawsOnDrag(st) ==> r.surface == st.surface
    // the current point always becomes the previous one while drawing is on,
    // and nothing at all changes otherwise
    ensures st.hasSocket && st.isMouseDown ==> r.prevCoord == Some(p)
    ensures !(st.hasSocket && st.isMouseDown) ==> r == st
  {
    if st.hasSocket && st.isMouseDown then
      var drawn :=
        if st.prevCoord.Some? then
          var q := st.prevCoord.value;
          st.(surface := st.surface + [BrushSegment(q.x, q.y, p.x, p.y, st.selectedColor)],
              sent := st.sent + [Draw(q.x, q.y, p.x, p.y, st.selectedColor)])
        else st;
      drawn.(prevCoord := Some(p))
    else st
  }

  /** handleMouseDown. */
  function Down(st: ClientState): (r: ClientState)
    ensures r.isMouseDown
    ensures r.prevCoord == st.prevCoord && r.surface == st.surface && r.sent == st.sent
    ensures r.hasSocket == st.hasSocket && r.selectedColor == st.selectedColor
  {
    st.(isMouseDown := true)
  }

  /** handleMouseUp. */
  function Up(st: ClientState): (r: ClientState)
    ensures !r.isMouseDown && r.prevCoord == None
    ensures r.surface == st.surface && r.sent == st.sent
    ensures r.hasSocket == st.hasSocket && r.selectedColor == st.selectedColor
  {
    st.(isMouseDown := false, prevCoord := None)
  }

  /** handleColorChange with the picked colour's hex value. */
  function ChangeColor(st: ClientState, hex: Color): (r: ClientState)
    ensures r.selectedColor == hex
    ensures r.surface == st.surface && r.sent == st.sent && r.prevCoord == st.prevCoord
    // the stroke in progress goes on: a colour change mid-drag only affects
    // the segments that follow
    ensures r.isMouseDown == st.isMouseDown && r.hasSocket == st.hasSocket
  {
    st.(selectedColor := hex)
  }

  /** handleClearCanvas: the canvas is wiped, then `clear` is emitted with the
      argument ''. Without a socket the emit throws, after the wipe. */
  function ClearCanvas(st: ClientState): (r: ClientState)
    ensures r.surface == []
    ensures r.sent == if st.hasSocket then st.sent + [Clear("")] else st.sent
    // a manual clear is no part of the pointer state machine
    ensures r.isMouseDown == st.isMouseDown && r.prevCoord == st.prevCoord
    ensures r.selectedColor == st.selectedColor && r.hasSocket == st.hasSocket
  {
    st.(surface := [], sent := if st.hasSocket then st.sent + [Clear("")] else st.sent)
  }

  /** The `receive` and `clear` socket listeners. */
  function Apply(st: ClientState, e: ServerEvent): (r: ClientState)
    ensures e.Receive? ==> r.surface == st.surface + [BrushSegment(e.x, e.y, e.offsetX, e.offsetY, e.color)]
    ensures e.ClearAll? ==> r.surface == []
    ensures r.sent == st.sent && r.prevCoord == st.prevCoord && r.isMouseDown == st.isMouseDown
    ensures r.hasSocket == st.hasSocket && r.selectedColor == st.selectedColor
  {
    match e
    case Receive(x, y, offsetX, offsetY, color) =>
      st.(surface := st.surface + [BrushSegment(x, y, offsetX, offsetY, color)])
    case ClearAll =>
      st.(surface := [])
  }

  /** One thing that can happen to a client. */
  datatype UiEvent =
    | MouseDown
    | MouseMove(at: Point)
    | MouseUp
    | ColorChange(hex: Color)
    | ClearClick
    | Incoming(msg: ServerEvent)

  function Step(st: ClientState, ev: UiEvent): (r: ClientState)
    // events are only ever appended to what the socket has sent
    ensures st.sent <= r.sent
    // every emitted `draw` carries the colour selected at that moment
    ensures forall i :: |st.sent| <= i < |r.sent| && r.sent[i].Draw? ==> r.sent[i].color == st.selectedColor
    ensures !ev.ColorChange? ==> r.selectedColor == st.selectedColor
  {
    match ev
    case MouseDown => Down(st)
    case MouseMove(p) => Drag(st, p)
    case MouseUp => Up(st)
    case ColorChange(hex) => ChangeColor(st, hex)
    case ClearClick => ClearCanvas(st)
    case Incoming(e) => Apply(st, e)
  }

  /** The state after the events `evs`, in order. */
  function Run(st: ClientState, evs: seq<UiEvent>): ClientState
    decreases |evs|
  {
    if evs == [] then st else Run(Step(st, evs[0]), evs[1..])
  }

  /** The client end of a socket: what has been emitted on it. */
  class ClientSocket {
    var sent: seq<ClientEvent>

    constructor ()
      ensures sent == []
    {
      sent := [];
    }

    method Emit(e: ClientEvent)
      modifies this
      ensures sent == old(sent) + [e]
    {
      sent := sent + [e];
    }
  }

  /** The App component's state: React state and refs become fields. */
  class App {
    var selectedColor: Color
    var socket: ClientSocket?
    var isMouseDown: bool
    var prevCoord: Option<Point>
    const ctx: Context2D

    /** The abstract client state these fields hold. */
    function State(): ClientState
      reads this, ctx, socket
    {
      ClientState(socket != null, isMouseDown, prevCoord, selectedColor, ctx.painted,
                  if socket == null then [] else socket.sent)
    }

    /** The first render: an 800 by 600 canvas, colour red, no socket yet. */
    constructor ()
      ensures State() == Initial()
      ensures ctx.width == CanvasWidth && ctx.height == CanvasHeight
      ensures fresh(ctx)
    {
      selectedColor := InitialColor;
      socket := null;
      isMouseDown := false;
      prevCoord := None;
      ctx := new Context2D(CanvasWidth, CanvasHeight);
    }

    /** The mount effect: a new socket is opened and stored. */
    method Mount()
      requires socket == null
      modifies this`socket
      ensures fresh(socket)
      ensures State() == old(State()).(hasSocket := true)
    {
      socket := new ClientSocket();
    }

    /** The local `draw`: set the brush, then stroke one line. */
    method Draw(prevX: int, prevY: int, x: int, y: int, color: Color)
      modifies ctx
      ensures ctx.painted == old(ctx.painted) + [BrushSegment(prevX, prevY, x, y, color)]
      ensures ctx.strokeStyle == color && ctx.lineJoin == RoundJoin && ctx.lineCap == RoundCap
      ensures ctx.lineWidth == BrushWidth
    {
      ctx.strokeStyle := color;
      ctx.lineJoin := RoundJoin;
      ctx.lineCap := RoundCap;
      ctx.lineWidth := BrushWidth;
      ctx.BeginPath();
      ctx.MoveTo(prevX, prevY);
      ctx.LineTo(x, y);
      ctx.Stroke();
      assert ctx.path == [Line(Point(prevX, prevY), Point(x, y))];
    }

    /** handleMouseDrag for a mouse event at (clientX, clientY) over a canvas
        whose bounding box starts at (left, top). */
    method HandleMouseDrag(clientX: int, clientY: int, left: int, top: int)
      modifies this`prevCoord, ctx, socket
      ensures State() == Drag(old(State()), CanvasOffset(clientX, clientY, left, top))
    {
      if socket != null && isMouseDown {
        var offsetX := clientX - left;
        var offsetY := clientY - top;
        if prevCoord.Some? {
          var prevX, prevY := prevCoord.value.x, prevCoord.value.y;
          Draw(prevX, prevY, offsetX, offsetY, selectedColor);
          socket.Emit(ClientEvent.Draw(prevX, prevY, offsetX, offsetY, selectedColor));
        }
        prevCoord := Some(Point(offsetX, offsetY));
      }
    }

    /** handleMouseDown. */
    method HandleMouseDown()
      modifies this`isMouseDown
      ensures State() == Down(old(State()))
    {
      isMouseDown := true;
    }

    /** handleMouseUp. */
    method HandleMouseUp()
      modifies this`isMouseDown, this`prevCoord
      ensures State() == Up(old(State()))
    {
      isMouseDown := false;
      prevCoord := None;
    }

    /** handleColorChange. */
    method HandleColorChange(hex: Color)
      modifies this`selectedColor
      ensures State() == ChangeColor(old(State()), hex)
    {
      selectedColor := hex;
    }

    /** handleClearCanvas; `emitted` is false when the emit threw for want
        of a socket. */
    method HandleClearCanvas() returns (emitted: bool)
      requires ctx.width == CanvasWidth && ctx.height == CanvasHeight
      modifies ctx, socket
      ensures emitted == (socket != null)
      ensures State() == ClearCanvas(old(State()))
    {
      ctx.ClearRect(0, 0, CanvasWidth, CanvasHeight);
      if socket == null {
        return false;
      }
      socket.Emit(Clear(""));
      return true;
    }

    /** The `receive` listener. */
    method OnReceive(x: int, y: int, offsetX: int, offsetY: int, color: Color)
      modifies ctx
      ensures State() == Apply(old(State()), Receive(x, y, offsetX, offsetY, color))
    {
      Draw(x, y, offsetX, offsetY, color);
    }

    /** The `clear` listener. */
    method OnClear()
      requires ctx.width == CanvasWidth && ctx.height == CanvasHeight
      modifies ctx
      ensures State() == Apply(old(State()), ClearAll)
    {
      ctx.ClearRect(0, 0, CanvasWidth, CanvasHeight);
    }
  }
}
