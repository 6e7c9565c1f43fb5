# Live canvas: client stroke state machine and relay fan-out

This project models the synchronisation core of a shared drawing board.

- **Client (`frontend/src/App.js`).** A browser component turns mouse events into line segments. While the mouse is down, each drag paints a segment on the local canvas from the previously recorded point to the current one. It also emits a `draw` event with the same five arguments. Mouse-up forgets the recorded point. The Clear button wipes the canvas and emits `clear`. Two socket listeners repaint incoming `receive` segments and wipe the canvas on an incoming `clear`.
- **Relay (`backend/src/server.js`).** Every `draw` from any connection is re-emitted as `receive`, with the same arguments in the same order, to every connection, the sender included. Every `clear` is re-emitted as `clear` without payload.

Files:

- `protocol.dfy` (module `Protocol`): points, colours, the segment record and the four wire events.
- `canvas2d.dfy` (module `Canvas2D`): the part of the browser's 2D context the client uses, as a class. It has the stroke-style fields, a path built by `beginPath`/`moveTo`/`lineTo`, `stroke` and `clearRect`. The raster surface is abstracted to the sequence of segments stroked since the last clear.
- `app.dfy` (module `LiveCanvas`): each handler as a pure function on an abstract `ClientState`, plus the `App` class. The class holds the React state and refs as mutable fields. Each of its methods is proved to do exactly what the matching function says (`ensures State() == Drag(old(State()), …)`).
- `app_properties.dfy` (module `LiveCanvasProperties`): lemmas over whole event sequences (`Run`). They cover strokes, fresh starts after mouse-up, colour changes, clears, and the brush style of everything painted.
- `relay_hub.dfy` (module `RelayHub`): `Relay` (payload mapping), `Fanout` (one `io.emit`), `HandleAll` (a sequence of inbound events), and the `Hub` class. The hub's own state is its session set. Its `outbox` map records what each session has been sent.
- `end_to_end.dfy` (module `EndToEnd`): client and relay together. It also holds two example scenarios as lemmas: three sessions relaying a `draw` and a `clear`, and one client drawing two strokes.

Points where the code behaves in a way worth noting:

- Mouse-down only sets `isMouseDown` (`frontend/src/App.js:127-129`). It does not reset the recorded point. A mouse-up released outside the canvas reaches neither handler (`frontend/src/App.js:162`, `frontend/src/App.js:73`), so `isMouseDown` and the recorded point both stay. The next move over the canvas draws from the old point with the button up, and drawing goes on until a mouse-up lands on the canvas (`UpOffCanvasKeepsDrawing`).
- The client's `clear` carries an argument `''` (`frontend/src/App.js:120`). The relay drops it.
- Colours are unvalidated strings throughout.
- Before the mount effect runs, the context ref is still null (`frontend/src/App.js:69`), so the Clear button fails at `clearRect` (`frontend/src/App.js:114`) without wiping anything. After the effect has run but before the re-render that exposes the socket, the button wipes the canvas and then fails at `socket.emit` (`frontend/src/App.js:120`). The model covers the second window: it keeps the wipe and emits nothing.

## Model

| member | source | states |
|---|---|---|
| `Canvas2D.Context2D.constructor` | frontend/src/App.js:67-69 | a fresh context has the canvas defaults for style, an empty path and a blank surface |
| `Canvas2D.Context2D.BeginPath` | frontend/src/App.js:107 | the path is emptied and has no current point |
| `Canvas2D.Context2D.MoveTo` | frontend/src/App.js:108 | the current point becomes (x, y) and no line is added |
| `Canvas2D.Context2D.LineTo` | frontend/src/App.js:109 | a line from the current point to (x, y) is added, and (x, y) becomes the current point |
| `Canvas2D.Context2D.Stroke` | frontend/src/App.js:110 | the surface gains one segment per path line in the current style, and keeps everything it had |
| `Canvas2D.Context2D.ClearRect` | frontend/src/App.js:114-119 | clearing a rectangle that covers the canvas leaves a blank surface |
| `Canvas2D.Outline` | frontend/src/App.js:110 | stroking paints exactly one segment per line of the path, in path order: the i-th segment runs from the i-th line's origin to its target in the given colour, width, join and cap |
| `LiveCanvas.Drag` | frontend/src/App.js:87-100 | a segment is drawn and emitted if and only if the socket exists, the mouse is down and a point is recorded; the emitted `draw` carries the recorded point, the current point and the selected colour in that order, and the local segment is the one that event denotes; while the socket exists and the mouse is down the current point is always recorded, and otherwise nothing at all changes |
| `LiveCanvas.Down` | frontend/src/App.js:127-129 | mouse-down sets `isMouseDown` and leaves the recorded point, canvas, emitted events, socket and selected colour untouched |
| `LiveCanvas.Up` | frontend/src/App.js:131-134 | mouse-up clears `isMouseDown` and the recorded point, draws or emits nothing, and keeps the socket and selected colour |
| `LiveCanvas.ChangeColor` | frontend/src/App.js:123-125 | the picked hex colour becomes the selected colour; canvas, emitted events, recorded point, mouse state and socket are untouched, so a stroke in progress goes on |
| `LiveCanvas.ClearCanvas` | frontend/src/App.js:113-121 | the canvas is blank afterwards, `clear` with argument `''` is emitted exactly when a socket exists, and the mouse state, recorded point, selected colour and socket are untouched |
| `LiveCanvas.Apply` | frontend/src/App.js:136-151 | an incoming `receive(x, y, offsetX, offsetY, color)` adds the brush segment from (x, y) to (offsetX, offsetY) in `color`; an incoming `clear` blanks the canvas; neither emits nor touches the pointer state, the selected colour or the socket |
| `LiveCanvas.Step` | frontend/src/App.js:87-134 | no handler removes or rewrites emitted events; every `draw` a handler emits carries the colour selected when it ran; only the colour picker changes the colour |
| `LiveCanvas.ClientSocket.constructor` | frontend/src/App.js:64 | a new socket has emitted nothing |
| `LiveCanvas.ClientSocket.Emit` | frontend/src/App.js:96 | emitting appends exactly that event to what the socket has sent |
| `LiveCanvas.App.constructor` | frontend/src/App.js:55-61 | the first render has colour red, no socket, the mouse up, no recorded point and a blank 800 by 600 canvas |
| `LiveCanvas.App.Mount` | frontend/src/App.js:63-65 | the mount effect stores a new socket, and nothing else changes |
| `LiveCanvas.App.Draw` | frontend/src/App.js:102-111 | `draw` adds exactly one segment to the canvas, of width 5 with round join and round cap, with the given endpoints and colour, and leaves the context styled that way |
| `LiveCanvas.App.HandleMouseDrag` | frontend/src/App.js:87-100 | the fields, canvas and socket change exactly as `Drag` says, for the point (clientX - left, clientY - top) |
| `LiveCanvas.App.HandleMouseDown` | frontend/src/App.js:127-129 | the state changes exactly as `Down` says |
| `LiveCanvas.App.HandleMouseUp` | frontend/src/App.js:131-134 | the state changes exactly as `Up` says |
| `LiveCanvas.App.HandleColorChange` | frontend/src/App.js:123-125 | the state changes exactly as `ChangeColor` says |
| `LiveCanvas.App.HandleClearCanvas` | frontend/src/App.js:113-121 | the state changes exactly as `ClearCanvas` says, and the emit succeeds exactly when a socket exists |
| `LiveCanvas.App.OnReceive` | frontend/src/App.js:138-140 | the `receive` listener changes the state exactly as `Apply` does for that event |
| `LiveCanvas.App.OnClear` | frontend/src/App.js:142-149 | the `clear` listener leaves a blank canvas and changes nothing else |
| `LiveCanvasProperties.Chain` | frontend/src/App.js:93-98 | the `draw` events of one stroke: one fewer than its points (none for none), the i-th joining point i to point i + 1 |
| `LiveCanvasProperties.DragsWhileDown` | frontend/src/App.js:87-100 | drags with the mouse down and a socket emit, and paint locally, one segment per pair of consecutive points (counting a recorded start point), and record the last point |
| `LiveCanvasProperties.StrokeSegments` | frontend/src/App.js:87-134 | down, N drags and up, starting with no recorded point, emit exactly N - 1 `draw` events (none for N = 0) joining consecutive points, paint exactly those segments, and leave the mouse up with no recorded point |
| `LiveCanvasProperties.FreshStrokeAfterUp` | frontend/src/App.js:131-134 | after up, down and one drag nothing is emitted or drawn, so a new stroke never joins the previous stroke's last point; the drag's point becomes the recorded one |
| `LiveCanvasProperties.UpOffCanvasKeepsDrawing` | frontend/src/App.js:87-134 | with the button still counted as down after a mouse-up off the canvas, the move back onto the canvas emits a `draw` from the old point, and the drag after the next mouse-down joins the point that move recorded |
| `LiveCanvasProperties.DownKeepsRecordedPoint` | frontend/src/App.js:127-129 | mouse-down keeps a recorded point, so a drag right after it emits the segment from that point |
| `LiveCanvasProperties.ColorAppliesToLaterSegments` | frontend/src/App.js:123-125 | after a colour change, every later `draw` carries the new colour until the next change, and earlier events are unchanged |
| `LiveCanvasProperties.ColorChangeMidStroke` | frontend/src/App.js:87-125 | a colour change between two drags of one stroke keeps the stroke going: the second drag emits a `draw` from the first drag's point in the new colour, after whatever the first drag emitted in the old colour |
| `LiveCanvasProperties.DrawsKeepColor` | frontend/src/App.js:94-96 | with no colour change, the colour stays the same and every new `draw` carries it |
| `LiveCanvasProperties.ClearIsAbsorbing` | frontend/src/App.js:113-149 | a Clear click or an incoming `clear` as the last event leaves a blank canvas, whatever came before |
| `LiveCanvasProperties.SurfaceIsBrushed` | frontend/src/App.js:102-111 | every segment on the canvas has width 5, round join and round cap, whatever events arrive |
| `RelayHub.Relay` | backend/src/server.js:15-19 | a `draw` is relayed as a `receive` whose five arguments equal the `draw`'s, position by position; a `clear` is relayed as a payload-less `clear`, whatever argument it had |
| `RelayHub.RelayAll` | backend/src/server.js:14-21 | one relayed event per inbound event, the i-th relaying the i-th |
| `RelayHub.FanoutReachesEach` | backend/src/server.js:16 | a broadcast keeps the session set and appends the event exactly once to every session's outbox, the sender's included |
| `RelayHub.FanoutDeliversK` | backend/src/server.js:16 | with K sessions, a broadcast makes exactly K deliveries |
| `RelayHub.HandleAllInOrder` | backend/src/server.js:14-21 | after any sequence of inbound events, each session has received exactly one relayed event per inbound event, in arrival order |
| `RelayHub.Hub.constructor` | backend/src/server.js:12 | a new server has no connections and has delivered nothing |
| `RelayHub.Hub.Connect` | backend/src/server.js:14 | a new connection joins the broadcast set with nothing delivered yet |
| `RelayHub.Hub.Disconnect` | backend/src/server.js:12 | a closed connection leaves the broadcast set |
| `RelayHub.Hub.Broadcast` | backend/src/server.js:16 | `io.emit` delivers the event to every connected session and leaves the session set alone |
| `RelayHub.Hub.OnDraw` | backend/src/server.js:15-17 | a `draw` from any connection is broadcast as the relayed `receive` to every session; the session set is unchanged |
| `RelayHub.Hub.OnClear` | backend/src/server.js:18-20 | a `clear` from any connection is broadcast as a payload-less `clear` to every session; the session set is unchanged |
| `EndToEnd.DrawReachesEveryone` | backend/src/server.js:15-16 | a segment drawn by a drag reaches every session once, and every receiving client paints the very segment the sender painted locally |
| `EndToEnd.EchoIsOverdraw` | backend/src/server.js:16 | the sender's own echo repaints its last segment, which adds no segment that was not already on its canvas |
| `EndToEnd.ClearReachesEveryone` | backend/src/server.js:18-19 | a Clear click blanks the sender's canvas, emits `clear('')`, and the relayed payload-less `clear` blanks the canvas of every client that processes its deliveries |
| `EndToEnd.ThreeSessionScenario` | backend/src/server.js:14-21 | with sessions A, B and C, a `draw(10, 10, 20, 20, "#ff0000")` then a `clear` give each session exactly that `receive` and then `clear` |
| `EndToEnd.ClientScenario` | frontend/src/App.js:87-134 | down, drags to (5, 5) and (15, 5), up, down, a drag to (60, 50): exactly one segment, (5, 5) to (15, 5), is emitted and drawn, and (60, 50) is recorded |

## Left out

- React rendering, the styled components and the colour-picker widget: these are presentation. The picker is modelled only through the hex value its handler receives.
- socket.io and express plumbing: the connect handshake, `app.listen`, CORS, port 4000 and the client's disconnect on unmount. Sessions are abstract ids.
- Failures of a single send during a broadcast, and delivery order across connections. The transport decides these, not this code.
- Pixel rasterisation and anti-aliasing. The canvas is the sequence of segments stroked onto it since the last clear, so drawing a segment twice shows up as a repeated record.
- `getBoundingClientRect` is a browser call. Its `left` and `top` are parameters of `HandleMouseDrag`.
- React's asynchronous state updates. Setters take effect at once.
- The duplicate native listeners registered in the mount effect (`frontend/src/App.js:72-74`). The model delivers each pointer event once. The native drag listener sees a null socket and never draws. The native down and up listeners repeat idempotent updates.
- Canvas2D.Context2D.ClearRect: only rectangles that cover the whole canvas are modelled. These are the only ones the client clears.
- LiveCanvas.App.HandleClearCanvas: the handler's exception after the wipe, when there is no socket, is modelled as returning `false`.
- Handlers running before the mount effect has set the context ref. The model's context exists from construction.
- Multiple subpaths and the other context state not used by `draw`.
- Incoming `receive` and `clear` events are accepted in any state. The client registers those listeners only once a socket exists (`frontend/src/App.js:136-137`); every property here holds for all event sequences, so it covers the runs the client can see.
- Coordinates are integers. The client's offsets `clientX - rect.left` and `clientY - rect.top` (`frontend/src/App.js:89-91`) can be fractional; no property here depends on integrality.
- Wire payloads are typed as four integers and a colour string. The relay (`backend/src/server.js:15-16`) forwards whatever values arrive, of any type and any number; the model covers only the payloads the client sends.
