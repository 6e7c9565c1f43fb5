/**
  Values shared by the browser client and the relay: points, colours, the
  painted segment record and the four socket events of the wire vocabulary.
 */
module Protocol {

  /** A CSS colour as the client passes it around: a hex string or a name. */
  type Color = string

  datatype Option<T> = None | Some(value: T)

  /** A position in canvas coordinates. */
  datatype Point = Point(x: int, y: int)

  /** The `lineJoin` values of a 2D canvas context. */
  datatype LineJoin = MiterJoin | RoundJoin | BevelJoin

  /** The `lineCap` values of a 2D canvas context. */
  datatype LineCap = ButtCap | RoundCap | SquareCap

  /** One stroked straight line as it sits on the canvas surface. */
  datatype Segment = Segment(origin: Point, target: Point, color: Color, width: int, join: LineJoin, cap: LineCap)

  /** Events a client emits to the relay: `draw` with five positional
      arguments, and `clear` with whatever argument the client attached. */
  datatype ClientEvent =
    | Draw(prevX: int, prevY: int, x: int, y: int, color: Color)
    | Clear(arg: string)

  /** Events the relay emits to every client: `receive` with five positional
      arguments (a segment from (x, y) to (offsetX, offsetY)), and a
      payload-less `clear`. */
  datatype ServerEvent =
    | Receive(x: int, y: int, offsetX: int, offsetY: int, color: Color)
    | ClearAll
}
