/**
  The part of a browser 2D canvas context that the client uses: the four
  stroke-style fields, a path of straight lines built with beginPath, moveTo
  and lineTo, stroke, and clearRect over the whole canvas. The raster
  surface is abstracted to the sequence of segments stroked onto it since it
  was last cleared.
 */
module Canvas2D {
  import opened Protocol

  /** One straight piece of the current path. */
  datatype Line = Line(origin: Point, target: Point)

  /** The segments that stroking `path` paints with the given style, one per
      line of the path and in path order. */
  function Outline(path: seq<Line>, color: Color, width: int, join: LineJoin, cap: LineCap): (r: seq<Segment>)
    ensures |r| == |path|
    ensures forall i :: 0 <= i < |path| ==>
      r[i] == Segment(path[i].origin, path[i].target, color, width, join, cap)
  {
    if path == [] then []
    else [Segment(path[0].origin, path[0].target, color, width, join, cap)] + Outline(path[1..], color, width, join, cap)
  }

  /** True when the rectangle (x, y, w, h) covers a width by height canvas. */
  predicate Covers(x: int, y: int, w: int, h: int, width: nat, height: nat)
  {
    x <= 0 && y <= 0 && width <= x + w && height <= y + h
  }

  class Context2D {
    const width: nat
    const height: nat
    var strokeStyle: Color
    var lineJoin: LineJoin
    var lineCap: LineCap
    var lineWidth: int
    /** The lines of the current path. */
    var path: seq<Line>
    /** The current point of the path, if any. */
    var cursor: Option<Point>
    /** The raster surface: every segment stroked since the last clear. */
    var painted: seq<Segment>

    /** A fresh context with the canvas defaults and a blank surface. */
    constructor (width: nat, height: nat)
      ensures this.width == width && this.height == height
      ensures strokeStyle == "#000000" && lineJoin == MiterJoin && lineCap == ButtCap && lineWidth == 1
      ensures path == [] && cursor == None && painted == []
    {
      this.width := width;
      this.height := height;
      strokeStyle := "#000000";
      lineJoin := MiterJoin;
      lineCap := ButtCap;
      lineWidth := 1;
      path := [];
      cursor := None;
      painted := [];
    }

    /** Starts a new, empty path. */
    method BeginPath()
      modifies this`path, this`cursor
      ensures path == [] && cursor == None
    {
      path := [];
      cursor := None;
    }

    /** Moves the current point without adding a line. */
    method MoveTo(x: int, y: int)
      modifies this`cursor
      ensures cursor == Some(Point(x, y))
    {
      cursor := Some(Point(x, y));
    }

    /** Adds a line from the current point to (x, y); with no current point
        it only sets one. */
    method LineTo(x: int, y: int)
      modifies this`path, this`cursor
      ensures old(cursor).Some? ==> path == old(path) + [Line(old(cursor).value, Point(x, y))]
      ensures old(cursor).None? ==> path == old(path)
      ensures cursor == Some(Point(x, y))
    {
      if cursor.Some? {
        path := path + [Line(cursor.value, Point(x, y))];
      }
      cursor := Some(Point(x, y));
    }

    /** Strokes the current path with the current style onto the surface. */
    method Stroke()
      modifies this`painted
      ensures painted == old(painted) + Outline(path, strokeStyle, lineWidth, lineJoin, lineCap)
    {
      painted := painted + Outline(path, strokeStyle, lineWidth, lineJoin, lineCap);
    }

    /** Clears a rectangle that covers the whole canvas: the surface is blank. */
    method ClearRect(x: int, y: int, w: int, h: int)
      requires Covers(x, y, w, h, width, height)
      modifies this`painted
      ensures painted == []
    {
      painted := [];
    }
  }
}
