/**
  Properties of the client's pointer state machine over whole event
  sequences: strokes, fresh starts after mouse-up, colour changes, clears
  and the brush style of everything on the canvas.
 */
module LiveCanvasProperties {
  import opened Protocol
  import opened LiveCanvas

  /** One drag event per point, in order. */
  function Moves(ps: seq<Point>): (r: seq<UiEvent>)
    ensures |r| == |ps|
  {
    if ps == [] then [] else [MouseMove(ps[0])] + Moves(ps[1..])
  }

  /** The `draw` events that join consecutive points of `ps` in colour `c`. */
  function Chain(ps: seq<Point>, c: Color): (r: seq<ClientEvent>)
    ensures |r| == if ps == [] then 0 else |ps| - 1
    ensures forall i :: 0 <= i < |r| ==> r[i] == Draw(ps[i].x, ps[i].y, ps[i + 1].x, ps[i + 1].y, c)
  {
    if |ps| < 2 then []
    else [Draw(ps[0].x, ps[0].y, ps[1].x, ps[1].y, c)] + Chain(ps[1..], c)
  }

  /** What a client paints for a sequence of emitted events. */
  function Painting(evs: seq<ClientEvent>): seq<Segment>
  {
    if evs == [] then []
    else if evs[0].Draw? then [SegmentOf(evs[0])] + Painting(evs[1..])
    else Painting(evs[1..])
  }

  /** The recorded start point, if any, as a prefix of the stroke's points. */
  function Seed(prev: Option<Point>): seq<Point>
  {
    if prev.Some? then [prev.value] else []
  }

  /** Every segment on the surface has the brush style `draw` sets. */
  predicate Brushed(surface: seq<Segment>)
  {
    forall i :: 0 <= i < |surface| ==>
      surface[i].width == BrushWidth && surface[i].join == RoundJoin && surface[i].cap == RoundCap
  }

  /** Running two event sequences one after the other is running their
      concatenation. */
  lemma {:induction false} RunAppend(st: ClientState, a: seq<UiEvent>, b: seq<UiEvent>)
    ensures Run(st, a + b) == Run(Run(st, a), b)
    decreases |a|
  {
    if a != [] {
      assert (a + b)[0] == a[0];
      assert (a + b)[1..] == a[1..] + b;
      RunAppend(Step(st, a[0]), a[1..], b);
    } else {
      assert a + b == b;
    }
  }

  /** Drags while the mouse is down and the socket is open emit one `draw`
      per pair of consecutive points, counting a recorded start point, and
      paint the same segments locally; the last point is recorded. */
  lemma {:induction false} DragsWhileDown(st: ClientState, ps: seq<Point>)
    requires st.hasSocket && st.isMouseDown
    ensures var r := Run(st, Moves(ps));
      var emitted := Chain(Seed(st.prevCoord) + ps, st.selectedColor);
      && r.sent == st.sent + emitted
      && r.surface == st.surface + Painting(emitted)
      && r.prevCoord == (if ps == [] then st.prevCoord else Some(ps[|ps| - 1]))
      && r.hasSocket && r.isMouseDown && r.selectedColor == st.selectedColor
    decreases |ps|
  {
    if ps == [] {
      assert Seed(st.prevCoord) + ps == Seed(st.prevCoord);
    } else {
      var c := st.selectedColor;
      var st1 := Drag(st, ps[0]);
      var rest := Moves(ps[1..]);
      var first := FirstDraw(st.prevCoord, ps[0], c);
      var later := Chain(ps, c);
      assert Run(st, Moves(ps)) == Run(st1, rest) by {
        assert Moves(ps) == [MouseMove(ps[0])] + rest;
        RunCons(st, MouseMove(ps[0]), rest);
      }
      assert st1.sent == st.sent + first && st1.surface == st.surface + Painting(first)
        && st1.prevCoord == Some(ps[0]) && st1.hasSocket && st1.isMouseDown && st1.selectedColor == c;
      assert Chain(Seed(st.prevCoord) + ps, c) == first + later
        && Seed(st1.prevCoord) + ps[1..] == ps by {
        ChainAfterSeed(st.prevCoord, ps, c);
      }
      assert Painting(first + later) == Painting(first) + Painting(later) by {
        PaintingAppend(first, later);
      }
      DragsWhileDown(st1, ps[1..]);
      var r := Run(st1, rest);
      assert r.sent == st1.sent + later && r.surface == st1.surface + Painting(later);
      Associative(st.sent, first, later);
      Associative(st.surface, Painting(first), Painting(later));
      assert r.prevCoord == Some(ps[|ps| - 1]) by {
        if |ps| > 1 {
          assert ps[1..][|ps[1..]| - 1] == ps[|ps| - 1];
        }
      }
      var emitted := Chain(Seed(st.prevCoord) + ps, c);
      assert Run(st, Moves(ps)) == r;
      assert r.sent == st.sent + emitted;
      assert r.surface == st.surface + Painting(emitted);
    }
  }

  lemma Associative<T>(a: seq<T>, b: seq<T>, c: seq<T>)
    ensures a + b + c == a + (b + c)
  {
  }

  lemma RunCons(st: ClientState, ev: UiEvent, evs: seq<UiEvent>)
    ensures Run(st, [ev] + evs) == Run(Step(st, ev), evs)
  {
    assert ([ev] + evs)[0] == ev && ([ev] + evs)[1..] == evs;
  }

  /** The `draw` that a drag to `p` emits given the recorded point `prev`. */
  function FirstDraw(prev: Option<Point>, p: Point, c: Color): seq<ClientEvent>
  {
    if prev.Some? then [Draw(prev.value.x, prev.value.y, p.x, p.y, c)] else []
  }

  lemma {:induction false} ChainAfterSeed(prev: Option<Point>, ps: seq<Point>, c: Color)
    requires ps != []
    ensures Chain(Seed(prev) + ps, c) == FirstDraw(prev, ps[0], c) + Chain(ps, c)
    ensures Seed(Some(ps[0])) + ps[1..] == ps
  {
    assert [ps[0]] + ps[1..] == ps;
    if prev.Some? {
      var qs := [prev.value] + ps;
      assert Seed(prev) + ps == qs;
      assert qs[0] == prev.value && qs[1] == ps[0] && qs[1..] == ps;
    } else {
      assert Seed(prev) + ps == ps;
    }
  }

  lemma {:induction false} PaintingAppend(a: seq<ClientEvent>, b: seq<ClientEvent>)
    ensures Painting(a + b) == Painting(a) + Painting(b)
    decreases |a|
  {
    if a == [] {
      assert a + b == b;
    } else {
      assert (a + b)[0] == a[0] && (a + b)[1..] == a[1..] + b;
      PaintingAppend(a[1..], b);
    }
  }

  /** A whole stroke: mouse-down, drags through the points `ps`, mouse-up.
      With no recorded start point it emits exactly |ps| - 1 segments (none
      for no drag), joining consecutive points in the selected colour; the
      canvas gains exactly those segments and the stroke leaves nothing
      recorded behind. */
  lemma {:induction false} StrokeSegments(st: ClientState, ps: seq<Point>)
    requires st.hasSocket && st.prevCoord == None
    ensures var r := Run(st, [MouseDown] + Moves(ps) + [MouseUp]);
      && r.sent == st.sent + Chain(ps, st.selectedColor)
      && |r.sent| == |st.sent| + (if ps == [] then 0 else |ps| - 1)
      && r.surface == st.surface + Painting(Chain(ps, st.selectedColor))
      && r.prevCoord == None && !r.isMouseDown
  {
    var down := Step(st, MouseDown);
    RunAppend(st, [MouseDown], Moves(ps));
    RunAppend(st, [MouseDown] + Moves(ps), [MouseUp]);
    assert Run(st, [MouseDown]) == down;
    DragsWhileDown(down, ps);
    assert Seed(down.prevCoord) + ps == ps;
  }

  /** After mouse-up, mouse-down and one drag nothing is emitted or drawn:
      the new stroke never joins the previous stroke's last point. */
  lemma {:induction false} FreshStrokeAfterUp(st: ClientState, p: Point)
    ensures var r := Run(st, [MouseUp, MouseDown, MouseMove(p)]);
      && r.sent == st.sent && r.surface == st.surface
      && r.prevCoord == (if st.hasSocket then Some(p) else None)
  {
    var s1 := Step(st, MouseUp);
    var s2 := Step(s1, MouseDown);
    var s3 := Step(s2, MouseMove(p));
    assert [MouseUp, MouseDown, MouseMove(p)][1..] == [MouseDown, MouseMove(p)];
    assert [MouseDown, MouseMove(p)][1..] == [MouseMove(p)];
    assert Run(s2, [MouseMove(p)]) == Run(s3, []);
  }

  /** Mouse-down does not forget the recorded point: a drag right after it
      joins whatever point was recorded before the button went down. */
  lemma {:induction false} DownKeepsRecordedPoint(st: ClientState, q: Point)
    requires st.hasSocket && st.prevCoord.Some?
    ensures var p := st.prevCoord.value;
      Run(st, [MouseDown, MouseMove(q)]).sent == st.sent + [Draw(p.x, p.y, q.x, q.y, st.selectedColor)]
  {
    var s1 := Step(st, MouseDown);
    RunCons(st, MouseDown, [MouseMove(q)]);
    RunCons(s1, MouseMove(q), []);
    assert [MouseDown] + [MouseMove(q)] == [MouseDown, MouseMove(q)];
  }

  /** A mouse-up released off the canvas is never seen, so the button still
      counts as down and the point stays recorded: the move back over the
      canvas draws from the old point with the button up, and the next
      stroke's first drag joins the point that move recorded. */
  lemma {:induction false} UpOffCanvasKeepsDrawing(st: ClientState, e: Point, q: Point)
    requires st.hasSocket && st.isMouseDown && st.prevCoord.Some?
    ensures var o, c := st.prevCoord.value, st.selectedColor;
      Run(st, [MouseMove(e), MouseDown, MouseMove(q)]).sent
        == st.sent + [Draw(o.x, o.y, e.x, e.y, c), Draw(e.x, e.y, q.x, q.y, c)]
  {
    var s1 := Step(st, MouseMove(e));
    var s2 := Step(s1, MouseDown);
    RunCons(s2, MouseMove(q), []);
    RunCons(s1, MouseDown, [MouseMove(q)]);
    RunCons(st, MouseMove(e), [MouseDown, MouseMove(q)]);
  }

  /** After the colour is changed to `c`, every `draw` emitted by later
      events, as long as the colour is not changed again, carries `c`, and
      everything emitted earlier stays as it was. */
  lemma {:induction false} ColorAppliesToLaterSegments(st: ClientState, c: Color, evs: seq<UiEvent>)
    requires forall i :: 0 <= i < |evs| ==> !evs[i].ColorChange?
    ensures var r := Run(st, [ColorChange(c)] + evs);
      && st.sent <= r.sent
      && forall i :: |st.sent| <= i < |r.sent| && r.sent[i].Draw? ==> r.sent[i].color == c
  {
    var s1 := Step(st, ColorChange(c));
    assert ([ColorChange(c)] + evs)[1..] == evs;
    DrawsKeepColor(s1, evs);
  }

  /** Helper for the lemma above: with the colour fixed, each new `draw`
      carries it. */
  lemma {:induction false} DrawsKeepColor(st: ClientState, evs: seq<UiEvent>)
    requires forall i :: 0 <= i < |evs| ==> !evs[i].ColorChange?
    ensures var r := Run(st, evs);
      && st.sent <= r.sent && r.selectedColor == st.selectedColor
      && forall i :: |st.sent| <= i < |r.sent| && r.sent[i].Draw? ==> r.sent[i].color == st.selectedColor
    decreases |evs|
  {
    if evs != [] {
      var s1 := Step(st, evs[0]);
      assert !evs[0].ColorChange?;
      DrawsKeepColor(s1, evs[1..]);
    }
  }

  /** A colour change in the middle of a drag does not end the stroke: the
      next drag still joins the last point, now in the new colour, and the
      segment drawn before the change keeps the old colour. */
  lemma {:induction false} ColorChangeMidStroke(st: ClientState, p: Point, c: Color, q: Point)
    requires st.hasSocket && st.isMouseDown
    ensures var r := Run(st, [MouseMove(p), ColorChange(c), MouseMove(q)]);
      && r.sent == st.sent + FirstDraw(st.prevCoord, p, st.selectedColor) + [Draw(p.x, p.y, q.x, q.y, c)]
      && r.prevCoord == Some(q) && r.isMouseDown
  {
    var s1 := Step(st, MouseMove(p));
    var s2 := Step(s1, ColorChange(c));
    RunCons(s2, MouseMove(q), []);
    RunCons(s1, ColorChange(c), [MouseMove(q)]);
    RunCons(st, MouseMove(p), [ColorChange(c), MouseMove(q)]);
    assert s1.sent == st.sent + FirstDraw(st.prevCoord, p, st.selectedColor);
  }

  /** Clear is absorbing: whatever was drawn before, a click on Clear or an
      incoming `clear` as the last event leaves a blank canvas. */
  lemma {:induction false} ClearIsAbsorbing(st: ClientState, evs: seq<UiEvent>)
    ensures Run(st, evs + [ClearClick]).surface == []
    ensures Run(st, evs + [Incoming(ClearAll)]).surface == []
  {
    RunAppend(st, evs, [ClearClick]);
    RunAppend(st, evs, [Incoming(ClearAll)]);
  }

  /** Everything on the canvas is drawn with width 5, round join and round
      cap, whatever events arrive. */
  lemma {:induction false} SurfaceIsBrushed(st: ClientState, evs: seq<UiEvent>)
    requires Brushed(st.surface)
    ensures Brushed(Run(st, evs).surface)
    decreases |evs|
  {
    if evs != [] {
      var s1 := Step(st, evs[0]);
      assert Brushed(s1.surface) by {
        if evs[0].MouseMove? && DrawsOnDrag(st) {
          assert s1.surface == st.surface + [SegmentOf(s1.sent[|s1.sent| - 1])];
        }
      }
      SurfaceIsBrushed(s1, evs[1..]);
    }
  }
}
