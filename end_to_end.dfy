/**
  Client and relay together: what one client emits, every connected client
  receives and paints, and what a clear does to every canvas.
 */
module EndToEnd {
  import opened Protocol
  import opened LiveCanvas
  import opened LiveCanvasProperties
  import opened RelayHub

  /** The client events that the deliveries `es` cause, in order. */
  function Inbound(es: seq<ServerEvent>): (r: seq<UiEvent>)
    ensures |r| == |es|
  {
    if es == [] then [] else [Incoming(es[0])] + Inbound(es[1..])
  }

  /** A segment drawn by a drag reaches every connected session exactly
      once, at the end of its outbox, and each receiving client paints the
      very segment the sender painted locally: same endpoints, same colour,
      same brush. */
  lemma DrawReachesEveryone(st: ClientState, p: Point, o: Outboxes, s: SessionId, peer: ClientState)
    requires DrawsOnDrag(st) && s in o
    ensures var after := Drag(st, p);
      var e := after.sent[|after.sent| - 1];
      var d := Fanout(o, Relay(e));
      && d.Keys == o.Keys
      && d[s] == o[s] + [Relay(e)]
      && Apply(peer, Relay(e)).surface == peer.surface + [after.surface[|after.surface| - 1]]
  {
    var after := Drag(st, p);
    var e := after.sent[|after.sent| - 1];
    FanoutReachesEach(o, Relay(e), s);
    assert ReceiveArgs(Relay(e)) == DrawArgs(e);
  }

  /** The sender is among the receivers: its own echo repaints the segment
      it has just drawn, which adds no segment that was not already there. */
  lemma EchoIsOverdraw(st: ClientState, p: Point)
    requires DrawsOnDrag(st)
    ensures var after := Drag(st, p);
      var echo := Apply(after, Relay(after.sent[|after.sent| - 1]));
      && echo.surface == after.surface + [after.surface[|after.surface| - 1]]
      && (set g | g in echo.surface) == (set g | g in after.surface)
  {
    var after := Drag(st, p);
    var e := after.sent[|after.sent| - 1];
    assert ReceiveArgs(Relay(e)) == DrawArgs(e);
    var echo := Apply(after, Relay(e));
    assert forall g :: g in echo.surface <==> g in after.surface;
  }

  /** A click on Clear wipes the sender's canvas and, once the relayed
      `clear` is delivered, every connected client's canvas, whatever each
      had drawn before. */
  lemma {:induction false} ClearReachesEveryone(st: ClientState, o: Outboxes, s: SessionId, peer: ClientState)
    requires st.hasSocket && s in o
    ensures var after := ClearCanvas(st);
      var e := after.sent[|after.sent| - 1];
      var d := Fanout(o, Relay(e));
      && after.surface == []
      && e == Clear("")
      && d[s] == o[s] + [ClearAll]
      && Run(peer, Inbound(d[s])).surface == []
  {
    var after := ClearCanvas(st);
    var e := after.sent[|after.sent| - 1];
    var d := Fanout(o, Relay(e));
    FanoutReachesEach(o, Relay(e), s);
    InboundAppend(o[s], [ClearAll]);
    assert Inbound([ClearAll]) == [Incoming(ClearAll)];
    ClearIsAbsorbing(peer, Inbound(o[s]));
  }

  lemma {:induction false} InboundAppend(a: seq<ServerEvent>, b: seq<ServerEvent>)
    ensures Inbound(a + b) == Inbound(a) + Inbound(b)
    decreases |a|
  {
    if a == [] {
      assert a + b == b;
    } else {
      assert (a + b)[0] == a[0] && (a + b)[1..] == a[1..] + b;
      InboundAppend(a[1..], b);
    }
  }

  /** Three sessions A, B and C; A draws from (10, 10) to (20, 20) in red and
      then clears. Each of the three receives the same `receive` and then a
      payload-less `clear`. */
  lemma ThreeSessionScenario()
    ensures var d := HandleAll(map["A" := [], "B" := [], "C" := []],
                               [Draw(10, 10, 20, 20, "#ff0000"), Clear("")]);
      && d.Keys == {"A", "B", "C"}
      && d["A"] == d["B"] == d["C"] == [Receive(10, 10, 20, 20, "#ff0000"), ClearAll]
  {
    var o: Outboxes := map["A" := [], "B" := [], "C" := []];
    var evs := [Draw(10, 10, 20, 20, "#ff0000"), Clear("")];
    assert RelayAll(evs) == [Receive(10, 10, 20, 20, "#ff0000"), ClearAll];
    HandleAllInOrder(o, evs, "A");
    HandleAllInOrder(o, evs, "B");
    HandleAllInOrder(o, evs, "C");
  }

  /** One connected client, colour red: down, drag to (5, 5), drag to
      (15, 5), up, down, drag to (60, 50). Exactly one segment is emitted,
      (5, 5) to (15, 5); the first drag of the second stroke only records
      its start. */
  lemma ClientScenario()
    ensures var st := Initial().(hasSocket := true);
      var r := Run(st, [MouseDown, MouseMove(Point(5, 5)), MouseMove(Point(15, 5)), MouseUp,
                        MouseDown, MouseMove(Point(60, 50))]);
      && r.sent == [Draw(5, 5, 15, 5, "red")]
      && r.surface == [BrushSegment(5, 5, 15, 5, "red")]
      && r.prevCoord == Some(Point(60, 50))
  {
    var st := Initial().(hasSocket := true);
    var s1 := Step(st, MouseDown);
    var s2 := Step(s1, MouseMove(Point(5, 5)));
    var s3 := Step(s2, MouseMove(Point(15, 5)));
    var s4 := Step(s3, MouseUp);
    var s5 := Step(s4, MouseDown);
    var s6 := Step(s5, MouseMove(Point(60, 50)));
    assert s2.sent == [] && s2.prevCoord == Some(Point(5, 5));
    assert s3.sent == [Draw(5, 5, 15, 5, "red")];
    assert s6.sent == s3.sent && s6.surface == s3.surface;
    RunCons(s5, MouseMove(Point(60, 50)), []);
    RunCons(s4, MouseDown, [MouseMove(Point(60, 50))]);
    RunCons(s3, MouseUp, [MouseDown, MouseMove(Point(60, 50))]);
    RunCons(s2, MouseMove(Point(15, 5)), [MouseUp, MouseDown, MouseMove(Point(60, 50))]);
    RunCons(s1, MouseMove(Point(5, 5)), [MouseMove(Point(15, 5)), MouseUp, MouseDown, MouseMove(Point(60, 50))]);
    RunCons(st, MouseDown, [MouseMove(Point(5, 5)), MouseMove(Point(15, 5)), MouseUp, MouseDown, MouseMove(Point(60, 50))]);
  }
}
