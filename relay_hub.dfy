/**
  The relay: every `draw` arriving on any connection is re-emitted as
  `receive` with the same five arguments to every connection, and every
  `clear` as a payload-less `clear`. The hub's own state is the set of
  connected sessions; `outbox` records, per session, the events the
  broadcasts have delivered to it.
 */
module RelayHub {
  import opened Protocol

  /** A connection's id, assigned by the transport. */
  type SessionId = string

  type Outboxes = map<SessionId, seq<ServerEvent>>

  /** The five arguments of a `draw`, in order. */
  function DrawArgs(e: ClientEvent): (int, int, int, int, Color)
    requires e.Draw?
  {
    (e.prevX, e.prevY, e.x, e.y, e.color)
  }

  /** The five arguments of a `receive`, in order. */
  function ReceiveArgs(e: ServerEvent): (int, int, int, int, Color)
    requires e.Receive?
  {
    (e.x, e.y, e.offsetX, e.offsetY, e.color)
  }

  /** The event the relay broadcasts for one inbound event. */
  function Relay(e: ClientEvent): (r: ServerEvent)
    // a `draw` comes back out as a `receive`, its arguments untouched and in
    // the same positions
    ensures e.Draw? <==> r.Receive?
    ensures e.Draw? ==> ReceiveArgs(r) == DrawArgs(e)
    // a `clear` comes back out without payload, whatever argument it had
    ensures e.Clear? ==> r == ClearAll
  {
    match e
    case Draw(x, y, ox, oy, color) => Receive(x, y, ox, oy, color)
    case Clear(_) => ClearAll
  }

  /** One broadcast: every session's outbox gains `e`. */
  function Fanout(o: Outboxes, e: ServerEvent): Outboxes
  {
    map s | s in o :: o[s] + [e]
  }

  /** The broadcasts for the inbound events `evs`, one each, in arrival order. */
  function RelayAll(evs: seq<ClientEvent>): (r: seq<ServerEvent>)
    ensures |r| == |evs|
    ensures forall i :: 0 <= i < |evs| ==> r[i] == Relay(evs[i])
  {
    if evs == [] then [] else [Relay(evs[0])] + RelayAll(evs[1..])
  }

  /** The outboxes after the hub has handled `evs` in arrival order. */
  function HandleAll(o: Outboxes, evs: seq<ClientEvent>): Outboxes
    decreases |evs|
  {
    if evs == [] then o else HandleAll(Fanout(o, Relay(evs[0])), evs[1..])
  }

  /** The number of deliveries recorded for the sessions in `keys`. */
  ghost function Deliveries(o: Outboxes, keys: set<SessionId>): nat
    requires keys <= o.Keys
    decreases keys
  {
    if keys == {} then 0
    else
      var s :| s in keys;
      |o[s]| + Deliveries(o, keys - {s})
  }

  /** A broadcast reaches every session exactly once, sender included:
      every outbox keeps what it had and gains the event at its end, and no
      session is added or dropped. */
  lemma FanoutReachesEach(o: Outboxes, e: ServerEvent, s: SessionId)
    ensures Fanout(o, e).Keys == o.Keys
    ensures s in o ==> Fanout(o, e)[s] == o[s] + [e]
  {
  }

  /** With K sessions a broadcast makes exactly K deliveries. */
  lemma {:induction false} FanoutDeliversK(o: Outboxes, e: ServerEvent, keys: set<SessionId>)
    requires keys <= o.Keys
    ensures keys <= Fanout(o, e).Keys
    ensures Deliveries(Fanout(o, e), keys) == Deliveries(o, keys) + |keys|
    decreases keys
  {
    var f := Fanout(o, e);
    if keys != {} {
      var s :| s in keys;
      DeliveriesSplit(f, keys, s);
      DeliveriesSplit(o, keys, s);
      FanoutDeliversK(o, e, keys - {s});
      assert |keys - {s}| == |keys| - 1;
    }
  }

  /** The deliveries to `keys` are those to any one of them plus those to
      the rest. */
  lemma {:induction false} DeliveriesSplit(o: Outboxes, keys: set<SessionId>, s: SessionId)
    requires keys <= o.Keys && s in keys
    ensures Deliveries(o, keys) == |o[s]| + Deliveries(o, keys - {s})
    decreases keys
  {
    var t :| t in keys && Deliveries(o, keys) == |o[t]| + Deliveries(o, keys - {t});
    if t != s {
      DeliveriesSplit(o, keys - {t}, s);
      DeliveriesSplit(o, keys - {s}, t);
      assert keys - {t} - {s} == keys - {s} - {t};
    }
  }

  /** Each session receives the broadcasts for all inbound events, one per
      event, in arrival order, with payloads relayed position by position. */
  lemma {:induction false} HandleAllInOrder(o: Outboxes, evs: seq<ClientEvent>, s: SessionId)
    requires s in o
    ensures HandleAll(o, evs).Keys == o.Keys
    ensures HandleAll(o, evs)[s] == o[s] + RelayAll(evs)
    decreases |evs|
  {
    if evs == [] {
      assert o[s] + RelayAll(evs) == o[s];
    } else {
      var e := Relay(evs[0]);
      var o1 := Fanout(o, e);
      assert HandleAll(o, evs) == HandleAll(o1, evs[1..]);
      FanoutReachesEach(o, e, s);
      HandleAllInOrder(o1, evs[1..], s);
      assert RelayAll(evs) == [e] + RelayAll(evs[1..]);
      assert o[s] + [e] + RelayAll(evs[1..]) == o[s] + ([e] + RelayAll(evs[1..]));
    }
  }

  /** The relay server: its connection set, and what it has delivered. */
  class Hub {
    var sessions: set<SessionId>
    var outbox: Outboxes

    ghost predicate Valid()
      reads this
    {
      outbox.Keys == sessions
    }

    /** A server with no connections. */
    constructor ()
      ensures Valid() && sessions == {} && outbox == map[]
    {
      sessions := {};
      outbox := map[];
    }

    /** A new connection joins the broadcast set. */
    method Connect(id: SessionId)
      requires Valid() && id !in sessions
      modifies this
      ensures Valid()
      ensures sessions == old(sessions) + {id}
      ensures outbox == old(outbox)[id := []]
    {
      sessions := sessions + {id};
      outbox := outbox[id := []];
    }

    /** A connection leaves; nothing more is delivered to it. */
    method Disconnect(id: SessionId)
      requires Valid()
      modifies this
      ensures Valid()
      ensures sessions == old(sessions) - {id}
      ensures outbox == old(outbox) - {id}
    {
      sessions := sessions - {id};
      outbox := outbox - {id};
    }

    /** `io.emit`: send `e` to every connected session. */
    method Broadcast(e: ServerEvent)
      requires Valid()
      modifies this`outbox
      ensures Valid() && sessions == old(sessions)
      ensures outbox == Fanout(old(outbox), e)
    {
      outbox := map s | s in outbox :: outbox[s] + [e];
    }

    /** The `draw` handler of connection `sender`. */
    method OnDraw(sender: SessionId, x: int, y: int, ox: int, oy: int, color: Color)
      requires Valid() && sender in sessions
      modifies this`outbox
      ensures Valid() && sessions == old(sessions)
      ensures outbox == Fanout(old(outbox), Relay(Draw(x, y, ox, oy, color)))
    {
      Broadcast(Receive(x, y, ox, oy, color));
    }

    /** The `clear` handler of connection `sender`; the argument is ignored. */
    method OnClear(sender: SessionId, arg: string)
      requires Valid() && sender in sessions
      modifies this`outbox
      ensures Valid() && sessions == old(sessions)
      ensures outbox == Fanout(old(outbox), Relay(Clear(arg)))
    {
      Broadcast(ClearAll);
    }
  }
}
