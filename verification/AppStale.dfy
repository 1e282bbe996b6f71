/** A run of the whole system after which the server's queue holds a message that is not well formed. */
module AppStale {
  import opened Base
  import opened Framing
  import opened SerialMessages
  import opened ServerModel
  import opened AppModel
  import opened AppTheorems
  import C = ConnectionModel
  import CT = ConnectionTheorems
  import opened AppProgress
  import CP = ConnectionProgress

  /** A client has connected, and its user has entered 1 and then 2. */
  lemma Pressed(time: seq<Byte>) returns (es: seq<Step>, s: App)
    requires |time| == TIME_SIZE
    ensures Run(es) == Some(s) && |s.clients| == |s.server.ends| == 1 && s.server.handled == 0
    ensures s.clients[0] == C.Sending(C.Sending(C.NEW_ENDPOINT, Ping(time)), ASK)
    ensures s.server.ends[0].open && s.server.ends[0].reader.op.Some?
  {
    RunMore([], NOBODY, Join(true));
    var s1 := Next(NOBODY, Join(true));
    es := [] + [Join(true)];
    RunMore(es, s1, PressPing(0, time));
    var s2 := Next(s1, PressPing(0, time));
    es := es + [PressPing(0, time)];
    RunMore(es, s2, PressAll(0));
    s := Next(s2, PressAll(0));
    es := es + [PressAll(0)];
  }

  lemma {:induction false} FromIsIn(items: seq<Owned>, h: Handle, m: Message)
    requires m in From(items, h)
    ensures Owned(h, m) in items
  {
    var last := items[|items| - 1];
    if last != Owned(h, m) {
      FromIsIn(items[..|items| - 1], h, m);
      assert items == items[..|items| - 1] + [last];
    }
  }

  /** Both messages have gone out. */
  lemma BothSent(time: seq<Byte>) returns (es: seq<Step>, s: App)
    requires |time| == TIME_SIZE
    ensures Run(es) == Some(s) && |s.clients| == |s.server.ends| == 1 && s.server.handled == 0
    ensures CT.Idle(s.clients[0].writer) && s.clients[0].writer.accepted == [Ping(time), ASK]
    ensures s.server.ends[0].open && s.server.ends[0].reader.op.Some?
  {
    var p;
    es, p := Pressed(time);
    RunKept(es, p);
    assert LineOk(p.clients[0], p.server.ends[0]);
    var ws, w := CP.WriterCanFinish(p.clients[0], p.server.ends[0].writer.emitted);
    es := FollowClient(es, p, 0, ws, w);
    s := WithClient(p, 0, w);
    assert w.writer.accepted == [] + [Ping(time), ASK];
  }

  /** The client's bytes reach the server, and both messages are delivered. */
  lemma BothArrive(time: seq<Byte>) returns (es: seq<Step>, s: App)
    requires |time| == TIME_SIZE
    ensures Run(es) == Some(s) && |s.server.ends| > 0 && s.server.handled == 0
    ensures s.server.ends[0].reader.delivered == CT.Delivery([Ping(time), ASK])
  {
    var p;
    es, p := BothSent(time);
    var w := p.clients[0].writer;
    RunKept(es, p);
    assert LineOk(p.clients[0], p.server.ends[0]);
    var rs, r := CP.ReaderCanDrain(p.server.ends[0], w.emitted);
    es, s := FollowServer(es, p, 0, rs, r);
    RunKept(es, s);
    AllDelivered(time, w, r, s);
  }

  lemma AllDelivered(time: seq<Byte>, w: C.Writer, e: C.Endpoint, s: App)
    requires |time| == TIME_SIZE && Inv(s) && |s.server.ends| > 0 && s.server.ends[0] == e
    requires CT.Idle(w) && CT.WriterOk(w) && w.accepted == [Ping(time), ASK]
    requires e.reader.consumed == w.emitted && e.reader.op.Some? && |e.reader.op.value.got| < e.reader.op.value.want
    ensures e.reader.delivered == CT.Delivery([Ping(time), ASK])
  {
    assert LineOk(s.clients[0], e);
    WhatClientsSend(time);
    CT.StreamArrives(w, e.reader);
  }

  /** For every time: a run of one client and the server that ends with the MessageAll waiting in the server's queue,
      with the time of the ping as its body and a size that says it has none. */
  lemma StaleBodyQueued(time: seq<Byte>) returns (es: seq<Step>, s: App)
    requires |time| == TIME_SIZE
    ensures Run(es) == Some(s)
    ensures var m := Message(MESSAGE_ALL, 0, time); Owned(0, m) in s.server.incoming && !WellFormed(m)
  {
    es, s := BothArrive(time);
    RunKept(es, s);
    StaleBody(time);
    assert BooksOk(s.server, 0);
    var m := Message(MESSAGE_ALL, 0, time);
    assert CT.Delivery([Ping(time), ASK])[1] == m;
    FromIsIn(s.server.queued, 0, m);
    assert s.server.queued[0..] == s.server.queued;
  }
}
