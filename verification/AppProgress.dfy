/** What can still happen in the whole system: whatever a client asks for on an open connection can come back. */
module AppProgress {
  import opened Base
  import opened Framing
  import opened SerialMessages
  import opened ServerModel
  import opened AppModel
  import opened AppTheorems
  import opened AppServers
  import C = ConnectionModel
  import CT = ConnectionTheorems
  import CP = ConnectionProgress
  import ST = ServerTheorems

  lemma RunMore(es: seq<Step>, s: App, e: Step)
    requires Run(es) == Some(s) && CanStep(s, e)
    ensures Run(es + [e]) == Some(Next(s, e))
  {
    assert (es + [e])[..|es|] == es;
  }

  /** What a client's end does while everything else waits is a run of the system. */
  lemma {:induction false} FollowClient(es: seq<Step>, s: App, c: Handle, moves: seq<C.Move>, e': C.Endpoint)
    returns (fs: seq<Step>)
    requires Run(es) == Some(s) && c < |s.clients| && c < |s.server.ends| && CP.AllWork(moves)
    requires CP.Follow(s.clients[c], s.server.ends[c].writer.emitted, moves) == Some(e')
    ensures es <= fs && Run(fs) == Some(WithClient(s, c, e'))
    decreases |moves|
  {
    if moves == [] {
      fs := es;
      assert s.clients[c := s.clients[c]] == s.clients;
    } else {
      var e := AtClient(c, moves[0]);
      var m := C.Moved(s.clients[c], s.server.ends[c].writer.emitted, moves[0]);
      RunMore(es, s, e);
      fs := FollowClient(es + [e], WithClient(s, c, m), c, moves[1..], e');
      assert s.clients[c := m][c := e'] == s.clients[c := e'];
    }
  }

  /** ... and what the server's end does. What it delivers is put behind what the queue holds. */
  lemma {:induction false} FollowServer(es: seq<Step>, s: App, c: Handle, moves: seq<C.Move>, e': C.Endpoint)
    returns (fs: seq<Step>, s': App)
    requires Run(es) == Some(s) && c < |s.clients| && c < |s.server.ends| && CP.AllWork(moves)
    requires CP.Follow(s.server.ends[c], s.clients[c].writer.emitted, moves) == Some(e')
    ensures es <= fs && Run(fs) == Some(s') && ServerMoved(s, c, e', s')
    decreases |moves|
  {
    if moves == [] {
      fs, s' := es, s;
      assert s.server.ends[c := e'] == s.server.ends;
      assert e'.reader.delivered[|e'.reader.delivered|..] == [];
    } else {
      var e := AtServer(c, moves[0]);
      var m := Next(s, e);
      RunMore(es, s, e);
      OneMove(s, c, moves[0], m);
      fs, s' := FollowServer(es + [e], m, c, moves[1..], e');
      TwoMoves(s, c, m.server.ends[c], m, e', s');
    }
  }

  /** The server's end c has become e', and what it has delivered meanwhile is queued. */
  ghost predicate ServerMoved(s: App, c: Handle, e': C.Endpoint, s': App)
    requires c < |s.server.ends|
  {
    && s'.server.ends == s.server.ends[c := e'] && s'.clients == s.clients
    && s'.server.handled == s.server.handled && s'.server.casts == s.server.casts && s'.server.deq == s.server.deq
    && s.server.ends[c].reader.delivered <= e'.reader.delivered
    && s'.server.incoming ==
       s.server.incoming + OwnedBy(c, e'.reader.delivered[|s.server.ends[c].reader.delivered|..])
  }

  lemma OneMove(s: App, c: Handle, move: C.Move, m: App)
    requires CanStep(s, AtServer(c, move)) && m == Next(s, AtServer(c, move))
    ensures ServerMoved(s, c, C.Moved(s.server.ends[c], s.clients[c].writer.emitted, move), m)
  {
    IoMoveKeeps(s.server.ends[c], s.clients[c].writer.emitted, move);
  }

  lemma TwoMoves(s: App, c: Handle, e: C.Endpoint, m: App, e': C.Endpoint, s': App)
    requires c < |s.server.ends| && ServerMoved(s, c, e, m) && ServerMoved(m, c, e', s')
    ensures ServerMoved(s, c, e', s')
  {
    OwnedInTwo(c, s.server.ends[c].reader.delivered, e.reader.delivered, e'.reader.delivered);
    assert s.server.ends[c := e][c := e'] == s.server.ends[c := e'];
  }

  lemma OwnedInTwo(c: Handle, x: seq<Message>, y: seq<Message>, z: seq<Message>)
    requires x <= y <= z
    ensures OwnedBy(c, y[|x|..]) + OwnedBy(c, z[|y|..]) == OwnedBy(c, z[|x|..])
  {
    assert z[|x|..] == y[|x|..] + z[|y|..];
  }

  /** Both ends of client r's connection are open. */
  predicate Connected(s: App, r: Handle) {
    r < |s.clients| && r < |s.server.ends| && s.clients[r].open && s.server.ends[r].open
  }

  /** Everything that client r has passed to Send can be delivered at the server. */
  lemma Upstream(es: seq<Step>, s: App, r: Handle) returns (fs: seq<Step>, z: App)
    requires Run(es) == Some(s) && Connected(s, r)
    ensures es <= fs && Run(fs) == Some(z) && Inv(z) && |z.clients| == |s.clients|
    ensures forall q | Connected(s, q) :: Connected(z, q)
    ensures z.server.casts == s.server.casts && z.server.handled == s.server.handled
    ensures z.clients[r].sent == s.clients[r].sent
    ensures s.server.ends[r].reader.delivered <= z.server.ends[r].reader.delivered
    ensures z.server.ends[r].reader.delivered == CT.Delivery(s.clients[r].writer.accepted + s.clients[r].posted)
    ensures z.server.incoming ==
            s.server.incoming + OwnedBy(r, z.server.ends[r].reader.delivered[|s.server.ends[r].reader.delivered|..])
  {
    RunKept(es, s);
    FailureCloses(es, s, r);
    assert LineOk(s.clients[r], s.server.ends[r]);
    var ws, w := CP.WriterCanFinish(s.clients[r], s.server.ends[r].writer.emitted);
    var gs := FollowClient(es, s, r, ws, w);
    var m := WithClient(s, r, w);
    RunKept(gs, m);
    assert LineOk(w, s.server.ends[r]);
    var rs, e := CP.ReaderCanDrain(m.server.ends[r], w.writer.emitted);
    fs, z := FollowServer(gs, m, r, rs, e);
    RunKept(fs, z);
    assert LineOk(w, e);
    AllWellFormed(w, e);
    CT.AcceptedWereSent(w);
    CT.StreamArrives(w.writer, e.reader);
  }

  /** A client whose connect handler has not run yet can run it. */
  lemma Starts(es: seq<Step>, s: App, r: Handle) returns (fs: seq<Step>, z: App)
    requires Run(es) == Some(s) && Connected(s, r)
    ensures es <= fs && Run(fs) == Some(z) && z.server == s.server && |z.clients| == |s.clients|
    ensures z.clients[r].open && z.clients[r].reader.op.Some?
    ensures z.clients[r].sent == s.clients[r].sent
  {
    FailureCloses(es, s, r);
    fs, z := es, s;
    if !s.clients[r].reader.started {
      var e := AtClient(r, C.Connected);
      RunMore(es, s, e);
      fs, z := es + [e], Next(s, e);
    }
  }

  /** Everything that the server has passed to Send for client r can be delivered to it. */
  lemma Downstream(es: seq<Step>, s: App, r: Handle) returns (fs: seq<Step>, z: App)
    requires Run(es) == Some(s) && Connected(s, r)
    ensures es <= fs && Run(fs) == Some(z) && |z.clients| == |s.clients|
    ensures z.clients[r].sent == s.clients[r].sent
    ensures forall m | m in s.server.ends[r].sent && m.body != [] :: m in z.clients[r].reader.delivered
    ensures |z.clients[r].reader.delivered| == |s.server.ends[r].sent|
  {
    var gs, m := Starts(es, s, r);
    RunKept(gs, m);
    assert LineOk(m.clients[r], m.server.ends[r]);
    FailureCloses(gs, m, r);
    var ws, w := CP.WriterCanFinish(m.server.ends[r], m.clients[r].writer.emitted);
    var hs, n := FollowServer(gs, m, r, ws, w);
    RunKept(hs, n);
    assert LineOk(n.clients[r], w);
    var rs, c := CP.ReaderCanDrain(n.clients[r], w.writer.emitted);
    fs := FollowClient(hs, n, r, rs, c);
    z := WithClient(n, r, c);
    RunKept(fs, z);
    assert LineOk(c, w);
    AllWellFormed(c, w);
    CT.AcceptedWereSent(w);
    CT.StreamArrives(w.writer, c.reader);
    AllDelivered(w, c.reader);
  }

  lemma AllDelivered(w: C.Endpoint, r: C.Reader)
    requires CT.SentOk(w) && w.posted == [] && r.delivered == CT.Delivery(w.writer.accepted)
    ensures |r.delivered| == |w.sent|
    ensures forall m | m in w.sent && m.body != [] :: m in r.delivered
  {
    var frames := w.writer.accepted;
    assert multiset(w.posted) == multiset{};
    assert multiset(frames) == multiset(w.sent) && |multiset(frames)| == |multiset(w.sent)|;
    forall m | m in w.sent && m.body != [] ensures m in r.delivered {
      assert m in multiset(w.sent);
      assert m in multiset(frames);
      var i :| 0 <= i < |frames| && frames[i] == m;
      CT.DeliveryAt(frames, i);
    }
  }

  // ----- The server handles what is queued

  /** The server can handle everything that is queued. Each MessageAll of client r in the queue is then broadcast to
      client q, if both are different and q is connected. */
  lemma {:induction false} HandleAll(es: seq<Step>, s: App, r: Handle, q: Handle) returns (fs: seq<Step>, z: App)
    requires Run(es) == Some(s)
    ensures es <= fs && Run(fs) == Some(z) && z.server.incoming == [] && z.clients == s.clients
    ensures forall p | Connected(s, p) :: Connected(z, p)
    ensures |z.server.ends| == |s.server.ends|
    ensures forall h: Handle | h < |s.server.ends| :: z.server.ends[h].reader == s.server.ends[h].reader
    ensures Asked(s.server.incoming, r) && q != r && Connected(s, q) ==> CastTo(z.server.casts, r, q)
    ensures CastTo(s.server.casts, r, q) ==> CastTo(z.server.casts, r, q)
    decreases |s.server.incoming|
  {
    if s.server.incoming == [] {
      fs, z := es, s;
    } else {
      RunKept(es, s);
      FrontItem(s.server);
      var m := Next(s, Handle);
      RunMore(es, s, Handle);
      HandleOne(es, s, m, r, q);
      fs, z := HandleAll(es + [Handle], m, r, q);
    }
  }

  /** Some message in the queue is a MessageAll of client r. */
  predicate Asked(items: seq<Owned>, r: Handle) {
    exists i :: 0 <= i < |items| && items[i].remote == r && items[i].msg.id == MESSAGE_ALL
  }

  /** Some broadcast for client r went to client q. */
  predicate CastTo(casts: seq<Cast>, r: Handle, q: Handle) {
    exists k :: 0 <= k < |casts| && casts[k].sender == r && q in casts[k].recipients
  }

  lemma HandleOne(es: seq<Step>, s: App, m: App, r: Handle, q: Handle)
    requires Run(es) == Some(s) && CanStep(s, Handle) && m == Next(s, Handle)
    ensures m.clients == s.clients && m.server.incoming == s.server.incoming[1..]
    ensures |m.server.ends| == |s.server.ends|
    ensures forall h: Handle | h < |s.server.ends| ::
              m.server.ends[h].reader == s.server.ends[h].reader && m.server.ends[h].open == s.server.ends[h].open
    ensures CastTo(s.server.casts, r, q) ==> CastTo(m.server.casts, r, q)
    ensures Asked(s.server.incoming, r) && q != r && Connected(s, q) ==>
              Asked(m.server.incoming, r) || CastTo(m.server.casts, r, q)
  {
    var sv, item := s.server, s.server.incoming[0];
    HandleLeaves(sv, m.server);
    if CastTo(sv.casts, r, q) {
      var k :| 0 <= k < |sv.casts| && sv.casts[k].sender == r && q in sv.casts[k].recipients;
      assert m.server.casts[k] == sv.casts[k];
    }
    if Asked(sv.incoming, r) && q != r && Connected(s, q) {
      var i :| 0 <= i < |sv.incoming| && sv.incoming[i].remote == r && sv.incoming[i].msg.id == MESSAGE_ALL;
      if i == 0 {
        OneCopyEach(es, s, q);
        OpenInDeque(es, s, q);
        var k := |sv.casts|;
        assert m.server.casts[k].sender == r && q in m.server.casts[k].recipients;
      } else {
        assert m.server.incoming[i - 1] == sv.incoming[i];
      }
    }
  }

  /** Handling a message leaves sockets and readers alone. */
  lemma HandleLeaves(s: Server, t: Server)
    requires IsNext(s, t)
    ensures t.incoming == s.incoming[1..] && |t.ends| == |s.ends| && s.casts <= t.casts
    ensures forall h: Handle | h < |s.ends| :: t.ends[h].reader == s.ends[h].reader && t.ends[h].open == s.ends[h].open
  {
  }

  // ----- Results

  lemma PingHandled(z: App, r: Handle, ping: Message)
    requires Inv(z) && z.server.incoming == [] && r < |z.server.ends| && ping.id == SERVER_PING
    requires ping in z.server.ends[r].reader.delivered
    ensures ping in z.server.ends[r].sent
  {
    var sv := z.server;
    assert BooksOk(sv, r);
    assert sv.queued[..sv.handled] == sv.queued by { assert sv.queued[sv.handled..] == []; }
    InKind(sv.ends[r].reader.delivered, SERVER_PING, ping);
    InKind(sv.ends[r].sent, SERVER_PING, ping);
    assert multiset(sv.ends[r].sent)[ping] > 0;
  }

  /** From every reachable state in which both ends of client r's connection are open, whatever is under way anywhere:
      if its user enters 1, there is a continuation after which the client has its own ping back. */
  lemma PingCanReturn(es: seq<Step>, s: App, r: Handle, time: seq<Byte>) returns (fs: seq<Step>, z: App)
    requires Run(es) == Some(s) && Connected(s, r) && |time| == TIME_SIZE
    ensures es + [PressPing(r, time)] <= fs && Run(fs) == Some(z)
    ensures r < |z.clients| && Ping(time) in z.clients[r].reader.delivered
  {
    var e, ping := PressPing(r, time), Ping(time);
    RunMore(es, s, e);
    WhatClientsSend(time);
    var a := Next(s, e);
    var gs, b := Upstream(es + [e], a, r);
    LastArrives(a.clients[r], ping);
    var hs, c := HandleAll(gs, b, r, r);
    RunKept(hs, c);
    PingHandled(c, r, ping);
    fs, z := Downstream(hs, c, r);
  }

  /** What was passed to Send last is delivered last, as it was sent if it has a body. */
  lemma LastArrives(e: C.Endpoint, m: Message)
    requires e.posted != [] && e.posted[|e.posted| - 1] == m
    ensures var d := CT.Delivery(e.writer.accepted + e.posted);
            d != [] && d[|d| - 1].id == m.id && (m.body != [] ==> d[|d| - 1] == m)
  {
    var frames := e.writer.accepted + e.posted;
    assert frames[|frames| - 1] == m;
    CT.DeliveryAt(frames, |frames| - 1);
  }

  /** ... and if the user of client r enters 2, and client q is another one whose connection is open at both ends, there
      is a continuation after which q has the hello with r's id. */
  lemma HelloCanArrive(es: seq<Step>, s: App, r: Handle, q: Handle) returns (fs: seq<Step>, z: App)
    requires Run(es) == Some(s) && Connected(s, r) && Connected(s, q) && q != r
    ensures es + [PressAll(r)] <= fs && Run(fs) == Some(z)
    ensures q < |z.clients| && Hello(ST.IdOf(r)) in z.clients[q].reader.delivered
  {
    var e := PressAll(r);
    RunMore(es, s, e);
    var a := Next(s, e);
    var gs, b := Upstream(es + [e], a, r);
    LastArrives(a.clients[r], ASK);
    NoMoreThanAccepted(es + [e], a, r);
    NewAsk(a.server.ends[r].reader.delivered, b.server.ends[r].reader.delivered, r, a.server.incoming,
           b.server.incoming);
    var hs, c := HandleAll(gs, b, r, q);
    HelloWasSent(hs, c, r, q);
    fs, z := Downstream(hs, c, q);
  }

  lemma NoMoreThanAccepted(es: seq<Step>, a: App, r: Handle)
    requires Run(es) == Some(a) && r < |a.clients| && r < |a.server.ends|
    ensures |a.server.ends[r].reader.delivered| <= |a.clients[r].writer.accepted|
  {
    RunKept(es, a);
    var c, e := a.clients[r], a.server.ends[r];
    assert LineOk(c, e);
    AllWellFormed(c, e);
    CT.AcceptedWereSent(c);
    CT.LinkDelivers(C.Link(c, e), C.Right);
  }

  /** The MessageAll that was passed to Send last has not been delivered before; so it is in the queue. */
  lemma NewAsk(d: seq<Message>, d': seq<Message>, r: Handle, before: seq<Owned>, items: seq<Owned>)
    requires d <= d' && |d| < |d'| && d'[|d'| - 1].id == MESSAGE_ALL && items == before + OwnedBy(r, d'[|d|..])
    ensures Asked(items, r)
  {
    var i := |items| - 1;
    assert items[i].remote == r && items[i].msg.id == MESSAGE_ALL;
  }

  lemma HelloWasSent(es: seq<Step>, s: App, r: Handle, q: Handle)
    requires Run(es) == Some(s) && CastTo(s.server.casts, r, q) && q < |s.server.ends|
    ensures Hello(ST.IdOf(r)) in s.server.ends[q].sent && Hello(ST.IdOf(r)).body != []
  {
    RunKept(es, s);
    var k :| 0 <= k < |s.server.casts| && s.server.casts[k].sender == r && q in s.server.casts[k].recipients;
    SenderAsked(s, k);
    var m := Hello(s.server.casts[k].id);
    WhatServersSend(s.server.casts[k].id);
    HeardHas(s.server.casts, q, k);
    assert BooksOk(s.server, q);
    InKind(s.server.ends[q].sent, SERVER_MESSAGE, m);
    assert multiset(s.server.ends[q].sent)[m] > 0;
  }

  lemma {:induction false} HeardHas(casts: seq<Cast>, r: Handle, k: nat)
    requires k < |casts| && r in casts[k].recipients
    ensures Hello(casts[k].id) in multiset(Heard(casts, r))
  {
    if k < |casts| - 1 { HeardHas(casts[..|casts| - 1], r, k); }
  }
}
