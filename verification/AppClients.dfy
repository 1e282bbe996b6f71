/** What the users of the whole system see: the greeting, the pings and the hellos that the client program shows. */
module AppClients {
  import opened Base
  import opened Framing
  import opened SerialMessages
  import opened ServerModel
  import opened AppModel
  import opened AppTheorems
  import opened AppHellos
  import opened CustomClients
  import C = ConnectionModel
  import CT = ConnectionTheorems
  import ST = ServerTheorems

  // ----- What the client program shows

  /** A hello is shown with the id of the connection of another client that asked for a broadcast. */
  lemma ShowsHello(es: seq<Step>, s: App, r: Handle, i: nat) returns (sender: Handle)
    requires Run(es) == Some(s) && r < |s.clients| && i < |s.clients[r].reader.delivered|
    requires s.clients[r].reader.delivered[i].id == SERVER_MESSAGE
    ensures var m := s.clients[r].reader.delivered[i]; |m.body| >= 4 && Show(m) == HelloFrom(ST.IdOf(sender))
    ensures sender < |s.clients| && sender != r && ASK in s.clients[sender].sent
  {
    var k := HelloNamesSender(es, s, r, i);
    sender := s.server.casts[k].sender;
  }

  /** A ping is shown with a time that this client has sent. */
  lemma ShowsPing(es: seq<Step>, s: App, r: Handle, i: nat) returns (time: seq<Byte>)
    requires Run(es) == Some(s) && r < |s.clients| && i < |s.clients[r].reader.delivered|
    requires s.clients[r].reader.delivered[i].id == SERVER_PING
    ensures var m := s.clients[r].reader.delivered[i]; |m.body| >= TIME_SIZE && Show(m) == PingTime(time)
    ensures |time| == TIME_SIZE && Ping(time) in s.clients[r].sent
  {
    PingReturns(es, s, r, i);
    time := Popped(s.clients[r].reader.delivered[i], TIME_SIZE).1;
  }

  /** Every message in a client's queue is the greeting, a ping or a hello, and is shown as what it is. */
  lemma ShowsWhatItIs(es: seq<Step>, s: App, r: Handle, i: nat)
    requires Run(es) == Some(s) && r < |s.clients| && i < |s.clients[r].reader.delivered|
    ensures var m := s.clients[r].reader.delivered[i];
            && (m.id == SERVER_PING ==> |m.body| >= TIME_SIZE) && (m.id == SERVER_MESSAGE ==> |m.body| >= 4)
            && m.id in {SERVER_ACCEPT, SERVER_PING, SERVER_MESSAGE}
            && (Show(m) == ServerAccepted <==> m.id == SERVER_ACCEPT)
            && (Show(m).PingTime? <==> m.id == SERVER_PING) && (Show(m).HelloFrom? <==> m.id == SERVER_MESSAGE)
  {
    RunKept(es, s);
    assert LineOk(s.clients[r], s.server.ends[r]);
    ClientGets(s.clients[r], s.server.ends[r], i);
    if s.clients[r].reader.delivered[i].id == SERVER_PING { var _ := ShowsPing(es, s, r, i); }
    if s.clients[r].reader.delivered[i].id == SERVER_MESSAGE { var _ := ShowsHello(es, s, r, i); }
  }

  /** A client whose own socket has been closed passes nothing to Send any more, whatever its user enters. */
  lemma {:induction false} DownClientIsSilent(es: seq<Step>, s: App, c: Handle, more: seq<Step>, z: App)
    requires Run(es) == Some(s) && c < |s.clients| && !s.clients[c].open && Run(es + more) == Some(z)
    ensures c < |z.clients| && !z.clients[c].open && z.clients[c].sent == s.clients[c].sent
  {
    if more == [] {
      assert es + more == es;
    } else {
      var init, e := more[..|more| - 1], more[|more| - 1];
      assert (es + more)[..|es + more| - 1] == es + init;
      DownClientIsSilent(es, s, c, init, Run(es + init).value);
      DownStep(Run(es + init).value, e, c);
    }
  }

  lemma DownStep(s: App, e: Step, c: Handle)
    requires CanStep(s, e) && c < |s.clients| && !s.clients[c].open
    ensures var z := Next(s, e); c < |z.clients| && !z.clients[c].open && z.clients[c].sent == s.clients[c].sent
  {
    match e
    case AtClient(d, move) => if c == d { DownMove(s.clients[c], s.server.ends[c].writer.emitted, move); }
    case _ =>
  }

  lemma DownMove(e: C.Endpoint, stream: seq<Byte>, move: C.Move)
    requires C.CanMove(e, stream, move) && !e.open && (IoMove(move) || move.Connected?)
    ensures var e' := C.Moved(e, stream, move); !e'.open && e'.sent == e.sent
  {
  }

  // ----- The greeting

  /** A connection is sent the greeting first, and never again. */
  ghost predicate Greeted(s: Server) { forall h: Handle | h < |s.ends| :: GreetedOnce(s.ends[h].sent) }

  predicate GreetedOnce(sent: seq<Message>) {
    sent != [] && sent[0] == ACCEPTED && forall i | 0 < i < |sent| :: sent[i].id != SERVER_ACCEPT
  }

  lemma HandleGreeted(s: Server, s': Server)
    requires Greeted(s) && IsNext(s, s')
    ensures Greeted(s')
  {
    var item := s.incoming[0];
    WhatServersSend(s.ends[item.remote].id);
    forall h: Handle | h < |s'.ends| ensures GreetedOnce(s'.ends[h].sent) { assert GreetedOnce(s.ends[h].sent); }
  }

  lemma StepGreeted(s: App, e: Step)
    requires Greeted(s.server) && CanStep(s, e)
    ensures Greeted(Next(s, e).server)
  {
    match e
    case AtServer(c, move) => IoMoveKeeps(s.server.ends[c], s.clients[c].writer.emitted, move);
    case Handle => HandleGreeted(s.server, HandleNext(s.server));
    case _ =>
  }

  lemma {:induction false} RunGreeted(es: seq<Step>, s: App)
    requires Run(es) == Some(s)
    ensures Greeted(s.server)
  {
    if es != [] {
      var m := Run(es[..|es| - 1]).value;
      RunGreeted(es[..|es| - 1], m);
      StepGreeted(m, es[|es| - 1]);
    }
  }

  /** If the server's posted handlers run in order, the first thing a client takes off its queue is the greeting, shown
      as such, and nothing after it is. */
  lemma GreetingComesFirst(es: seq<Step>, s: App, r: Handle, i: nat)
    requires Run(es) == Some(s) && InOrder(es) && r < |s.clients| && i < |s.clients[r].reader.delivered|
    ensures s.clients[r].reader.delivered[i].id == SERVER_ACCEPT <==> i == 0
  {
    RunKept(es, s);
    AppHellos.RunInOrder(es, s);
    RunGreeted(es, s);
    var c, e := s.clients[r], s.server.ends[r];
    assert LineOk(c, e) && CT.SentInOrder(e) && GreetedOnce(e.sent);
    AllWellFormed(c, e);
    CT.AcceptedWereSent(e);
    CT.LinkDelivers(C.Link(c, e), C.Left);
    ClientGets(c, e, i);
    assert c.reader.frames[i] == e.writer.accepted[i] == e.sent[i];
  }
}
