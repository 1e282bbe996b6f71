/** The hellos that a client gets, against the MessageAlls that the others have sent, and in their order. */
module AppHellos {
  import opened Base
  import opened Framing
  import opened ServerModel
  import ST = ServerTheorems
  import opened AppModel
  import opened AppTheorems
  import C = ConnectionModel
  import CT = ConnectionTheorems

  // ----- One MessageAll, one broadcast

  lemma BagSnoc<T>(s: seq<T>, x: T, y: T)
    ensures multiset(s + [x])[y] == multiset(s)[y] + if x == y then 1 else 0
  {
  }

  lemma SendersSnoc(casts: seq<Cast>, cast: Cast)
    ensures Senders(casts + [cast]) == Senders(casts) + [cast.sender]
  {
  }

  lemma {:induction false} AsksOf(items: seq<Owned>, c: Handle)
    ensures multiset(Askers(items))[c] == |OfKind(From(items, c), MESSAGE_ALL)|
  {
    if items != [] {
      var init, item := items[..|items| - 1], items[|items| - 1];
      AsksOf(init, c);
      assert items == init + [item];
      FromSnoc(init, item, c);
      BagSnoc(Askers(init), item.remote, c);
      if item.remote == c { KindSnoc(From(init, c), item.msg, MESSAGE_ALL); }
    }
  }

  lemma {:induction false} KindPrefix(a: seq<Message>, b: seq<Message>, id: Word)
    requires a <= b
    ensures OfKind(a, id) <= OfKind(b, id)
  {
    if |a| < |b| {
      KindPrefix(a, b[..|b| - 1], id);
    } else {
      assert a == b;
    }
  }

  /** The MessageAlls that are delivered are those that came over the wire, whatever their bodies have become. */
  lemma {:induction false} DeliveredAsks(frames: seq<Message>)
    requires forall i | 0 <= i < |frames| :: ClientSends(frames[i])
    ensures |OfKind(CT.Delivery(frames), MESSAGE_ALL)| == multiset(frames)[ASK]
  {
    if frames != [] {
      var init, m := frames[..|frames| - 1], frames[|frames| - 1];
      DeliveredAsks(init);
      assert ClientSends(m) && frames == init + [m];
      assert m.id == MESSAGE_ALL <==> m == ASK;
      var d := CT.Delivery(frames)[|init|];
      CT.DeliveryAt(frames, |init|);
      KindSnoc(CT.Delivery(init), d, MESSAGE_ALL);
      assert CT.Delivery(frames) == CT.Delivery(init) + [d];
    }
  }

  lemma AsksArrive(c: C.Endpoint, e: C.Endpoint)
    requires LineOk(c, e)
    ensures |OfKind(e.reader.delivered, MESSAGE_ALL)| <= multiset(c.sent)[ASK]
  {
    AllWellFormed(c, e);
    CT.ArrivesOnce(C.Link(c, e), C.Right);
    forall i | 0 <= i < |e.reader.frames| ensures ClientSends(e.reader.frames[i]) {
      assert e.reader.frames[i] in multiset(c.sent);
    }
    DeliveredAsks(e.reader.frames);
  }

  /** The server broadcasts for a client at most as often as that client has passed a MessageAll to Send. */
  lemma BroadcastOncePerAsk(es: seq<Step>, s: App, c: Handle)
    requires Run(es) == Some(s) && c < |s.clients|
    ensures multiset(Senders(s.server.casts))[c] <= multiset(s.clients[c].sent)[ASK]
  {
    RunKept(es, s);
    var sv := s.server;
    assert LineOk(s.clients[c], sv.ends[c]) && BooksOk(sv, c);
    AsksOf(sv.queued[..sv.handled], c);
    FromPrefix(sv.queued, sv.handled, c);
    KindPrefix(From(sv.queued[..sv.handled], c), From(sv.queued, c), MESSAGE_ALL);
    AsksArrive(s.clients[c], sv.ends[c]);
  }

  lemma {:induction false} HeardOfSender(casts: seq<Cast>, r: Handle, c: Handle, m: Message)
    requires forall k | 0 <= k < |casts| && Hello(casts[k].id) == m :: casts[k].sender == c
    ensures multiset(Heard(casts, r))[m] <= multiset(Senders(casts))[c]
  {
    if casts != [] {
      var init, last := casts[..|casts| - 1], casts[|casts| - 1];
      HeardOfSender(init, r, c, m);
      assert casts == init + [last];
      HeardSnoc(init, last, r);
      SendersSnoc(init, last);
      BagSnoc(Senders(init), last.sender, c);
      BagSnoc(Heard(init, r), Hello(last.id), m);
    }
  }

  /** End to end: as long as there are no more than 2^32 connections, client r gets the hello of client c at most as
      often as c has passed a MessageAll to Send. */
  lemma HelloOncePerAsk(es: seq<Step>, s: App, r: Handle, c: Handle)
    requires Run(es) == Some(s) && r < |s.clients| && c < |s.clients| <= TWO_32
    ensures multiset(s.clients[r].reader.frames)[Hello(ST.IdOf(c))] <= multiset(s.clients[c].sent)[ASK]
  {
    RunKept(es, s);
    var casts := s.server.casts;
    forall k | 0 <= k < |casts| && Hello(casts[k].id) == Hello(ST.IdOf(c)) ensures casts[k].sender == c {
      SenderAsked(s, k);
      HelloIsId(casts[k].id, ST.IdOf(c));
      FirstIdsDiffer(casts[k].sender, c);
    }
    HeardOfSender(casts, r, c, Hello(ST.IdOf(c)));
    HelloAtMostOnce(es, s, r, ST.IdOf(c));
    BroadcastOncePerAsk(es, s, c);
  }

  // ----- The order of the hellos

  /** The handlers that the server's calls of Send have posted run in the order in which they were posted. */
  predicate InOrder(es: seq<Step>) {
    forall i | 0 <= i < |es| && es[i].AtServer? && es[i].move.Accept? :: es[i].move.k == 0
  }

  ghost predicate AllInOrder(s: Server) { forall h: Handle | h < |s.ends| :: CT.SentInOrder(s.ends[h]) }

  lemma SendInOrder(e: C.Endpoint, m: Message)
    requires CT.SentInOrder(e)
    ensures CT.SentInOrder(C.Sending(e, m))
  {
    CT.SendInOrder(e, m, C.Sending(e, m));
  }

  lemma StepInOrder(s: App, e: Step)
    requires AllInOrder(s.server) && CanStep(s, e) && (e.AtServer? && e.move.Accept? ==> e.move.k == 0)
    ensures AllInOrder(Next(s, e).server)
  {
    match e
    case Join(open) =>
    case AtServer(c, move) =>
      assert CT.SentInOrder(s.server.ends[c]);
      CT.MoveInOrder(s.server.ends[c], s.clients[c].writer.emitted, move);
    case Handle => HandleInOrder(s.server, HandleNext(s.server));
    case _ =>
  }

  lemma HandleInOrder(s: Server, s': Server)
    requires AllInOrder(s) && IsNext(s, s')
    ensures AllInOrder(s')
  {
    var item := s.incoming[0];
    forall h: Handle | h < |s'.ends| ensures CT.SentInOrder(s'.ends[h]) {
      assert CT.SentInOrder(s.ends[h]);
      SendInOrder(s.ends[h], item.msg);
      SendInOrder(s.ends[h], Hello(s.ends[item.remote].id));
    }
  }

  lemma {:induction false} RunInOrder(es: seq<Step>, s: App)
    requires Run(es) == Some(s) && InOrder(es)
    ensures AllInOrder(s.server)
  {
    if es != [] {
      var m := Run(es[..|es| - 1]).value;
      RunInOrder(es[..|es| - 1], m);
      StepInOrder(m, es[|es| - 1]);
    }
  }

  lemma {:induction false} DeliveredHellos(frames: seq<Message>)
    requires forall i | 0 <= i < |frames| :: ServerSends(frames[i])
    ensures OfKind(CT.Delivery(frames), SERVER_MESSAGE) == OfKind(frames, SERVER_MESSAGE)
  {
    if frames != [] {
      var init, m := frames[..|frames| - 1], frames[|frames| - 1];
      DeliveredHellos(init);
      assert ServerSends(m);
      CT.DeliveryAt(frames, |init|);
      KindSnoc(CT.Delivery(init), CT.Delivery(frames)[|init|], SERVER_MESSAGE);
      assert CT.Delivery(frames) == CT.Delivery(init) + [CT.Delivery(frames)[|init|]];
    }
  }

  /** In the runs in which the server's posted handlers run in order, the hellos that a client takes off its queue are
      the first of the broadcasts it was a recipient of, in the order of these broadcasts. */
  lemma HellosInOrder(es: seq<Step>, s: App, r: Handle)
    requires Run(es) == Some(s) && InOrder(es) && r < |s.clients|
    ensures OfKind(s.clients[r].reader.delivered, SERVER_MESSAGE) <= Heard(s.server.casts, r)
  {
    RunKept(es, s);
    RunInOrder(es, s);
    var c, e := s.clients[r], s.server.ends[r];
    assert LineOk(c, e) && BooksOk(s.server, r) && CT.SentInOrder(e);
    AllWellFormed(c, e);
    CT.AcceptedWereSent(e);
    CT.LinkDelivers(C.Link(c, e), C.Left);
    forall i | 0 <= i < |c.reader.frames| ensures ServerSends(c.reader.frames[i]) {
      assert c.reader.frames[i] == e.sent[i];
    }
    DeliveredHellos(c.reader.frames);
    KindPrefix(c.reader.frames, e.sent, SERVER_MESSAGE);
  }
}
