/** The application protocol end to end. */
module AppTheorems {
  import opened Base
  import opened Framing
  import opened SerialMessages
  import opened ServerModel
  import opened ServerTheorems
  import opened AppModel
  import C = ConnectionModel
  import CT = ConnectionTheorems

  // ----- What is sent and what is delivered

  predicate ClientSends(m: Message) {
    WellFormed(m) && ((m.id == SERVER_PING && |m.body| == TIME_SIZE) || (m.id == MESSAGE_ALL && m.body == []))
  }

  predicate ServerSends(m: Message) {
    && WellFormed(m)
    && ((m.id == SERVER_ACCEPT && m.body == []) || (m.id == SERVER_PING && |m.body| == TIME_SIZE)
        || (m.id == SERVER_MESSAGE && |m.body| == 4))
  }

  /** What a client's message is when the server's reader delivers it: a ping is as it was sent; a MessageAll may come
      with the body of an earlier ping, and is not well formed then. */
  predicate ServerGets(m: Message) { (m.id == SERVER_PING ==> ClientSends(m)) && (m.id == MESSAGE_ALL ==> m.size == 0) }

  lemma WhatClientsSend(time: seq<Byte>)
    requires |time| == TIME_SIZE
    ensures ClientSends(Ping(time)) && Ping(time).body == time && ClientSends(ASK)
  {
    assert [] + time == time;
  }

  lemma WhatServersSend(id: Word)
    ensures ServerSends(Hello(id)) && Hello(id) == Message(SERVER_MESSAGE, 4, WordBytes(id)) && ServerSends(ACCEPTED)
  {
    assert [] + WordBytes(id) == WordBytes(id);
  }

  lemma WhatServerGets(frames: seq<Message>, i: nat)
    requires i < |frames| && ClientSends(frames[i])
    ensures ServerGets(CT.Delivery(frames)[i]) && CT.Delivery(frames)[i].id == frames[i].id
    ensures frames[i].id == SERVER_PING ==> CT.Delivery(frames)[i] == frames[i]
  {
    CT.DeliveryAt(frames, i);
  }

  /** A MessageAll after a ping is delivered with the ping's time as its body, and a size that says there is none. */
  lemma StaleBody(time: seq<Byte>)
    requires |time| == TIME_SIZE
    ensures CT.Delivery([Ping(time), ASK]) == [Ping(time), Message(MESSAGE_ALL, 0, time)]
    ensures !WellFormed(CT.Delivery([Ping(time), ASK])[1])
  {
    WhatClientsSend(time);
    var frames := [Ping(time), ASK];
    CT.DeliveryAt(frames, 0);
    CT.DeliveryAt(frames, 1);
    assert frames[..1] == [Ping(time)];
  }

  // ----- One connection

  ghost predicate LineOk(c: C.Endpoint, e: C.Endpoint) {
    && CT.EndpointOk(c, e.writer.emitted) && CT.EndpointOk(e, c.writer.emitted)
    && (forall i | 0 <= i < |c.sent| :: ClientSends(c.sent[i]))
    && (forall i | 0 <= i < |e.sent| :: ServerSends(e.sent[i]))
  }

  /** Everything delivered at the server's end is what the server may get. */
  lemma LineDelivers(c: C.Endpoint, e: C.Endpoint, i: nat)
    requires LineOk(c, e) && i < |e.reader.delivered|
    ensures i < |e.reader.frames| && e.reader.frames[i] in c.sent && ClientSends(e.reader.frames[i])
    ensures ServerGets(e.reader.delivered[i]) && e.reader.delivered[i].id == e.reader.frames[i].id
  {
    var l := C.Link(c, e);
    AllWellFormed(c, e);
    CT.ArrivesOnce(l, C.Right);
    var m := e.reader.frames[i];
    assert m in multiset(e.reader.frames);
    WhatServerGets(e.reader.frames, i);
  }

  lemma AllWellFormed(c: C.Endpoint, e: C.Endpoint)
    requires LineOk(c, e)
    ensures forall i | 0 <= i < |c.sent| :: WellFormed(c.sent[i])
    ensures forall i | 0 <= i < |e.sent| :: WellFormed(e.sent[i])
  {
    forall i | 0 <= i < |c.sent| ensures WellFormed(c.sent[i]) { assert ClientSends(c.sent[i]); }
    forall i | 0 <= i < |e.sent| ensures WellFormed(e.sent[i]) { assert ServerSends(e.sent[i]); }
  }

  /** ... and at the client's. */
  lemma ClientGets(c: C.Endpoint, e: C.Endpoint, i: nat)
    requires LineOk(c, e) && i < |c.reader.delivered|
    ensures i < |c.reader.frames| && c.reader.frames[i] in e.sent && ServerSends(c.reader.frames[i])
    ensures c.reader.delivered[i].id == c.reader.frames[i].id
    ensures c.reader.frames[i].body != [] ==> c.reader.delivered[i] == c.reader.frames[i]
  {
    AllWellFormed(c, e);
    CT.ArrivesOnce(C.Link(c, e), C.Left);
    assert c.reader.frames[i] in multiset(c.reader.frames);
    CT.DeliveryAt(c.reader.frames, i);
  }

  lemma SendKept(c: C.Endpoint, e: C.Endpoint, m: Message)
    requires LineOk(c, e) && ClientSends(m)
    ensures LineOk(ClientSend(c, m), e)
  {
  }

  lemma ReplyKept(c: C.Endpoint, e: C.Endpoint, m: Message)
    requires LineOk(c, e) && ServerSends(m)
    ensures LineOk(c, C.Sending(e, m))
  {
  }

  lemma ClientMoveKept(c: C.Endpoint, e: C.Endpoint, move: C.Move)
    requires LineOk(c, e) && C.CanMove(c, e.writer.emitted, move) && (IoMove(move) || move.Connected?)
    ensures LineOk(C.Moved(c, e.writer.emitted, move), e)
  {
    CT.MoveKept(c, e.writer.emitted, move);
  }

  lemma ServerMoveKept(c: C.Endpoint, e: C.Endpoint, move: C.Move)
    requires LineOk(c, e) && C.CanMove(e, c.writer.emitted, move) && IoMove(move)
    ensures LineOk(c, C.Moved(e, c.writer.emitted, move))
  {
    CT.MoveKept(e, c.writer.emitted, move);
  }

  lemma JoinOk(open: bool, uid: Word)
    ensures LineOk(C.NEW_ENDPOINT,
                   C.Moved(SendAllTo(C.NEW_ENDPOINT.(open := open), [ACCEPTED]), [], C.ConnectToClient(uid)))
  {
    WhatServersSend(0);
  }

  // ----- The shared queue and the broadcasts

  /** The messages that came from connection h, in order. */
  function From(items: seq<Owned>, h: Handle): seq<Message> {
    if items == [] then []
    else
      var item := items[|items| - 1];
      From(items[..|items| - 1], h) + if item.remote == h then [item.msg] else []
  }

  /** Who asked for a broadcast, in order. */
  function Askers(items: seq<Owned>): seq<Handle> {
    if items == [] then []
    else
      var item := items[|items| - 1];
      Askers(items[..|items| - 1]) + if item.msg.id == MESSAGE_ALL then [item.remote] else []
  }

  function Senders(casts: seq<Cast>): seq<Handle> { seq(|casts|, i requires 0 <= i < |casts| => casts[i].sender) }

  /** The messages with this id, in order. */
  function OfKind(ms: seq<Message>, id: Word): seq<Message> {
    if ms == [] then []
    else
      var m := ms[|ms| - 1];
      OfKind(ms[..|ms| - 1], id) + if m.id == id then [m] else []
  }

  /** One hello for each broadcast that r was a recipient of. */
  function Heard(casts: seq<Cast>, r: Handle): seq<Message> {
    if casts == [] then []
    else
      var cast := casts[|casts| - 1];
      Heard(casts[..|casts| - 1], r) + if r in cast.recipients then [Hello(cast.id)] else []
  }

  lemma FromSnoc(items: seq<Owned>, item: Owned, h: Handle)
    ensures From(items + [item], h) == if item.remote == h then From(items, h) + [item.msg] else From(items, h)
    ensures Askers(items + [item]) ==
            if item.msg.id == MESSAGE_ALL then Askers(items) + [item.remote] else Askers(items)
  {
    assert (items + [item])[..|items|] == items;
  }

  lemma KindSnoc(ms: seq<Message>, m: Message, id: Word)
    ensures OfKind(ms + [m], id) == if m.id == id then OfKind(ms, id) + [m] else OfKind(ms, id)
  {
    assert (ms + [m])[..|ms|] == ms;
  }

  lemma HeardSnoc(casts: seq<Cast>, cast: Cast, r: Handle)
    ensures Heard(casts + [cast], r) ==
            if r in cast.recipients then Heard(casts, r) + [Hello(cast.id)] else Heard(casts, r)
  {
    assert (casts + [cast])[..|casts|] == casts;
  }

  lemma {:induction false} FromOwned(items: seq<Owned>, c: Handle, ms: seq<Message>, h: Handle)
    ensures From(items + OwnedBy(c, ms), h) == if h == c then From(items, h) + ms else From(items, h)
  {
    if ms == [] {
      assert items + OwnedBy(c, ms) == items;
    } else {
      var init, m := ms[..|ms| - 1], ms[|ms| - 1];
      FromOwned(items, c, init, h);
      OwnedSnoc(items, c, ms);
      FromSnoc(items + OwnedBy(c, init), Owned(c, m), h);
      if h == c { assert From(items, h) + ms == (From(items, h) + init) + [m]; }
    }
  }

  lemma OwnedSnoc(items: seq<Owned>, c: Handle, ms: seq<Message>)
    requires ms != []
    ensures items + OwnedBy(c, ms) == (items + OwnedBy(c, ms[..|ms| - 1])) + [Owned(c, ms[|ms| - 1])]
  {
    assert OwnedBy(c, ms) == OwnedBy(c, ms[..|ms| - 1]) + [Owned(c, ms[|ms| - 1])];
  }

  lemma {:induction false} NothingFrom(items: seq<Owned>, h: Handle)
    requires forall i | 0 <= i < |items| :: items[i].remote < h
    ensures From(items, h) == []
  {
    if items != [] { NothingFrom(items[..|items| - 1], h); }
  }

  lemma {:induction false} NothingHeard(casts: seq<Cast>, r: Handle)
    requires forall i | 0 <= i < |casts| :: r !in casts[i].recipients
    ensures Heard(casts, r) == []
  {
    if casts != [] { NothingHeard(casts[..|casts| - 1], r); }
  }

  // ----- What every run keeps

  ghost predicate ItemOk(s: Server, i: nat)
    requires i < |s.queued|
  {
    s.queued[i].remote < |s.ends| && ServerGets(s.queued[i].msg)
  }

  ghost predicate CastOk(s: Server, k: nat)
    requires k < |s.casts|
  {
    var cast := s.casts[k];
    && cast.sender < |s.ends| && cast.id == s.ends[cast.sender].id && cast.sender !in cast.recipients
    && Increasing(cast.recipients) && forall r | r in cast.recipients :: r < |s.ends|
  }

  ghost predicate QueueOk(s: Server) {
    && s.handled <= |s.queued| && s.incoming == s.queued[s.handled..]
    && Askers(s.queued[..s.handled]) == Senders(s.casts)
    && (forall i: nat | i < |s.queued| :: ItemOk(s, i))
    && (forall k: nat | k < |s.casts| :: CastOk(s, k))
  }

  /** The books of connection h: what it has delivered is what the queue has had from it; what it has been sent is one
      hello for each broadcast to it and one echo for each of its pings that were handled. */
  ghost predicate BooksOk(s: Server, h: Handle)
    requires h < |s.ends| && s.handled <= |s.queued|
  {
    && From(s.queued, h) == s.ends[h].reader.delivered
    && OfKind(s.ends[h].sent, SERVER_MESSAGE) == Heard(s.casts, h)
    && OfKind(s.ends[h].sent, SERVER_PING) == OfKind(From(s.queued[..s.handled], h), SERVER_PING)
  }

  ghost predicate Inv(s: App) {
    && |s.clients| == |s.server.ends|
    && IdsOk(s.server) && QueueOk(s.server)
    && (forall c: Handle | c < |s.clients| :: LineOk(s.clients[c], s.server.ends[c]))
    && (forall h: Handle | h < |s.server.ends| :: BooksOk(s.server, h))
  }

  // ----- Join

  lemma JoinQueue(s: Server, s': Server, open: bool)
    requires QueueOk(s) && s' == Arrived(s, open, [ACCEPTED], true)
    ensures QueueOk(s')
  {
    forall i: nat | i < |s'.queued| ensures ItemOk(s', i) { assert ItemOk(s, i); }
    forall k: nat | k < |s'.casts| ensures CastOk(s', k) { assert CastOk(s, k); }
  }

  lemma JoinBooks(s: Server, s': Server, open: bool, h: Handle)
    requires QueueOk(s) && QueueOk(s') && s' == Arrived(s, open, [ACCEPTED], true) && h < |s'.ends|
    requires h < |s.ends| ==> BooksOk(s, h)
    ensures BooksOk(s', h)
  {
    if h == |s.ends| {
      forall i: nat | i < |s.queued| ensures s.queued[i].remote < h { assert ItemOk(s, i); }
      forall k: nat | k < |s.casts| ensures h !in s.casts[k].recipients { assert CastOk(s, k); }
      NothingFrom(s.queued, h);
      NothingFrom(s.queued[..s.handled], h);
      NothingHeard(s.casts, h);
      assert s'.ends[h].sent == [] + [ACCEPTED];
      KindSnoc([], ACCEPTED, SERVER_MESSAGE);
      KindSnoc([], ACCEPTED, SERVER_PING);
    }
  }

  lemma JoinKept(s: App, open: bool)
    requires Inv(s)
    ensures Inv(Next(s, Join(open)))
  {
    var s' := Next(s, Join(open));
    ArriveKept(s.server, open, [ACCEPTED]);
    JoinQueue(s.server, s'.server, open);
    JoinOk(open, s.server.counter);
    forall h: Handle | h < |s'.server.ends| ensures BooksOk(s'.server, h) {
      if h < |s.server.ends| { assert BooksOk(s.server, h); }
      JoinBooks(s.server, s'.server, open, h);
    }
    forall c: Handle | c < |s'.clients| ensures LineOk(s'.clients[c], s'.server.ends[c]) {
      if c < |s.clients| { assert LineOk(s.clients[c], s.server.ends[c]); }
    }
  }

  // ----- A client's step

  lemma ClientKept(s: App, c: Handle, e: C.Endpoint)
    requires Inv(s) && c < |s.clients| && LineOk(e, s.server.ends[c])
    ensures Inv(WithClient(s, c, e))
  {
  }

  // ----- A handler at the server's end

  lemma AtServerQueue(s: Server, c: Handle, e: C.Endpoint, s': Server)
    requires QueueOk(s) && c < |s.ends| && |s.ends[c].reader.delivered| <= |e.reader.delivered|
    requires s' == Deliver(s, c, e)
    requires e.id == s.ends[c].id && forall i | 0 <= i < |e.reader.delivered| :: ServerGets(e.reader.delivered[i])
    ensures QueueOk(s') && s'.queued[..s'.handled] == s.queued[..s.handled]
  {
    var n := |s.ends[c].reader.delivered|;
    assert s'.queued[..s.handled] == s.queued[..s.handled];
    assert s'.queued[s.handled..] == s.queued[s.handled..] + OwnedBy(c, e.reader.delivered[n..]);
    forall i: nat | i < |s'.queued| ensures ItemOk(s', i) {
      if i < |s.queued| { assert ItemOk(s, i); }
      else { assert s'.queued[i].msg == e.reader.delivered[n + i - |s.queued|]; }
    }
    forall k: nat | k < |s'.casts| ensures CastOk(s', k) { assert CastOk(s, k); }
  }

  lemma AtServerBooks(s: Server, c: Handle, e: C.Endpoint, more: seq<Message>, s': Server, h: Handle)
    requires c < |s.ends| && s'.ends == s.ends[c := e] && s'.queued == s.queued + OwnedBy(c, more)
    requires s'.casts == s.casts && s'.handled == s.handled <= |s.queued| && h < |s.ends| && BooksOk(s, h)
    requires s'.queued[..s'.handled] == s.queued[..s.handled]
    requires e.sent == s.ends[c].sent && e.reader.delivered == s.ends[c].reader.delivered + more
    ensures BooksOk(s', h)
  {
    FromOwned(s.queued, c, more, h);
  }

  /** What the moves of the I/O thread leave alone. */
  lemma IoMoveKeeps(e: C.Endpoint, stream: seq<Byte>, move: C.Move)
    requires IoMove(move) && C.CanMove(e, stream, move)
    ensures var e' := C.Moved(e, stream, move);
            e'.id == e.id && e'.sent == e.sent && e.reader.delivered <= e'.reader.delivered
  {
  }

  lemma AllBooksOk(s: App, c: Handle, e: C.Endpoint, s': Server)
    requires Inv(s) && c < |s.server.ends| && s.server.ends[c].reader.delivered <= e.reader.delivered
    requires s' == Deliver(s.server, c, e) && e.sent == s.server.ends[c].sent
    requires s'.handled <= |s'.queued| && s'.queued[..s'.handled] == s.server.queued[..s.server.handled]
    ensures forall h: Handle | h < |s'.ends| :: BooksOk(s', h)
  {
    var more := e.reader.delivered[|s.server.ends[c].reader.delivered|..];
    assert e.reader.delivered == s.server.ends[c].reader.delivered + more;
    forall h: Handle | h < |s'.ends| ensures BooksOk(s', h) {
      assert BooksOk(s.server, h);
      AtServerBooks(s.server, c, e, more, s', h);
    }
  }

  lemma AtServerKept(s: App, c: Handle, move: C.Move)
    requires Inv(s) && CanStep(s, AtServer(c, move))
    ensures Inv(Next(s, AtServer(c, move)))
  {
    var s' := Next(s, AtServer(c, move));
    var stream := s.clients[c].writer.emitted;
    var e := C.Moved(s.server.ends[c], stream, move);
    assert LineOk(s.clients[c], s.server.ends[c]);
    ServerMoveKept(s.clients[c], s.server.ends[c], move);
    IoMoveKeeps(s.server.ends[c], stream, move);
    forall i | 0 <= i < |e.reader.delivered| ensures ServerGets(e.reader.delivered[i]) {
      LineDelivers(s.clients[c], e, i);
    }
    AtServerQueue(s.server, c, e, s'.server);
    HandlerSame(s.server, c, stream, move);
    SameIdsKept(s.server, s'.server);
    AllBooksOk(s, c, e, s'.server);
    AllLinesOk(s, c, e, s'.server.ends);
  }

  lemma AllLinesOk(s: App, c: Handle, e: C.Endpoint, ends: seq<C.Endpoint>)
    requires Inv(s) && c < |s.server.ends| && LineOk(s.clients[c], e) && ends == s.server.ends[c := e]
    ensures forall d: Handle | d < |s.clients| :: LineOk(s.clients[d], ends[d])
  {
    forall d: Handle | d < |s.clients| ensures LineOk(s.clients[d], ends[d]) {
      assert LineOk(s.clients[d], s.server.ends[d]);
    }
  }

  // ----- Update handles a message

  /** The first message in the queue is the next one that was queued. */
  lemma FrontItem(s: Server)
    requires QueueOk(s) && s.incoming != []
    ensures s.handled < |s.queued| && s.incoming[0] == s.queued[s.handled] && ItemOk(s, s.handled)
    ensures s.queued[..s.handled + 1] == s.queued[..s.handled] + [s.incoming[0]]
    ensures s.incoming[1..] == s.queued[s.handled + 1..]
  {
  }

  /** A message that is no MessageAll leaves the broadcasts as they are. */
  lemma HandledQueue(s: Server, s': Server)
    requires QueueOk(s) && s.incoming != [] && s.incoming[0].msg.id != MESSAGE_ALL
    requires s' == Taken(s).(ends := s'.ends) && |s'.ends| == |s.ends|
    requires forall h: Handle | h < |s.ends| :: s'.ends[h].id == s.ends[h].id
    ensures QueueOk(s')
  {
    FrontItem(s);
    FromSnoc(s.queued[..s.handled], s.incoming[0], 0);
    forall i: nat | i < |s'.queued| ensures ItemOk(s', i) { assert ItemOk(s, i); }
    forall k: nat | k < |s'.casts| ensures CastOk(s', k) { assert CastOk(s, k); }
  }

  lemma PingBooks(s: Server, s': Server, h: Handle)
    requires QueueOk(s) && s.incoming != [] && s.incoming[0].msg.id == SERVER_PING && s.incoming[0].remote < |s.ends|
    requires s' == SendTo(Taken(s), s.incoming[0].remote, s.incoming[0].msg)
    requires h < |s.ends| && BooksOk(s, h)
    ensures s'.handled <= |s'.queued| && BooksOk(s', h)
  {
    FrontItem(s);
    var item := s.incoming[0];
    var before := s.queued[..s.handled];
    FromSnoc(before, item, h);
    assert s'.queued[..s'.handled] == before + [item];
    KindSnoc(s.ends[h].sent, item.msg, SERVER_PING);
    KindSnoc(s.ends[h].sent, item.msg, SERVER_MESSAGE);
    KindSnoc(From(before, h), item.msg, SERVER_PING);
  }

  lemma IgnoredBooks(s: Server, h: Handle)
    requires QueueOk(s) && s.incoming != [] && s.incoming[0].msg.id != SERVER_PING
    requires h < |s.ends| && BooksOk(s, h)
    ensures Taken(s).handled <= |s.queued| && BooksOk(Taken(s), h)
  {
    FrontItem(s);
    var before, item := s.queued[..s.handled], s.incoming[0];
    FromSnoc(before, item, h);
    assert Taken(s).queued[..Taken(s).handled] == before + [item];
    KindSnoc(From(before, h), item.msg, SERVER_PING);
  }

  lemma PingKept(s: App)
    requires Inv(s) && CanStep(s, Handle) && s.server.incoming[0].msg.id == SERVER_PING
    ensures Inv(Next(s, Handle))
  {
    var s', item := Next(s, Handle), s.server.incoming[0];
    FrontItem(s.server);
    UpdateSame(s.server, s'.server);
    SameIdsKept(s.server, s'.server);
    HandledQueue(s.server, s'.server);
    assert LineOk(s.clients[item.remote], s.server.ends[item.remote]);
    ReplyKept(s.clients[item.remote], s.server.ends[item.remote], item.msg);
    forall h: Handle | h < |s'.server.ends| ensures BooksOk(s'.server, h) {
      assert BooksOk(s.server, h);
      PingBooks(s.server, s'.server, h);
    }
    forall d: Handle | d < |s'.clients| ensures LineOk(s'.clients[d], s'.server.ends[d]) {
      assert LineOk(s.clients[d], s.server.ends[d]);
    }
  }

  lemma IgnoredKept(s: App)
    requires Inv(s) && CanStep(s, Handle)
    requires s.server.incoming[0].msg.id != SERVER_PING && s.server.incoming[0].msg.id != MESSAGE_ALL
    ensures Inv(Next(s, Handle))
  {
    var s' := Next(s, Handle);
    UpdateSame(s.server, s'.server);
    SameIdsKept(s.server, s'.server);
    HandledQueue(s.server, s'.server);
    forall h: Handle | h < |s'.server.ends| ensures BooksOk(s'.server, h) {
      assert BooksOk(s.server, h);
      IgnoredBooks(s.server, h);
    }
    forall d: Handle | d < |s'.clients| ensures LineOk(s'.clients[d], s'.server.ends[d]) {
      assert LineOk(s.clients[d], s.server.ends[d]);
    }
  }

  /** The broadcast that sender c causes. */
  function CastOf(s: Server, c: Handle): Cast
    requires c < |s.ends|
  {
    Cast(c, s.ends[c].id, Without(Alive(s, s.deq), c))
  }

  /** Its recipients are the connected clients in the deque, in their order, but for the sender. */
  lemma RecipientsAre(s: Server, c: Handle)
    requires DequeOk(s) && c < |s.ends|
    ensures Increasing(CastOf(s, c).recipients)
    ensures forall r :: r in CastOf(s, c).recipients <==> r in s.deq && s.ends[r].open && r != c
    ensures forall r :: r in CastOf(s, c).recipients <==> r in Recipients(s, Some(c))
  {
    AliveIsFilter(s, s.deq);
    WithoutIsFilter(Alive(s, s.deq), c);
  }

  lemma BroadcastQueue(s: Server, s': Server)
    requires QueueOk(s) && DequeOk(s) && s.incoming != [] && s.incoming[0].msg.id == MESSAGE_ALL
    requires s.incoming[0].remote < |s.ends| && s' == Broadcast(Taken(s), s.incoming[0].remote)
    ensures QueueOk(s')
  {
    var t, c := Taken(s), s.incoming[0].remote;
    FrontItem(s);
    FromSnoc(s.queued[..s.handled], s.incoming[0], 0);
    RecipientsAre(t, c);
    assert s'.casts == s.casts + [CastOf(t, c)];
    assert Senders(s'.casts) == Senders(s.casts) + [c];
    forall i: nat | i < |s'.queued| ensures ItemOk(s', i) { assert ItemOk(s, i); }
    forall k: nat | k < |s'.casts| ensures CastOk(s', k) { if k < |s.casts| { assert CastOk(s, k); } }
  }

  lemma BroadcastBooks(s: Server, c: Handle, s': Server, h: Handle)
    requires s.handled <= |s.queued| && DequeOk(s) && c < |s.ends| && s' == Broadcast(s, c)
    requires h < |s.ends| && BooksOk(s, h)
    ensures h < |s'.ends| && s'.handled <= |s'.queued| && BooksOk(s', h)
  {
    RecipientsAre(s, c);
    WhatServersSend(s.ends[c].id);
    HeardSnoc(s.casts, CastOf(s, c), h);
    KindSnoc(s.ends[h].sent, Hello(s.ends[c].id), SERVER_MESSAGE);
    KindSnoc(s.ends[h].sent, Hello(s.ends[c].id), SERVER_PING);
  }

  lemma BroadcastKept(s: App)
    requires Inv(s) && CanStep(s, Handle) && s.server.incoming[0].msg.id == MESSAGE_ALL
    ensures Inv(Next(s, Handle))
  {
    var s', c := Next(s, Handle), s.server.incoming[0].remote;
    UpdateSame(s.server, s'.server);
    SameIdsKept(s.server, s'.server);
    BroadcastQueue(s.server, s'.server);
    forall h: Handle | h < |s'.server.ends| ensures BooksOk(s'.server, h) {
      assert BooksOk(s.server, h);
      IgnoredBooks(s.server, h);
      BroadcastBooks(Taken(s.server), c, s'.server, h);
    }
    BroadcastLines(s, c, s'.server);
  }

  lemma BroadcastLines(s: App, c: Handle, s': Server)
    requires Inv(s) && s.server.incoming != [] && c < |s.server.ends| && s' == Broadcast(Taken(s.server), c)
    ensures forall d: Handle | d < |s.clients| :: d < |s'.ends| && LineOk(s.clients[d], s'.ends[d])
  {
    WhatServersSend(s.server.ends[c].id);
    forall d: Handle | d < |s.clients| ensures d < |s'.ends| && LineOk(s.clients[d], s'.ends[d]) {
      assert LineOk(s.clients[d], s.server.ends[d]);
      ReplyKept(s.clients[d], s.server.ends[d], Hello(s.server.ends[c].id));
    }
  }

  lemma StepKept(s: App, e: Step)
    requires Inv(s) && CanStep(s, e)
    ensures Inv(Next(s, e))
  {
    match e
    case Join(open) => JoinKept(s, open);
    case PressPing(c, time) => PressKept(s, c, Ping(time), time);
    case PressAll(c) => PressKept(s, c, ASK, seq(TIME_SIZE, i => 0 as Byte));
    case AtClient(c, move) =>
      assert LineOk(s.clients[c], s.server.ends[c]);
      ClientMoveKept(s.clients[c], s.server.ends[c], move);
      ClientKept(s, c, C.Moved(s.clients[c], s.server.ends[c].writer.emitted, move));
    case AtServer(c, move) => AtServerKept(s, c, move);
    case Handle =>
      if s.server.incoming[0].msg.id == SERVER_PING { PingKept(s); }
      else if s.server.incoming[0].msg.id == MESSAGE_ALL { BroadcastKept(s); }
      else { IgnoredKept(s); }
  }

  lemma PressKept(s: App, c: Handle, m: Message, time: seq<Byte>)
    requires Inv(s) && c < |s.clients| && |time| == TIME_SIZE && (m == Ping(time) || m == ASK)
    ensures Inv(WithClient(s, c, ClientSend(s.clients[c], m)))
  {
    WhatClientsSend(time);
    assert LineOk(s.clients[c], s.server.ends[c]);
    SendKept(s.clients[c], s.server.ends[c], m);
    ClientKept(s, c, ClientSend(s.clients[c], m));
  }

  lemma {:induction false} RunKept(es: seq<Step>, s: App)
    requires Run(es) == Some(s)
    ensures Inv(s)
  {
    if es != [] {
      var m := Run(es[..|es| - 1]).value;
      RunKept(es[..|es| - 1], m);
      StepKept(m, es[|es| - 1]);
    }
  }

  // ----- Results

  /** Every message that either side of any connection passes to Send is well formed, although what is delivered need
      not be; so both byte streams can be decoded at any moment, into messages that were accepted, in that order. */
  lemma AlwaysDecodable(es: seq<Step>, s: App, c: Handle)
    requires Run(es) == Some(s) && c < |s.clients|
    ensures c < |s.server.ends|
    ensures forall m | m in s.clients[c].sent || m in s.server.ends[c].sent :: WellFormed(m)
    ensures Decode(s.clients[c].writer.emitted).frames <= s.clients[c].writer.accepted
    ensures Decode(s.server.ends[c].writer.emitted).frames <= s.server.ends[c].writer.accepted
  {
    RunKept(es, s);
    assert LineOk(s.clients[c], s.server.ends[c]);
    AllWellFormed(s.clients[c], s.server.ends[c]);
    StreamDecodes(s.clients[c]);
    StreamDecodes(s.server.ends[c]);
  }

  lemma StreamDecodes(e: C.Endpoint)
    requires CT.WriterOk(e.writer) && multiset(e.sent) == multiset(e.writer.accepted) + multiset(e.posted)
    requires forall i | 0 <= i < |e.sent| :: WellFormed(e.sent[i])
    ensures Decode(e.writer.emitted).frames <= e.writer.accepted
  {
    CT.EmittedIsPrefix(e.writer);
    CT.AcceptedWereSent(e);
    DecodePrefix(e.writer.accepted, e.writer.emitted);
  }

  /** A broadcast sends one copy of the sender's hello to each client that is connected and in the deque, and none to
      the sender; the books record it under the sender, with just these recipients, each named once. */
  lemma OneCopyEach(es: seq<Step>, s: App, r: Handle)
    requires Run(es) == Some(s) && r < |s.server.ends|
    requires CanStep(s, Handle) && s.server.incoming[0].msg.id == MESSAGE_ALL
    ensures var sv, sv', c := s.server, Next(s, Handle).server, s.server.incoming[0].remote;
            OneCopy(sv, sv', c, r)
  {
    DequeKept(es, s);
    BroadcastSends(Taken(s.server), s.server.incoming[0].remote, r);
  }

  lemma DequeKept(es: seq<Step>, s: App)
    requires Run(es) == Some(s)
    ensures DequeOk(s.server)
  {
    RunKept(es, s);
  }

  /** What a broadcast of c means for client r. */
  predicate OneCopy(s: Server, s': Server, c: Handle, r: Handle) {
    && c < |s.ends| && r < |s.ends| == |s'.ends| && |s'.casts| == |s.casts| + 1
    && var cast, reached := s'.casts[|s.casts|], r in s.deq && s.ends[r].open && r != c;
       && s'.ends[r].sent == (if reached then s.ends[r].sent + [Hello(s.ends[c].id)] else s.ends[r].sent)
       && cast.sender == c && cast.id == s.ends[c].id
       && (r in cast.recipients <==> reached) && Increasing(cast.recipients)
  }

  lemma BroadcastSends(s: Server, c: Handle, r: Handle)
    requires DequeOk(s) && c < |s.ends| && r < |s.ends|
    ensures OneCopy(s, Broadcast(s, c), c, r)
  {
    RecipientsAre(s, c);
    assert Broadcast(s, c).casts == s.casts + [CastOf(s, c)];
  }

  lemma {:induction false} InKind(ms: seq<Message>, id: Word, m: Message)
    ensures multiset(OfKind(ms, id))[m] == if m.id == id then multiset(ms)[m] else 0
  {
    if ms != [] {
      InKind(ms[..|ms| - 1], id, m);
      assert ms == ms[..|ms| - 1] + [ms[|ms| - 1]];
    }
  }

  lemma {:induction false} HeardFrom(casts: seq<Cast>, r: Handle, m: Message) returns (k: nat)
    requires m in Heard(casts, r)
    ensures k < |casts| && r in casts[k].recipients && m == Hello(casts[k].id)
  {
    var last := casts[|casts| - 1];
    if r in last.recipients && m == Hello(last.id) { k := |casts| - 1; }
    else { k := HeardFrom(casts[..|casts| - 1], r, m); }
  }

  lemma {:induction false} AskedBy(items: seq<Owned>, h: Handle) returns (i: nat)
    requires h in Askers(items)
    ensures i < |items| && items[i].remote == h && items[i].msg.id == MESSAGE_ALL
  {
    var last := items[|items| - 1];
    if last.msg.id == MESSAGE_ALL && last.remote == h { i := |items| - 1; }
    else { i := AskedBy(items[..|items| - 1], h); }
  }

  lemma {:induction false} ItemIsFrom(items: seq<Owned>, i: nat)
    requires i < |items|
    ensures items[i].msg in From(items, items[i].remote)
  {
    if i < |items| - 1 { ItemIsFrom(items[..|items| - 1], i); }
  }

  /** The sender of a broadcast is a client that has passed a MessageAll to Send, its connection was open when it was
      approved, and the id in the broadcast is that connection's. */
  lemma SenderAsked(s: App, k: nat)
    requires Inv(s) && k < |s.server.casts|
    ensures var cast := s.server.casts[k];
            cast.sender < |s.clients| && ASK in s.clients[cast.sender].sent && cast.id == IdOf(cast.sender)
  {
    var sv, c := s.server, s.server.casts[k].sender;
    assert CastOk(sv, k);
    assert Senders(sv.casts)[k] == c;
    var i := AskedBy(sv.queued[..sv.handled], c);
    ItemIsFrom(sv.queued, i);
    assert BooksOk(sv, c) && LineOk(s.clients[c], sv.ends[c]) && EndOk(sv, c);
    var j :| 0 <= j < |sv.ends[c].reader.delivered| && sv.ends[c].reader.delivered[j] == sv.queued[i].msg;
    LineDelivers(s.clients[c], sv.ends[c], j);
    assert sv.ends[c].reader.frames[j] == ASK;
    assert sv.ends[c].reader.started;
  }

  /** Every ServerMessage that a client takes off its queue, decoded with `>>`, yields the id of the connection of a
      client that asked for a broadcast, never its own. */
  lemma HelloNamesSender(es: seq<Step>, s: App, r: Handle, i: nat) returns (k: nat)
    requires Run(es) == Some(s) && r < |s.clients| && i < |s.clients[r].reader.delivered|
    requires s.clients[r].reader.delivered[i].id == SERVER_MESSAGE
    ensures k < |s.server.casts|
    ensures var m, cast := s.clients[r].reader.delivered[i], s.server.casts[k];
            && |m.body| == 4 && Popped(m, 4) == (Message(SERVER_MESSAGE, 0, []), WordBytes(cast.id))
            && WordOf(Popped(m, 4).1) == cast.id == IdOf(cast.sender)
            && r in cast.recipients && cast.sender != r
            && cast.sender < |s.clients| && ASK in s.clients[cast.sender].sent
  {
    RunKept(es, s);
    var e := s.server.ends[r];
    assert LineOk(s.clients[r], e) && BooksOk(s.server, r);
    ClientGets(s.clients[r], e, i);
    var m := s.clients[r].reader.delivered[i];
    assert m in multiset(e.sent);
    InKind(e.sent, SERVER_MESSAGE, m);
    assert m in multiset(OfKind(e.sent, SERVER_MESSAGE));
    k := HeardFrom(s.server.casts, r, m);
    assert CastOk(s.server, k);
    SenderAsked(s, k);
    WhatServersSend(s.server.casts[k].id);
    WordRoundTrip(s.server.casts[k].id);
    PopAllOf(m);
  }

  lemma PopAllOf(m: Message)
    ensures Popped(m, |m.body|) == (Message(m.id, 0, []), m.body)
  {
  }

  /** ... and it gets each of them at most once for each broadcast that it was a recipient of. */
  lemma HelloAtMostOnce(es: seq<Step>, s: App, r: Handle, id: Word)
    requires Run(es) == Some(s) && r < |s.clients|
    ensures multiset(s.clients[r].reader.frames)[Hello(id)] <= multiset(Heard(s.server.casts, r))[Hello(id)]
  {
    RunKept(es, s);
    var c, e := s.clients[r], s.server.ends[r];
    assert LineOk(c, e) && BooksOk(s.server, r);
    AllWellFormed(c, e);
    CT.ArrivesOnce(C.Link(c, e), C.Left);
    InKind(e.sent, SERVER_MESSAGE, Hello(id));
  }

  /** As long as there are no more than 2^32 connections, the hellos of two broadcasts are the same message exactly when
      the same client asked for them. */
  lemma HellosDiffer(es: seq<Step>, s: App, j: nat, k: nat)
    requires Run(es) == Some(s) && j < |s.server.casts| && k < |s.server.casts| && |s.clients| <= TWO_32
    ensures var a, b := s.server.casts[j], s.server.casts[k]; Hello(a.id) == Hello(b.id) <==> a.sender == b.sender
  {
    RunKept(es, s);
    SenderAsked(s, j);
    SenderAsked(s, k);
    HelloIsId(s.server.casts[j].id, s.server.casts[k].id);
    FirstIdsDiffer(s.server.casts[j].sender, s.server.casts[k].sender);
  }

  lemma HelloIsId(a: Word, b: Word)
    ensures Hello(a) == Hello(b) <==> a == b
  {
    WhatServersSend(a);
    WhatServersSend(b);
    WordRoundTrip(a);
    WordRoundTrip(b);
  }

  lemma FirstIdsDiffer(g: Handle, h: Handle)
    requires g < TWO_32 && h < TWO_32
    ensures IdOf(g) == IdOf(h) <==> g == h
  {
    if g <= h { IdsAgree(g, h); } else { IdsAgree(h, g); }
  }

  // ----- Pings

  lemma {:induction false} DeliveredPings(frames: seq<Message>, m: Message)
    requires m.id == SERVER_PING && forall i | 0 <= i < |frames| :: ClientSends(frames[i])
    ensures multiset(CT.Delivery(frames))[m] == multiset(frames)[m]
  {
    if frames != [] {
      var init, last := frames[..|frames| - 1], frames[|frames| - 1];
      DeliveredPings(init, m);
      assert ClientSends(last);
      assert frames == init + [last];
    }
  }

  lemma {:induction false} FromPrefix(items: seq<Owned>, n: nat, h: Handle)
    requires n <= |items|
    ensures From(items[..n], h) <= From(items, h)
  {
    if n < |items| {
      var init := items[..|items| - 1];
      FromPrefix(init, n, h);
      assert init[..n] == items[..n];
      FromSnoc(init, items[|items| - 1], h);
      assert items == init + [items[|items| - 1]];
    } else {
      assert items[..n] == items;
    }
  }

  /** Each ping that a client passes to Send comes back at most once, and nothing else comes back as a ping. */
  lemma EchoAtMostOnce(es: seq<Step>, s: App, r: Handle, m: Message)
    requires Run(es) == Some(s) && r < |s.clients| && m.id == SERVER_PING
    ensures multiset(s.clients[r].reader.frames)[m] <= multiset(s.clients[r].sent)[m]
  {
    RunKept(es, s);
    var c, e, sv := s.clients[r], s.server.ends[r], s.server;
    assert LineOk(c, e) && BooksOk(sv, r);
    AllWellFormed(c, e);
    CT.ArrivesOnce(C.Link(c, e), C.Left);
    CT.ArrivesOnce(C.Link(c, e), C.Right);
    EchoesHandled(sv, r, m);
    forall i | 0 <= i < |e.reader.frames| ensures ClientSends(e.reader.frames[i]) {
      assert e.reader.frames[i] in multiset(c.sent);
    }
    DeliveredPings(e.reader.frames, m);
  }

  lemma EchoesHandled(sv: Server, r: Handle, m: Message)
    requires r < |sv.ends| && sv.handled <= |sv.queued| && BooksOk(sv, r) && m.id == SERVER_PING
    ensures multiset(sv.ends[r].sent)[m] <= multiset(sv.ends[r].reader.delivered)[m]
  {
    var before, all := From(sv.queued[..sv.handled], r), From(sv.queued, r);
    FromPrefix(sv.queued, sv.handled, r);
    InKind(sv.ends[r].sent, SERVER_PING, m);
    InKind(before, SERVER_PING, m);
    CT.PrefixBag(before, all);
  }

  /** Every ping that a client takes off its queue, decoded with `>>`, yields a time that this client has sent. */
  lemma PingReturns(es: seq<Step>, s: App, r: Handle, i: nat)
    requires Run(es) == Some(s) && r < |s.clients| && i < |s.clients[r].reader.delivered|
    requires s.clients[r].reader.delivered[i].id == SERVER_PING
    ensures var m := s.clients[r].reader.delivered[i];
            |m.body| == TIME_SIZE && m == Ping(Popped(m, TIME_SIZE).1) && m in s.clients[r].sent
  {
    RunKept(es, s);
    var c, e := s.clients[r], s.server.ends[r];
    assert LineOk(c, e);
    ClientGets(c, e, i);
    var m := c.reader.delivered[i];
    assert m in multiset(c.reader.frames) by { assert c.reader.frames[i] == m; }
    EchoAtMostOnce(es, s, r, m);
    assert m in multiset(c.sent);
    PopAllOf(m);
    assert [] + m.body == m.body;
  }

  /** Everything in a client's queue is long enough for what the client pops from it. */
  lemma ClientCanPop(es: seq<Step>, s: App, r: Handle, i: nat)
    requires Run(es) == Some(s) && r < |s.clients| && i < |s.clients[r].reader.delivered|
    ensures var m := s.clients[r].reader.delivered[i];
            && (m.id == SERVER_PING ==> |m.body| >= TIME_SIZE) && (m.id == SERVER_MESSAGE ==> |m.body| >= 4)
            && m.id != MESSAGE_ALL && m.id != SERVER_DENY
  {
    RunKept(es, s);
    assert LineOk(s.clients[r], s.server.ends[r]);
    ClientGets(s.clients[r], s.server.ends[r], i);
  }
}
