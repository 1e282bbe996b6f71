/** The server as an object over connection objects, with the hooks of CustomServer. */
module Servers {
  import opened Base
  import opened Framing
  import opened Connections
  import opened ServerModel
  import opened ServerTheorems
  import opened SerialMessages
  import C = ConnectionModel
  import CT = ConnectionTheorems

  /** owned_message, with a pointer to its connection */
  datatype OwnedMessage = OwnedMessage(remote: Connection, msg: Message)

  /** The pointers that are not null, in order: what erase and std::remove of null leave. */
  function NonNull(cs: seq<Connection?>): seq<Connection?> {
    if cs == [] then [] else NonNull(cs[..|cs| - 1]) + if cs[|cs| - 1] == null then [] else [cs[|cs| - 1]]
  }

  lemma {:induction false} NoNulls(cs: seq<Connection?>)
    requires null !in cs
    ensures NonNull(cs) == cs
  {
    if cs != [] {
      NoNulls(cs[..|cs| - 1]);
      assert cs == cs[..|cs| - 1] + [cs[|cs| - 1]];
    }
  }

  /** The pointers cs are those of the connections hs. */
  predicate Points(all: seq<Connection>, hs: seq<Handle>, cs: seq<Connection?>) {
    |cs| == |hs| && forall i | 0 <= i < |hs| :: hs[i] < |all| && cs[i] == all[hs[i]]
  }

  ghost function EndsOf(all: seq<Connection>): (ends: seq<C.Endpoint>)
    reads all
    ensures |ends| == |all| && forall i | 0 <= i < |all| :: ends[i] == all[i].View()
  {
    seq(|all|, i requires 0 <= i < |all| reads all => all[i].View())
  }

  /** `place` tells for each connection where it is in `all`; so it is there only once. */
  predicate Placed(all: seq<Connection>, place: map<Connection, Handle>, repr: set<Connection>) {
    forall i | 0 <= i < |all| :: all[i] in place && place[all[i]] == i && all[i] in repr
  }

  lemma AdmitOne(all: seq<Connection>, place: map<Connection, Handle>, repr: set<Connection>, hs: seq<Handle>,
                 cs: seq<Connection?>, items: seq<Owned>, queue: seq<OwnedMessage>, c: Connection)
    requires Placed(all, place, repr) && Points(all, hs, cs) && Holds(all, items, queue) && c !in repr
    ensures Placed(all + [c], place[c := |all|], repr + {c})
    ensures Points(all + [c], hs + [|all|], cs + [c]) && Holds(all + [c], items, queue)
  {
  }

  /** Which of the approved connections a pointer is, if any. */
  function HandleOf(all: seq<Connection>, place: map<Connection, Handle>, p: Connection?): (h: Option<Handle>) {
    if p != null && p in place && place[p] < |all| && all[place[p]] == p then Some(place[p]) else None
  }

  predicate Holds(all: seq<Connection>, items: seq<Owned>, queue: seq<OwnedMessage>) {
    && |queue| == |items|
    && forall i | 0 <= i < |items| ::
         items[i].remote < |all| && queue[i] == OwnedMessage(all[items[i].remote], items[i].msg)
  }

  /** The pointer to h after a broadcast. */
  function Pruned(s: Server, all: seq<Connection>, h: Handle): Connection?
    requires h < |all|
  {
    if IsConnected(s, h) then all[h] else null
  }

  /** m has been sent to the connected ones among hs, except to g. */
  predicate SentTo(s: Server, ends: seq<C.Endpoint>, hs: seq<Handle>, m: Message, g: Option<Handle>) {
    |ends| == |s.ends|
    && forall h: Handle | h < |ends| :: ends[h] == SentEnd(s, h, hs, m, g)
  }

  function SentEnd(s: Server, h: Handle, hs: seq<Handle>, m: Message, g: Option<Handle>): C.Endpoint
    requires h < |s.ends|
  {
    if h in hs && s.ends[h].open && Some(h) != g then C.Sending(s.ends[h], m) else s.ends[h]
  }

  lemma SentMore(s: Server, ends: seq<C.Endpoint>, hs: seq<Handle>, i: nat, m: Message, g: Option<Handle>)
    requires i < |hs| && hs[i] < |s.ends| && Increasing(hs) && SentTo(s, ends, hs[..i], m, g)
    ensures var h := hs[i];
            && ends[h] == s.ends[h]
            && var sent := if s.ends[h].open && Some(h) != g then ends[h := C.Sending(ends[h], m)] else ends;
               SentTo(s, sent, hs[..i + 1], m, g)
  {
    var h := hs[i];
    assert hs[..i + 1] == hs[..i] + [h];
    assert h !in hs[..i];
    var ends' := if s.ends[h].open && Some(h) != g then ends[h := C.Sending(ends[h], m)] else ends;
    forall k: Handle | k < |ends'| ensures ends'[k] == SentEnd(s, k, hs[..i + 1], m, g) {
      assert ends[k] == SentEnd(s, k, hs[..i], m, g);
    }
  }

  lemma LostMore(s: Server, before: seq<Handle>, hs: seq<Handle>, i: nat)
    requires i < |hs|
    ensures var lost := before + Lost(s, hs[..i]);
            before + Lost(s, hs[..i + 1]) == if IsConnected(s, hs[i]) then lost else lost + [hs[i]]
    ensures Lost(s, hs[..i + 1]) == [] <==> Lost(s, hs[..i]) == [] && IsConnected(s, hs[i])
  {
    assert hs[..i + 1][..i] == hs[..i];
  }

  /** The first i of the pointers have been visited. */
  predicate PrunedTo(s: Server, all: seq<Connection>, hs: seq<Handle>, cs: seq<Connection?>, i: nat) {
    && |cs| == |hs| && i <= |hs|
    && forall j | 0 <= j < |hs| :: hs[j] < |all| && cs[j] == if j < i then Pruned(s, all, hs[j]) else all[hs[j]]
  }

  lemma PrunedMore(s: Server, all: seq<Connection>, hs: seq<Handle>, cs: seq<Connection?>, i: nat)
    requires PrunedTo(s, all, hs, cs, i) && i < |hs|
    ensures hs[i] < |all| && cs[i] == all[hs[i]]
    ensures PrunedTo(s, all, hs, if IsConnected(s, hs[i]) then cs else cs[i := null], i + 1)
  {
  }

  /** The loop of MessageAllClients has visited the first i clients. */
  predicate Visited(s: Server, all: seq<Connection>, i: nat, ends: seq<C.Endpoint>, cs: seq<Connection?>,
                    gone: seq<Handle>, invalid: bool, m: Message, g: Option<Handle>) {
    && i <= |s.deq| && PrunedTo(s, all, s.deq, cs, i) && SentTo(s, ends, s.deq[..i], m, g)
    && gone == s.gone + Lost(s, s.deq[..i]) && (invalid <==> Lost(s, s.deq[..i]) != [])
  }

  lemma VisitedMore(s: Server, all: seq<Connection>, i: nat, ends: seq<C.Endpoint>, cs: seq<Connection?>,
                    gone: seq<Handle>, invalid: bool, m: Message, g: Option<Handle>)
    requires Visited(s, all, i, ends, cs, gone, invalid, m, g) && i < |s.deq| && |s.ends| == |all| && Increasing(s.deq)
    ensures var h := s.deq[i];
            && h < |all| && cs[i] == all[h] && ends[h] == s.ends[h]
            && var dead := !s.ends[h].open;
               Visited(s, all, i + 1,
                       if !dead && Some(h) != g then ends[h := C.Sending(ends[h], m)] else ends,
                       if dead then cs[i := null] else cs,
                       if dead then gone + [h] else gone, invalid || dead, m, g)
  {
    PrunedMore(s, all, s.deq, cs, i);
    SentMore(s, ends, s.deq, i, m, g);
    LostMore(s, s.gone, s.deq, i);
  }

  lemma VisitedAll(s: Server, all: seq<Connection>, ends: seq<C.Endpoint>, cs: seq<Connection?>,
                   gone: seq<Handle>, invalid: bool, m: Message, g: Option<Handle>)
    requires Visited(s, all, |s.deq|, ends, cs, gone, invalid, m, g)
    ensures PrunedTo(s, all, s.deq, cs, |s.deq|) && SentTo(s, ends, s.deq, m, g)
    ensures gone == s.gone + Lost(s, s.deq) && (invalid <==> Lost(s, s.deq) != [])
  {
    assert s.deq[..|s.deq|] == s.deq;
  }

  lemma VisitedNone(s: Server, all: seq<Connection>, cs: seq<Connection?>, m: Message, g: Option<Handle>)
    requires Points(all, s.deq, cs)
    ensures Visited(s, all, 0, s.ends, cs, s.gone, false, m, g)
  {
    assert s.gone + [] == s.gone;
  }

  lemma IsMessageAll(s: Server, s': Server, m: Message, g: Option<Handle>)
    requires SentTo(s, s'.ends, s.deq, m, g)
    requires s' == s.(ends := s'.ends, deq := Alive(s, s.deq), gone := s.gone + Lost(s, s.deq))
    ensures s' == MessageAll(s, m, g)
  {
    var ends := MessageAll(s, m, g).ends;
    forall i | 0 <= i < |ends| ensures s'.ends[i] == ends[i] {}
    assert s'.ends == ends;
  }

  /** If the pointers to the connections that are not connected have been set to null, removing the nulls leaves the
      pointers to those that are. */
  lemma {:induction false} NonNullIsAlive(s: Server, all: seq<Connection>, hs: seq<Handle>, cs: seq<Connection?>)
    requires PrunedTo(s, all, hs, cs, |hs|)
    ensures Points(all, Alive(s, hs), NonNull(cs))
  {
    if hs != [] { NonNullIsAlive(s, all, hs[..|hs| - 1], cs[..|cs| - 1]); }
  }

  lemma {:induction false} AllAlive(s: Server, hs: seq<Handle>)
    requires Lost(s, hs) == []
    ensures Alive(s, hs) == hs && forall h | h in hs :: IsConnected(s, h)
  {
    if hs != [] {
      AllAlive(s, hs[..|hs| - 1]);
      assert hs == hs[..|hs| - 1] + [hs[|hs| - 1]];
    }
  }

  method RemoveNulls(cs: seq<Connection?>) returns (kept: seq<Connection?>)
    ensures kept == NonNull(cs)
  {
    kept := [];
    for i := 0 to |cs|
      invariant kept == NonNull(cs[..i])
    {
      assert cs[..i + 1][..i] == cs[..i];
      if cs[i] != null { kept := kept + [cs[i]]; }
    }
    assert cs[..|cs|] == cs;
  }

  /** What is left of the pointers cs to the connections hs. */
  method Kept(cs: seq<Connection?>, invalid: bool, ghost s: Server, ghost all: seq<Connection>, ghost hs: seq<Handle>)
    returns (kept: seq<Connection?>)
    requires PrunedTo(s, all, hs, cs, |hs|) && (invalid <==> Lost(s, hs) != [])
    ensures Points(all, Alive(s, hs), kept)
  {
    NonNullIsAlive(s, all, hs, cs);
    if invalid {
      kept := RemoveNulls(cs);
    } else {
      kept := cs;
      AllAlive(s, hs);
      NoNulls(cs);
    }
  }

  lemma NextIs(s: Server, s': Server, h: Handle, m: Message, t: Server)
    requires s.incoming != [] && s.incoming[0] == Owned(h, m) && h < |s.ends|
    requires s' == Taken(s) && t == ServerModel.OnMessage(s', h, m)
    ensures t == HandleNext(s)
  {
  }

  lemma PathMore(ts: seq<Server>, t: Server)
    requires Path(ts) && IsNext(ts[|ts| - 1], t)
    ensures Path(ts + [t])
  {
  }

  class CustomServer {
    var connections: seq<Connection?>   // m_deqConnections
    var idCounter: Word                 // nIDCounter
    var incoming: seq<OwnedMessage>     // m_qMessagesIn
    ghost var all: seq<Connection>
    ghost var deq: seq<Handle>
    ghost var items: seq<Owned>
    ghost var queued: seq<Owned>
    ghost var handled: nat
    ghost var casts: seq<Cast>
    ghost var gone: seq<Handle>
    ghost var wasOpen: seq<bool>
    ghost var place: map<Connection, Handle>
    ghost var Repr: set<Connection>

    /** The connections are different objects, and the pointers in the deque and in the queue, none of them null, are
        to the connections that the model has there. */
    ghost predicate Valid()
      reads this
    {
      Placed(all, place, Repr) && Points(all, deq, connections) && Holds(all, items, incoming)
    }

    ghost function View(): Server
      reads this, all
    {
      Server(EndsOf(all), deq, idCounter, items, queued, handled, casts, gone, wasOpen)
    }

    constructor ()
      ensures Valid() && View() == START && Repr == {}
    {
      connections, idCounter, incoming := [], FIRST_ID, [];
      all, deq, items, queued, handled, casts, gone, wasOpen, place, Repr := [], [], [], [], 0, [], [], [], map[], {};
    }

    /** Everything but the container of connections and its history is as it was. */
    twostate predicate Steady()
      reads this
    {
      && all == old(all) && place == old(place) && Repr == old(Repr)
      && incoming == old(incoming) && items == old(items) && queued == old(queued) && handled == old(handled)
      && casts == old(casts) && idCounter == old(idCounter) && wasOpen == old(wasOpen)
    }

    /** OnClientDisconnect */
    method OnClientDisconnect(ghost h: Handle)
      modifies this`gone
      ensures gone == old(gone) + [h]
    {
      gone := gone + [h];
    }

    /** MessageClient */
    method MessageClient(client: Connection, m: Message)
      requires Valid() && client in all
      modifies this, Repr
      ensures Valid() && connections == old(connections)
      ensures View() == ServerModel.MessageClient(old(View()), old(HandleOf(all, place, client).value), m)
    {
      if client.IsConnected() {
        Tell(client, m);
      } else {
        GiveUp(client);
      }
    }

    method Tell(client: Connection, m: Message)
      requires Placed(all, place, Repr) && client in all
      modifies client
      ensures var h := HandleOf(all, place, client).value;
              EndsOf(all) == old(EndsOf(all))[h := C.Sending(old(EndsOf(all))[h], m)]
    {
      ghost var h := HandleOf(all, place, client).value;
      client.Send(m);
      assert EndsOf(all) == old(EndsOf(all))[h := C.Sending(old(EndsOf(all))[h], m)];
    }

    /** The error branch of MessageClient: resetting its own pointer makes the code look for nulls in the deque, and
        there are none. */
    method GiveUp(client: Connection)
      requires Valid() && client in all
      modifies this
      ensures Steady() && deq == old(deq) && connections == old(connections) && EndsOf(all) == old(EndsOf(all))
      ensures gone == old(gone) + [HandleOf(all, place, client).value]
    {
      OnClientDisconnect(HandleOf(all, place, client).value);
      NoNulls(connections);
      connections := RemoveNulls(connections);
    }

    /** One turn of the loop of MessageAllClients: sends, or sets the pointer of a dead client to null. */
    method Visit(i: nat, m: Message, ignore: Connection?) returns (dead: bool)
      requires |connections| == |deq| && i < |deq| && deq[i] < |all| && connections[i] == all[deq[i]]
      requires Placed(all, place, Repr)
      modifies this, Repr
      ensures Steady() && deq == old(deq)
      ensures dead <==> !old(EndsOf(all))[deq[i]].open
      ensures connections == if dead then old(connections)[i := null] else old(connections)
      ensures gone == if dead then old(gone) + [deq[i]] else old(gone)
      ensures EndsOf(all) == if !dead && Some(deq[i]) != HandleOf(all, place, ignore)
                        then old(EndsOf(all))[deq[i] := C.Sending(old(EndsOf(all))[deq[i]], m)] else old(EndsOf(all))
    {
      var client := connections[i];
      dead := client == null || !client.IsConnected();
      if !dead {
        if client != ignore { client.Send(m); }
      } else {
        OnClientDisconnect(deq[i]);
        connections := connections[i := null];
      }
      assert EndsOf(all) == if !dead && Some(deq[i]) != HandleOf(all, place, ignore)
                       then old(EndsOf(all))[deq[i] := C.Sending(old(EndsOf(all))[deq[i]], m)] else old(EndsOf(all));
    }

    /** The loop of MessageAllClients */
    method SendToAll(m: Message, ignore: Connection?) returns (invalid: bool)
      requires Valid() && Increasing(deq)
      modifies this, Repr
      ensures Steady() && deq == old(deq)
      ensures Visited(old(View()), all, |deq|, EndsOf(all), connections, gone, invalid, m, HandleOf(all, place, ignore))
    {
      ghost var s, g := View(), HandleOf(all, place, ignore);
      invalid := false;
      VisitedNone(s, all, connections, m, g);
      for i := 0 to |connections|
        invariant Steady() && deq == s.deq && |connections| == |deq|
        invariant Visited(s, all, i, EndsOf(all), connections, gone, invalid, m, g)
      {
        VisitedMore(s, all, i, EndsOf(all), connections, gone, invalid, m, g);
        var dead := Visit(i, m, ignore);
        invalid := invalid || dead;
      }
    }

    /** The erase and std::remove at the end of MessageAllClients */
    method Purge(invalid: bool, ghost s: Server)
      requires PrunedTo(s, all, deq, connections, |deq|) && (invalid <==> Lost(s, deq) != [])
      modifies this
      ensures Steady() && gone == old(gone) && EndsOf(all) == old(EndsOf(all))
      ensures deq == Alive(s, old(deq)) && Points(all, deq, connections)
    {
      connections := Kept(connections, invalid, s, all, deq);
      deq := Alive(s, deq);
    }

    /** MessageAllClients */
    method MessageAllClients(m: Message, ignore: Connection?)
      requires Valid() && Increasing(deq)
      modifies this, Repr
      ensures Valid() && Steady() && View() == MessageAll(old(View()), m, HandleOf(all, place, ignore))
    {
      ghost var s := View();
      var invalid := SendToAll(m, ignore);
      VisitedAll(s, all, EndsOf(all), connections, gone, invalid, m, HandleOf(all, place, ignore));
      Purge(invalid, s);
      IsMessageAll(s, View(), m, HandleOf(all, place, ignore));
    }

    /** The handler of async_accept, when OnClientConnect sends the greeting and allows the client or not. */
    method OnAccept(error: bool, open: bool, greeting: seq<Message>, allowed: bool)
      requires Valid()
      modifies this
      ensures Valid() && fresh(Repr - old(Repr))
      ensures View() == if error then old(View()) else Arrived(old(View()), open, greeting, allowed)
    {
      if !error {
        var client := Greet(open, greeting);
        if allowed { Approve(client, open, greeting); }
      }
    }

    method Approve(client: Connection, open: bool, ghost greeting: seq<Message>)
      requires Valid() && client !in Repr && client.View() == SendAllTo(C.NEW_ENDPOINT.(open := open), greeting)
      modifies this, client
      ensures Valid() && Repr == old(Repr) + {client}
      ensures View() == Arrived(old(View()), open, greeting, true)
    {
      client.ConnectToClient(idCounter);
      Admit(client, open);
    }

    /** A new connection, and what OnClientConnect sends to it. */
    method Greet(open: bool, greeting: seq<Message>) returns (client: Connection)
      ensures fresh(client) && client.View() == SendAllTo(C.NEW_ENDPOINT.(open := open), greeting)
    {
      client := new Connection(open);
      for i := 0 to |greeting|
        invariant client.View() == SendAllTo(C.NEW_ENDPOINT.(open := open), greeting[..i])
      {
        assert greeting[..i + 1] == greeting[..i] + [greeting[i]];
        client.Send(greeting[i]);
      }
      assert greeting[..|greeting|] == greeting;
    }

    /** m_deqConnections.push_back, and the step of nIDCounter */
    method Admit(client: Connection, open: bool)
      requires Valid() && client !in Repr
      modifies this
      ensures Valid() && Repr == old(Repr) + {client}
      ensures View() == old(View()).(
                ends := old(View()).ends + [client.View()], deq := old(deq) + [|old(all)|],
                counter := (old(idCounter) + 1) % TWO_32, wasOpen := old(wasOpen) + [open])
    {
      AdmitOne(all, place, Repr, deq, connections, items, incoming, client);
      place := place[client := |all|];
      deq := deq + [|all|];
      all := all + [client];
      connections := connections + [client];
      idCounter := (idCounter + 1) % TWO_32;
      wasOpen := wasOpen + [open];
      Repr := Repr + {client};
      assert EndsOf(all) == old(EndsOf(all)) + [client.View()];
    }

    /** The message that tells everybody who says hello. */
    method Compose(client: Connection) returns (m: Message)
      ensures m == Hello(client.View().id)
    {
      var reply := new SerialMessage(SERVER_MESSAGE);
      reply.Push(WordBytes(client.id));
      m := reply.View();
    }

    /** The branch of CustomServer::OnMessage for MessageAll */
    method OnMessageAll(client: Connection)
      requires Valid() && Increasing(deq) && client in all
      modifies this, Repr
      ensures Valid() && all == old(all) && Repr == old(Repr) && incoming == old(incoming)
      ensures View() == Broadcast(old(View()), old(HandleOf(all, place, client).value))
    {
      ghost var s, h := View(), HandleOf(all, place, client).value;
      var hello := Compose(client);
      MessageAllClients(hello, client);
      Record(Cast(h, s.ends[h].id, Without(Alive(s, s.deq), h)));
    }

    ghost method Record(cast: Cast)
      requires Valid()
      modifies this`casts
      ensures Valid() && View() == old(View()).(casts := old(casts) + [cast])
    {
      casts := casts + [cast];
    }

    /** CustomServer::OnMessage */
    method OnMessage(client: Connection, m: Message)
      requires Valid() && Increasing(deq) && client in all
      modifies this, Repr
      ensures Valid() && all == old(all) && Repr == old(Repr) && incoming == old(incoming)
      ensures View() == ServerModel.OnMessage(old(View()), old(HandleOf(all, place, client).value), m)
    {
      if m.id == SERVER_PING {
        Tell(client, m);
      } else if m.id == MESSAGE_ALL {
        OnMessageAll(client);
      }
    }

    /** pop_front */
    method PopIncoming() returns (item: OwnedMessage)
      requires Valid() && incoming != []
      modifies this`incoming, this`items, this`handled
      ensures Valid() && item.remote in all
      ensures HandleOf(all, place, item.remote) == Some(old(items)[0].remote) && item.msg == old(items)[0].msg
      ensures incoming == old(incoming)[1..]
      ensures View() == old(View()).(incoming := old(items)[1..], handled := old(handled) + 1)
    {
      item := incoming[0];
      incoming, items := incoming[1..], items[1..];
      handled := handled + 1;
    }

    /** One iteration of the loop of Update. */
    method HandleOne()
      requires Valid() && incoming != [] && Increasing(deq) && items[0].remote < |all|
      modifies this, Repr
      ensures Valid() && Repr == old(Repr) && incoming == old(incoming)[1..]
      ensures View() == HandleNext(old(View()))
    {
      ghost var s := View();
      var item := PopIncoming();
      ghost var s', h := View(), s.incoming[0].remote;
      OnMessage(item.remote, item.msg);
      NextIs(s, s', h, item.msg, View());
    }

    /** The body of the loop of Update, which keeps the order of the deque. */
    method HandleMore(ghost ts: seq<Server>) returns (ghost ts': seq<Server>)
      requires Valid() && incoming != [] && Increasing(deq) && Path(ts) && View() == ts[|ts| - 1]
      modifies this, Repr
      ensures Valid() && Increasing(deq) && Repr == old(Repr) && |incoming| == |old(incoming)| - 1
      ensures |ts'| == |ts| + 1 && ts'[0] == ts[0] && Path(ts') && View() == ts'[|ts|]
    {
      ghost var t := View();
      HandleOne();
      UpdateSame(t, View());
      PathMore(ts, View());
      ts' := ts + [View()];
    }

    /** Update without waiting, when no message arrives meanwhile: it handles as many messages as there are, up to the
        budget. */
    method UpdateOnce(nMaxMessages: nat) returns (ghost ts: seq<Server>)
      requires Valid() && Increasing(deq)
      modifies this, Repr
      ensures Valid() && Increasing(deq) && Repr == old(Repr)
      ensures |ts| == 1 + if nMaxMessages <= |old(incoming)| then nMaxMessages else |old(incoming)|
      ensures ts[0] == old(View()) && Path(ts) && View() == ts[|ts| - 1]
    {
      ts := [View()];
      var nMessageCount := 0;
      while nMessageCount < nMaxMessages && incoming != []
        invariant nMessageCount <= nMaxMessages && |incoming| == |old(incoming)| - nMessageCount
        invariant Valid() && Increasing(deq) && Repr == old(Repr)
        invariant |ts| == nMessageCount + 1 && ts[0] == old(View()) && Path(ts) && View() == ts[nMessageCount]
      {
        ts := HandleMore(ts);
        nMessageCount := nMessageCount + 1;
      }
    }

    /** AddToIncomingMessageQueue's push_back */
    method Enqueue(client: Connection, m: Message)
      requires Valid() && client in all
      modifies this`incoming, this`items, this`queued
      ensures var item := OwnedBy(HandleOf(all, place, client).value, [m]);
              Valid() && View() == old(View()).(incoming := old(items) + item, queued := old(queued) + item)
    {
      ghost var item := Owned(HandleOf(all, place, client).value, m);
      incoming, items := incoming + [OwnedMessage(client, m)], items + [item];
      queued := queued + [item];
      assert OwnedBy(item.remote, [m]) == [item];
    }

    /** The handlers of ReadHeader and ReadBody of one of the connections. */
    method OnRead(client: Connection, error: bool)
      requires Valid() && client in all
      requires client.reading.Some? && CT.ReaderOk(client.ReaderView())
      requires !error ==> |client.reading.value.got| == client.reading.value.want
      modifies this`incoming, this`items, this`queued, client
      ensures Valid()
      ensures View() == Deliver(old(View()), old(HandleOf(all, place, client).value),
                                C.Moved(old(client.View()), [], if error then C.FailRead else C.FinishRead))
    {
      ghost var s, h := View(), HandleOf(all, place, client).value;
      var count := |client.incoming|;
      ReadHandler(client, error);
      assert EndsOf(all) == s.ends[h := client.View()];
      DeliverIs(s, h, client.View());
      if count < |client.incoming| {
        Enqueue(client, client.incoming[count]);
      }
    }
  }

  method ReadHandler(client: Connection, error: bool)
    requires client.reading.Some? && CT.ReaderOk(client.ReaderView())
    requires !error ==> |client.reading.value.got| == client.reading.value.want
    modifies client
    ensures client.View() == C.Moved(old(client.View()), [], if error then C.FailRead else C.FinishRead)
    ensures |old(client.incoming)| <= |client.incoming| <= |old(client.incoming)| + 1
  {
    if client.reading.value.part.Header? {
      client.OnHeaderRead(error);
    } else {
      client.OnBodyRead(error);
    }
  }

  /** A handler that has delivered one message has put that into the shared queue. */
  lemma DeliverIs(s: Server, h: Handle, e: C.Endpoint)
    requires h < |s.ends| && |s.ends[h].reader.delivered| <= |e.reader.delivered| <= |s.ends[h].reader.delivered| + 1
    ensures var n, s' := |s.ends[h].reader.delivered|, s.(ends := s.ends[h := e]);
            Deliver(s, h, e) == if n < |e.reader.delivered|
                                then s'.(incoming := s.incoming + OwnedBy(h, [e.reader.delivered[n]]),
                                         queued := s.queued + OwnedBy(h, [e.reader.delivered[n]]))
                                else s'
  {
    var n := |s.ends[h].reader.delivered|;
    if n < |e.reader.delivered| {
      assert e.reader.delivered[n..] == [e.reader.delivered[n]];
    } else {
      assert s.incoming + OwnedBy(h, []) == s.incoming && s.queued + OwnedBy(h, []) == s.queued;
    }
  }
}
