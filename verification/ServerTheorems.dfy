/** The server's container of connections: broadcasts as filters, and the ids that connections get. */
module ServerTheorems {
  import opened Base
  import opened Framing
  import C = ConnectionModel
  import opened ServerModel

  // ----- The filter

  predicate Increasing(hs: seq<Handle>) { forall i, j | 0 <= i < j < |hs| :: hs[i] < hs[j] }

  /** `Alive` keeps exactly the connected elements and their order; `Lost` has exactly the others. */
  lemma {:induction false} AliveIsFilter(s: Server, hs: seq<Handle>)
    requires Increasing(hs)
    ensures Increasing(Alive(s, hs)) && Increasing(Lost(s, hs))
    ensures forall h :: h in Alive(s, hs) <==> h in hs && IsConnected(s, h)
    ensures forall h :: h in Lost(s, hs) <==> h in hs && !IsConnected(s, h)
    ensures |Alive(s, hs)| + |Lost(s, hs)| == |hs|
  {
    if hs != [] {
      var init, last := hs[..|hs| - 1], hs[|hs| - 1];
      AliveIsFilter(s, init);
      assert hs == init + [last];
      assert forall h | h in init :: h < last;
      AppendIncreasing(Alive(s, init), last);
      AppendIncreasing(Lost(s, init), last);
    }
  }

  lemma AppendIncreasing(hs: seq<Handle>, last: Handle)
    requires Increasing(hs) && forall h | h in hs :: h < last
    ensures Increasing(hs + [last])
  {
    assert forall i | 0 <= i < |hs| :: hs[i] in hs;
  }

  lemma {:induction false} WithoutIsFilter(hs: seq<Handle>, x: Handle)
    requires Increasing(hs)
    ensures Increasing(Without(hs, x))
    ensures forall h :: h in Without(hs, x) <==> h in hs && h != x
  {
    if hs != [] {
      var init, last := hs[..|hs| - 1], hs[|hs| - 1];
      WithoutIsFilter(init, x);
      assert hs == init + [last];
      assert forall h | h in Without(init, x) :: h in init && h < last;
      AppendIncreasing(Without(init, x), last);
    }
  }

  // ----- What every run keeps

  function IdOf(h: Handle): Word { (FIRST_ID + h) % TWO_32 }

  /** The ids follow the order of approval; a connection whose socket was closed at its approval keeps id 0, stays
      closed and never reads. */
  ghost predicate EndOk(s: Server, h: Handle)
    requires |s.wasOpen| == |s.ends| && h < |s.ends|
  {
    && s.ends[h].id == (if s.wasOpen[h] then IdOf(h) else 0)
    && (!s.wasOpen[h] ==> !s.ends[h].open && !s.ends[h].reader.started)
  }

  ghost predicate DequeOk(s: Server) {
    Increasing(s.deq) && (forall h | h in s.deq :: h < |s.ends|)
  }

  ghost predicate IdsOk(s: Server) {
    && |s.wasOpen| == |s.ends| && s.counter == IdOf(|s.ends|)
    && DequeOk(s)
    && (forall h: Handle | h < |s.ends| :: EndOk(s, h))
  }

  lemma NextId(h: Handle)
    ensures (IdOf(h) + 1) % TWO_32 == IdOf(h + 1)
  {
  }

  lemma ArriveKept(s: Server, open: bool, greeting: seq<Message>)
    requires IdsOk(s)
    ensures IdsOk(Arrived(s, open, greeting, true))
  {
    var s' := Arrived(s, open, greeting, true);
    NextId(|s.ends|);
    AppendIncreasing(s.deq, |s.ends|);
    forall h: Handle | h < |s'.ends| ensures EndOk(s', h) {
      if h < |s.ends| { assert EndOk(s, h); }
    }
  }

  /** Nothing that EndOk looks at changes, except that sockets may close. */
  ghost predicate SameIds(s: Server, s': Server) {
    && |s'.ends| == |s.ends| && s'.wasOpen == s.wasOpen && s'.counter == s.counter
    && forall h: Handle | h < |s.ends| :: SameEnd(s.ends[h], s'.ends[h])
  }

  predicate SameEnd(e: C.Endpoint, e': C.Endpoint) {
    e'.id == e.id && (e'.open ==> e.open) && e'.reader.started == e.reader.started
  }

  lemma SameIdsKept(s: Server, s': Server)
    requires IdsOk(s) && SameIds(s, s') && DequeOk(s')
    ensures IdsOk(s')
  {
    forall h: Handle | h < |s'.ends| ensures EndOk(s', h) { assert EndOk(s, h); }
  }

  lemma MessageAllSame(s: Server, m: Message, ignore: Option<Handle>)
    requires DequeOk(s)
    ensures SameIds(s, MessageAll(s, m, ignore)) && DequeOk(MessageAll(s, m, ignore))
  {
    AliveIsFilter(s, s.deq);
  }

  lemma HandlerSame(s: Server, h: Handle, stream: seq<Byte>, move: C.Move)
    requires h < |s.ends| && IoMove(move) && C.CanMove(s.ends[h], stream, move)
    ensures var s' := Deliver(s, h, C.Moved(s.ends[h], stream, move)); SameIds(s, s') && s'.deq == s.deq
  {
  }

  lemma UpdateSame(s: Server, s': Server)
    requires DequeOk(s) && IsNext(s, s')
    ensures SameIds(s, s') && DequeOk(s')
  {
    MessageSame(Taken(s), s.incoming[0].remote, s.incoming[0].msg, s');
  }

  lemma MessageSame(s: Server, h: Handle, m: Message, s': Server)
    requires DequeOk(s) && h < |s.ends| && s' == OnMessage(s, h, m)
    ensures SameIds(s, s') && DequeOk(s')
  {
    if m.id == SERVER_PING { SendSame(s, h, m, s'); }
    else if m.id == MESSAGE_ALL { MessageAllSame(s, Hello(s.ends[h].id), Some(h)); }
  }

  lemma SendSame(s: Server, h: Handle, m: Message, s': Server)
    requires DequeOk(s) && h < |s.ends| && s' == SendTo(s, h, m)
    ensures SameIds(s, s') && DequeOk(s')
  {
  }

  lemma EventKept(s: Server, e: Event)
    requires IdsOk(s) && Enabled(s, e)
    ensures IdsOk(Apply(s, e))
  {
    var s' := Apply(s, e);
    match e
    case Arrive(open, greeting, allowed) => if allowed { ArriveKept(s, open, greeting); }
    case Handler(h, stream, move) => HandlerSame(s, h, stream, move); SameIdsKept(s, s');
    case Tell(h, m) => SameIdsKept(s, s');
    case TellAll(m, ignore) => MessageAllSame(s, m, ignore); SameIdsKept(s, s');
    case Update => UpdateSame(s, s'); SameIdsKept(s, s');
  }

  lemma {:induction false} RunKept(es: seq<Event>, s: Server)
    requires Exec(START, es) == Some(s)
    ensures IdsOk(s)
  {
    if es != [] {
      var m := Exec(START, es[..|es| - 1]).value;
      RunKept(es[..|es| - 1], m);
      EventKept(m, es[|es| - 1]);
    }
  }

  // ----- Connection identity

  /** Over every run of approvals, denials, purges and messages: as long as the counter has not wrapped around, the
      ids in the deque strictly increase from front to back, from 10000 on and below the counter, provided the sockets
      were open when they were approved. */
  lemma IdsIncrease(es: seq<Event>, s: Server)
    requires Exec(START, es) == Some(s)
    requires (forall h | 0 <= h < |s.wasOpen| :: s.wasOpen[h]) && FIRST_ID + |s.ends| < TWO_32
    ensures forall h | h in s.deq :: h < |s.ends| && FIRST_ID <= s.ends[h].id < s.counter
    ensures forall i, j | 0 <= i < j < |s.deq| ::
              s.deq[i] < |s.ends| && s.deq[j] < |s.ends| && s.ends[s.deq[i]].id < s.ends[s.deq[j]].id
  {
    RunKept(es, s);
    IdBeforeWrap(|s.ends|);
    forall h | h in s.deq ensures h < |s.ends| && s.ends[h].id == FIRST_ID + h {
      assert EndOk(s, h);
      IdBeforeWrap(h);
    }
    assert forall i | 0 <= i < |s.deq| :: s.deq[i] in s.deq;
  }

  /** In numbers: the h-th connection that is approved, counting from 0, gets the id 10000 + h. */
  lemma IdsFromTenThousand(es: seq<Event>, s: Server, h: Handle)
    requires Exec(START, es) == Some(s) && h < |s.ends|
    ensures h < |s.wasOpen| && (s.wasOpen[h] && 10000 + h < 0x1_0000_0000 ==> s.ends[h].id == 10000 + h)
  {
    RunKept(es, s);
    assert EndOk(s, h);
    if 10000 + h < 0x1_0000_0000 { IdBeforeWrap(h); }
  }

  lemma IdBeforeWrap(h: Handle)
    requires FIRST_ID + h < TWO_32
    ensures IdOf(h) == FIRST_ID + h
  {
  }

  /** Two connections that were open when approved have the same id exactly when a multiple of 2^32 approvals lies
      between them; so the first 2^32 ids are pairwise distinct. */
  lemma SameIdIff(es: seq<Event>, s: Server, g: Handle, h: Handle)
    requires Exec(START, es) == Some(s) && g <= h < |s.ends| && |s.wasOpen| == |s.ends| && s.wasOpen[g] && s.wasOpen[h]
    ensures s.ends[g].id == s.ends[h].id <==> (h - g) % TWO_32 == 0
    ensures |s.ends| <= TWO_32 && g != h ==> s.ends[g].id != s.ends[h].id
  {
    RunKept(es, s);
    assert EndOk(s, g) && EndOk(s, h);
    IdsAgree(g, h);
  }

  lemma IdsAgree(g: Handle, h: Handle)
    requires g <= h
    ensures IdOf(g) == IdOf(h) <==> (h - g) % TWO_32 == 0
    ensures 0 < h - g < TWO_32 ==> IdOf(g) != IdOf(h)
  {
    SameRemainder(FIRST_ID + g, FIRST_ID + h);
  }

  lemma SameRemainder(a: nat, b: nat)
    requires a <= b
    ensures a % TWO_32 == b % TWO_32 <==> (b - a) % TWO_32 == 0
  {
    var q, r := a / TWO_32, (b - a) / TWO_32;
    assert a == q * TWO_32 + a % TWO_32;
    assert b - a == r * TWO_32 + (b - a) % TWO_32;
  }

  /** The id of a connection never changes, and a closed socket is never open again. */
  lemma {:induction false} IdsStay(s: Server, es: seq<Event>, h: Handle)
    requires IdsOk(s) && h < |s.ends| && Exec(s, es).Some?
    ensures var s' := Exec(s, es).value;
            IdsOk(s') && h < |s'.ends| && s'.ends[h].id == s.ends[h].id && (s'.ends[h].open ==> s.ends[h].open)
  {
    if es != [] {
      var init, e := es[..|es| - 1], es[|es| - 1];
      IdsStay(s, init, h);
      var m := Exec(s, init).value;
      EventKept(m, e);
      IdsStayStep(m, e, h);
    }
  }

  lemma IdsStayStep(s: Server, e: Event, h: Handle)
    requires IdsOk(s) && h < |s.ends| && Enabled(s, e)
    ensures var s' := Apply(s, e);
            h < |s'.ends| && s'.ends[h].id == s.ends[h].id && (s'.ends[h].open ==> s.ends[h].open)
  {
    match e
    case Handler(g, stream, move) => HandlerSame(s, g, stream, move);
    case TellAll(m, ignore) => MessageAllSame(s, m, ignore);
    case Update => UpdateSame(s, Apply(s, e));
    case _ =>
  }

  // ----- Broadcasts

  /** MessageAllClients sends once to each connected client but the ignored one, leaves in the deque the connected
      clients in their order, and reports each of the others once. */
  lemma BroadcastAndPurge(es: seq<Event>, s: Server, m: Message, ignore: Option<Handle>, h: Handle)
    requires Exec(START, es) == Some(s) && h < |s.ends|
    ensures var s' := MessageAll(s, m, ignore);
            && |s'.ends| == |s.ends|
            && s'.ends[h] == (if h in s.deq && s.ends[h].open && Some(h) != ignore then C.Sending(s.ends[h], m)
                              else s.ends[h])
            && (h in s'.deq <==> h in s.deq && s.ends[h].open) && Increasing(s'.deq)
            && multiset(s'.gone)[h] == multiset(s.gone)[h] + if h in s.deq && !s.ends[h].open then 1 else 0
  {
    RunKept(es, s);
    AliveIsFilter(s, s.deq);
    OnceIn(Lost(s, s.deq), h);
  }

  lemma {:induction false} OnceIn(hs: seq<Handle>, h: Handle)
    requires Increasing(hs)
    ensures multiset(hs)[h] == if h in hs then 1 else 0
  {
    if hs != [] {
      var init, last := hs[..|hs| - 1], hs[|hs| - 1];
      OnceIn(init, h);
      assert hs == init + [last];
      assert forall g | g in init :: g < last;
    }
  }

  /** The calls of MessageClient for h in a run. */
  function Tells(es: seq<Event>, h: Handle): nat {
    if es == [] then 0
    else
      var e := es[|es| - 1];
      Tells(es[..|es| - 1], h) + if e.Tell? && e.h == h then 1 else 0
  }

  /** MessageClient never removes a client: over any run of its calls the deque stays what it was, and each call for a
      client that is not connected reports that client once more. */
  lemma {:induction false} DeadClientStays(s: Server, es: seq<Event>, h: Handle)
    requires h < |s.ends| && Exec(s, es).Some? && forall e | e in es :: e.Tell?
    ensures var s' := Exec(s, es).value;
            && s'.deq == s.deq && |s'.ends| == |s.ends| && s'.ends[h].open == s.ends[h].open
            && multiset(s'.gone)[h] == multiset(s.gone)[h] + if s.ends[h].open then 0 else Tells(es, h)
  {
    if es != [] {
      var init, e := es[..|es| - 1], es[|es| - 1];
      assert forall f | f in init :: f in es;
      DeadClientStays(s, init, h);
      assert e in es;
      TellOnce(Exec(s, init).value, e, h);
    }
  }

  lemma TellOnce(s: Server, e: Event, h: Handle)
    requires h < |s.ends| && e.Tell? && Enabled(s, e)
    ensures var s' := Apply(s, e);
            && s'.deq == s.deq && |s'.ends| == |s.ends| && s'.ends[h].open == s.ends[h].open
            && multiset(s'.gone)[h] == multiset(s.gone)[h] + if !s.ends[h].open && e.h == h then 1 else 0
  {
  }

  /** The connections that queued messages come from exist. */
  predicate Sources(s: Server) { forall i | 0 <= i < |s.incoming| :: s.incoming[i].remote < |s.ends| }

  lemma BudgetStep(s: Server, t: Server)
    requires IdsOk(s) && Sources(s) && IsNext(s, t)
    ensures IdsOk(t) && Sources(t) && |t.ends| == |s.ends|
    ensures t.handled == s.handled + 1 && t.incoming == s.incoming[1..] && t.queued == s.queued
  {
    UpdateSame(s, t);
    SameIdsKept(s, t);
    MessageLeaves(Taken(s), s.incoming[0].remote, s.incoming[0].msg, t);
  }

  /** OnMessage leaves the queue alone. */
  lemma MessageLeaves(s: Server, h: Handle, m: Message, t: Server)
    requires h < |s.ends| && t == OnMessage(s, h, m)
    ensures |t.ends| == |s.ends| && t.handled == s.handled && t.incoming == s.incoming && t.queued == s.queued
  {
  }

  /** Update takes the messages from the front of the queue, one in each iteration, and keeps what every event keeps. */
  lemma {:induction false} BudgetKept(ts: seq<Server>)
    requires Path(ts) && IdsOk(ts[0]) && Sources(ts[0])
    ensures var s, t, k := ts[0], ts[|ts| - 1], |ts| - 1;
            && IdsOk(t) && Sources(t) && |t.ends| == |s.ends|
            && k <= |s.incoming| && t.incoming == s.incoming[k..] && t.handled == s.handled + k && t.queued == s.queued
  {
    if |ts| > 1 {
      var init := ts[..|ts| - 1];
      PathInit(ts, init);
      BudgetKept(init);
      BudgetStep(ts[|ts| - 2], ts[|ts| - 1]);
    }
  }

  lemma PathInit(ts: seq<Server>, init: seq<Server>)
    requires Path(ts) && |ts| > 1 && init == ts[..|ts| - 1]
    ensures Path(init) && init[0] == ts[0] && init[|init| - 1] == ts[|ts| - 2]
    ensures IsNext(ts[|ts| - 2], ts[|ts| - 1])
  {
    forall i | 0 <= i < |init| - 1 ensures IsNext(init[i], init[i + 1]) { assert IsNext(ts[i], ts[i + 1]); }
    var k := |ts| - 2;
    assert IsNext(ts[k], ts[k + 1]);
  }

  /** The iterations of Update's loop in a run. */
  function Updates(es: seq<Event>): nat {
    if es == [] then 0 else Updates(es[..|es| - 1]) + if es[|es| - 1].Update? then 1 else 0
  }

  /** The queue over any run in which messages arrive between the iterations of Update: k iterations handle the first
      k of the messages that were queued, or have been queued since, and leave the others in their order. */
  lemma {:induction false} QueueOverRun(s: Server, es: seq<Event>, s': Server)
    requires Exec(s, es) == Some(s')
    ensures s.queued <= s'.queued
    ensures var arrived, k := s.incoming + s'.queued[|s.queued|..], Updates(es);
            k <= |arrived| && s'.incoming == arrived[k..] && s'.handled == s.handled + k
  {
    if es == [] {
      assert s.incoming + [] == s.incoming;
    } else {
      var init, e := es[..|es| - 1], es[|es| - 1];
      var m := Exec(s, init).value;
      QueueOverRun(s, init, m);
      QueueStep(m, e, s');
      var more := s'.queued[|m.queued|..];
      assert s.incoming + s'.queued[|s.queued|..] == (s.incoming + m.queued[|s.queued|..]) + more;
    }
  }

  lemma QueueStep(s: Server, e: Event, s': Server)
    requires Enabled(s, e) && s' == Apply(s, e)
    ensures s.queued <= s'.queued
    ensures if e.Update? then s.incoming != [] && s'.incoming == s.incoming[1..] && s'.queued == s.queued
            else s'.incoming == s.incoming + s'.queued[|s.queued|..]
    ensures s'.handled == s.handled + if e.Update? then 1 else 0
  {
    match e
    case Update => MessageLeaves(Taken(s), s.incoming[0].remote, s.incoming[0].msg, s');
    case Handler(h, stream, move) =>
      var x := C.Moved(s.ends[h], stream, move);
      assert s'.queued == s.queued + OwnedBy(h, x.reader.delivered[|s.ends[h].reader.delivered|..]);
    case _ => assert s.incoming + [] == s.incoming;
  }

  // ----- Single sends

  /** Connection h is sent m after all that it has been sent before, and no other connection anything. */
  ghost predicate SentOnly(s: Server, s': Server, h: Handle, m: Message) {
    && |s'.ends| == |s.ends| && h < |s.ends|
    && s'.ends[h].sent == s.ends[h].sent + [m] && s'.ends[h].posted == s.ends[h].posted + [m]
    && forall g: Handle | g < |s.ends| && g != h :: s'.ends[g] == s.ends[g]
  }

  /** MessageClient: a connected client is sent the message and nobody is reported; one that is not connected is sent
      nothing and reported. */
  lemma TellReaches(s: Server, h: Handle, m: Message)
    requires h < |s.ends|
    ensures var s' := MessageClient(s, h, m);
            if s.ends[h].open then SentOnly(s, s', h, m) && s'.gone == s.gone
            else s'.ends == s.ends && s'.gone == s.gone + [h]
  {
  }

  /** OnMessage answers a ping to the connection it came from, with the very message, and to no other. */
  lemma PingAnswered(s: Server, h: Handle, m: Message)
    requires h < |s.ends| && m.id == SERVER_PING
    ensures SentOnly(s, OnMessage(s, h, m), h, m)
  {
  }

  lemma SentGrows(s: Server, e: Event, h: Handle)
    requires Enabled(s, e) && h < |s.ends|
    ensures var s' := Apply(s, e); h < |s'.ends| && s.ends[h].sent <= s'.ends[h].sent
  {
    match e
    case Handler(g, stream, move) =>
    case Update => MessageGrows(Taken(s), s.incoming[0].remote, s.incoming[0].msg, h);
    case _ =>
  }

  lemma MessageGrows(s: Server, c: Handle, m: Message, h: Handle)
    requires c < |s.ends| && h < |s.ends|
    ensures var s' := OnMessage(s, c, m); h < |s'.ends| && s.ends[h].sent <= s'.ends[h].sent
  {
  }

  lemma {:induction false} SentGrowsOver(s: Server, es: seq<Event>, s': Server, h: Handle)
    requires Exec(s, es) == Some(s') && h < |s.ends|
    ensures h < |s'.ends| && s.ends[h].sent <= s'.ends[h].sent
  {
    if es != [] {
      var m := Exec(s, es[..|es| - 1]).value;
      SentGrowsOver(s, es[..|es| - 1], m, h);
      SentGrows(m, es[|es| - 1], h);
    }
  }

  /** The greeting is the first thing an approved client is sent, whatever happens afterwards. */
  lemma GreetedFirst(s: Server, open: bool, greeting: seq<Message>, es: seq<Event>, s': Server)
    requires Exec(Arrived(s, open, greeting, true), es) == Some(s')
    ensures |s.ends| < |s'.ends| && greeting <= s'.ends[|s.ends|].sent
  {
    var m := Arrived(s, open, greeting, true);
    assert m.ends[|s.ends|].sent == greeting by { NewcomerSent(s, open, greeting, m); }
    SentGrowsOver(m, es, s', |s.ends|);
  }

  lemma NewcomerSent(s: Server, open: bool, greeting: seq<Message>, s': Server)
    requires s' == Arrived(s, open, greeting, true)
    ensures |s'.ends| == |s.ends| + 1 && s'.ends[|s.ends|].sent == [] + greeting == greeting
  {
  }
}
