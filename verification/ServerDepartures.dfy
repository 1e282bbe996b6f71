/** What becomes of a connection that has failed: its socket is closed, and the next broadcast takes it out of the deque
    and reports it. */
module ServerDepartures {
  import opened Base
  import opened Framing
  import opened ServerModel
  import opened ServerTheorems
  import C = ConnectionModel
  import CT = ConnectionTheorems

  /** A connection that is open waits for messages, with no failed write behind it. */
  predicate EndHealthy(e: C.Endpoint) { CT.Healthy(e) && (e.open ==> e.reader.started) }

  /** Every connection is healthy; it is in the deque until it has been reported, and only a closed one is reported. */
  ghost predicate Accounted(s: Server) {
    && (forall h: Handle | h < |s.ends| :: EndHealthy(s.ends[h]))
    && (forall h: Handle | h < |s.ends| :: h in s.deq || h in s.gone)
    && (forall h | h in s.gone :: h < |s.ends| && !s.ends[h].open)
  }

  /** The event sends to all clients. */
  predicate SendsToAll(s: Server, e: Event) {
    e.TellAll? || (e.Update? && s.incoming != [] && s.incoming[0].msg.id == MESSAGE_ALL)
  }

  lemma MessageAllAccounts(s: Server, m: Message, ignore: Option<Handle>, s': Server)
    requires Accounted(s) && DequeOk(s) && s' == MessageAll(s, m, ignore)
    ensures Accounted(s') && s.gone <= s'.gone
    ensures forall h: Handle | h < |s.ends| && !s.ends[h].open :: h !in s'.deq && h in s'.gone
    ensures forall h: Handle | h < |s.ends| && !s.ends[h].open :: s'.ends[h] == s.ends[h]
    ensures forall h | h in s'.deq :: h in s.deq
  {
    AliveIsFilter(s, s.deq);
    forall h: Handle | h < |s'.ends| ensures EndHealthy(s'.ends[h]) { assert EndHealthy(s.ends[h]); }
  }

  lemma MoveHealthy(e: C.Endpoint, stream: seq<Byte>, move: C.Move)
    requires EndHealthy(e) && C.CanMove(e, stream, move) && IoMove(move)
    ensures EndHealthy(C.Moved(e, stream, move))
  {
    CT.MoveHealthy(e, stream, move);
  }

  /** What other events do: connections stay where they are, and may close. */
  lemma OtherAccounts(s: Server, e: Event, s': Server)
    requires Accounted(s) && Enabled(s, e) && s' == Apply(s, e) && !SendsToAll(s, e)
    ensures Accounted(s') && s.gone <= s'.gone
    ensures forall h | h in s'.deq :: h in s.deq || h >= |s.ends|
  {
    match e
    case Arrive(open, greeting, allowed) => if allowed { ArriveAccounts(s, open, greeting); }
    case Handler(h, stream, move) =>
      MoveHealthy(s.ends[h], stream, move);
      HandlerSame(s, h, stream, move);
    case Tell(h, m) => SendHealthy(s, h, m);
    case Update => SendHealthy(Taken(s), s.incoming[0].remote, s.incoming[0].msg);
  }

  lemma SendHealthy(s: Server, h: Handle, m: Message)
    requires Accounted(s) && h < |s.ends|
    ensures Accounted(SendTo(s, h, m)) && Accounted(s.(gone := if s.ends[h].open then s.gone else s.gone + [h]))
  {
    assert EndHealthy(s.ends[h]);
  }

  lemma ArriveAccounts(s: Server, open: bool, greeting: seq<Message>)
    requires Accounted(s)
    ensures Accounted(Arrived(s, open, greeting, true))
  {
    var s', n := Arrived(s, open, greeting, true), |s.ends|;
    assert s'.deq[|s.deq|] == n;
    forall h: Handle | h < |s'.ends| ensures EndHealthy(s'.ends[h]) && (h in s'.deq || h in s'.gone) {
      if h < n { assert EndHealthy(s.ends[h]) && s'.ends[h] == s.ends[h]; }
    }
  }

  lemma EventAccounts(s: Server, e: Event, s': Server)
    requires Accounted(s) && DequeOk(s) && Enabled(s, e) && s' == Apply(s, e)
    ensures Accounted(s') && s.gone <= s'.gone
    ensures forall h | h in s'.deq :: h in s.deq || h >= |s.ends|
    ensures SendsToAll(s, e) ==>
              forall h: Handle | h < |s.ends| && !s.ends[h].open ::
                h !in s'.deq && h in s'.gone && h < |s'.ends| && s'.ends[h] == s.ends[h]
  {
    if e.TellAll? { MessageAllAccounts(s, e.m, e.ignore, s'); }
    else if SendsToAll(s, e) {
      var c := s.incoming[0].remote;
      MessageAllAccounts(Taken(s), Hello(s.ends[c].id), Some(c), s'.(casts := s.casts));
    } else { OtherAccounts(s, e, s'); }
  }

  lemma {:induction false} RunAccounts(es: seq<Event>, s: Server)
    requires Exec(START, es) == Some(s)
    ensures IdsOk(s) && Accounted(s)
  {
    RunKept(es, s);
    if es != [] {
      var m := Exec(START, es[..|es| - 1]).value;
      RunAccounts(es[..|es| - 1], m);
      EventAccounts(m, es[|es| - 1], s);
    }
  }

  /** No connection that is open is ever dropped from the deque or reported as gone. */
  lemma OpenIsListed(es: seq<Event>, s: Server, h: Handle)
    requires Exec(START, es) == Some(s) && h < |s.ends| && s.ends[h].open
    ensures h in s.deq && h !in s.gone
  {
    RunAccounts(es, s);
  }

  /** Connection h has been closed; or it has even been purged and reported. */
  ghost predicate Closed(s: Server, h: Handle) { h < |s.ends| && !s.ends[h].open && (h in s.deq || h in s.gone) }

  ghost predicate Purged(s: Server, h: Handle) { h < |s.ends| && !s.ends[h].open && h !in s.deq && h in s.gone }

  lemma {:induction false} ClosedStays(s: Server, es: seq<Event>, s': Server, h: Handle)
    requires IdsOk(s) && Accounted(s) && Exec(s, es) == Some(s') && Closed(s, h)
    ensures IdsOk(s') && Accounted(s') && Closed(s', h) && (Purged(s, h) ==> Purged(s', h))
  {
    if es != [] {
      var init, e := es[..|es| - 1], es[|es| - 1];
      var m := Exec(s, init).value;
      ClosedStays(s, init, m, h);
      EventKept(m, e);
      EventAccounts(m, e, s');
      IdsStayStep(m, e, h);
    }
  }

  /** A read or a write of connection h fails, on whatever run and whatever happens next: the first broadcast after
      that, by the server itself or for a client, sends nothing to h, takes it out of the deque for good and has it
      reported to OnClientDisconnect. */
  lemma FailureIsNoticed(before: seq<Event>, s: Server, h: Handle, stream: seq<Byte>, move: C.Move,
                         between: seq<Event>, m: Server, e: Event, after: seq<Event>, z: Server)
    requires Exec(START, before) == Some(s)
    requires Enabled(s, Handler(h, stream, move)) && (move.FailRead? || move.FailWrite?)
    requires Exec(Apply(s, Handler(h, stream, move)), between) == Some(m)
    requires Enabled(m, e) && SendsToAll(m, e) && Exec(Apply(m, e), after) == Some(z)
    ensures h < |m.ends| && h < |Apply(m, e).ends| && Apply(m, e).ends[h].sent == m.ends[h].sent
    ensures h !in z.deq && h in z.gone
  {
    var f := Handler(h, stream, move);
    RunAccounts(before, s);
    EventKept(s, f);
    EventAccounts(s, f, Apply(s, f));
    ClosedStays(Apply(s, f), between, m, h);
    EventKept(m, e);
    EventAccounts(m, e, Apply(m, e));
    IdsStayStep(m, e, h);
    ClosedStays(Apply(m, e), after, z, h);
  }
}
