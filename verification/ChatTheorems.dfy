/** What every run of the chat server keeps: one order of messages for everybody, and one departure for each client. */
module ChatTheorems {
  import opened Base
  import opened ChatModel

  // ----- Counting and picking in the log

  function Arrivals(log: seq<Message>): nat {
    if log == [] then 0 else Arrivals(log[..|log| - 1]) + if log[|log| - 1].Newcomer? then 1 else 0
  }

  function Departures(log: seq<Message>): nat {
    if log == [] then 0 else Departures(log[..|log| - 1]) + if log[|log| - 1].OneLess? then 1 else 0
  }

  /** What client c has said, in order. */
  function ChatsOf(log: seq<Message>, c: Client): seq<string> {
    if log == [] then []
    else
      var m := log[|log| - 1];
      ChatsOf(log[..|log| - 1], c) + if m.Chat? && m.from == c then [m.text] else []
  }

  lemma LogSnoc(log: seq<Message>, m: Message, c: Client)
    ensures Arrivals(log + [m]) == Arrivals(log) + if m.Newcomer? then 1 else 0
    ensures Departures(log + [m]) == Departures(log) + if m.OneLess? then 1 else 0
    ensures ChatsOf(log + [m], c) == ChatsOf(log, c) + if m.Chat? && m.from == c then [m.text] else []
  {
    assert (log + [m])[..|log|] == log;
  }

  lemma ConcatSnoc(ts: seq<string>, t: string)
    ensures Concat(ts + [t]) == Concat(ts) + t
  {
    assert (ts + [t])[..|ts|] == ts;
  }

  lemma TextsSnoc(ms: seq<Message>, m: Message)
    ensures Texts(ms + [m]) == Texts(ms) + Text(m)
  {
    assert Lines(ms + [m]) == Lines(ms) + [Text(m)];
    ConcatSnoc(Lines(ms), Text(m));
  }

  // ----- One session by itself

  predicate Quiet(x: Session) { x.outgoing == [] && x.writing.None? && !x.writeFailed && x.emitted == Texts(x.written) }

  predicate Busy(x: Session) {
    && x.outgoing != [] && x.writing.Some? && !x.writeFailed
    && |x.writing.value| <= |Text(x.outgoing[0])|
    && x.emitted + x.writing.value == Texts(x.written) + Text(x.outgoing[0])
  }

  predicate Dead(x: Session) {
    && x.outgoing != [] && x.writing.None? && x.writeFailed
    && Texts(x.written) <= x.emitted <= Texts(x.written) + Text(x.outgoing[0])
  }

  predicate WriterOk(x: Session) { x.posted == x.written + x.outgoing && (Quiet(x) || Busy(x) || Dead(x)) }

  predicate ReaderOk(x: Session) {
    && Concat(x.said) + x.buffer == x.received
    && (x.exit.Some? <==> x.writeFailed || !x.reading)
    && (x.exit.Some? ==> !x.open && |x.said| + LastWord(x) == x.exit.value.said + x.exit.value.due)
  }

  lemma PostKept(x: Session, m: Message)
    requires WriterOk(x)
    ensures WriterOk(PostTo(x, m))
  {
    var y := PostTo(x, m);
    assert y.posted == y.written + y.outgoing;
    if x.outgoing != [] { assert y.outgoing[0] == x.outgoing[0]; }
  }

  lemma WriteDoneKept(x: Session)
    requires WriterOk(x) && x.writing == Some("")
    ensures WriterOk(FrontWritten(x))
  {
    TextsSnoc(x.written, x.outgoing[0]);
    assert x.emitted + "" == x.emitted;
    assert x.posted == (x.written + [x.outgoing[0]]) + x.outgoing[1..];
  }

  lemma EmitKept(x: Session, n: nat)
    requires WriterOk(x) && x.writing.Some? && n <= |x.writing.value|
    ensures WriterOk(EmitTo(x, n))
  {
    var left := x.writing.value;
    assert (x.emitted + left[..n]) + left[n..] == x.emitted + left;
  }

  lemma WriteFailKept(x: Session)
    requires WriterOk(x) && x.writing.Some?
    ensures WriterOk(WriteFailed(x))
  {
    var sent, front, left := Texts(x.written), Text(x.outgoing[0]), x.writing.value;
    assert x.emitted == (sent + front)[..|x.emitted|];
    assert sent == (x.emitted + left)[..|sent|];
  }

  // ----- A session and the log

  /** Where the session stops listening to the log. */
  function End(x: Session, log: seq<Message>): nat { if x.exit.Some? then x.exit.value.at else |log| }

  predicate SegmentOk(x: Session, log: seq<Message>) {
    && 0 < x.joined <= End(x, log) <= |log|
    && x.posted == [Welcome] + log[x.joined..End(x, log)]
  }

  /** The announcements about client c: one on arrival, just before it begins to listen, and one on departure, just
      after it has stopped listening. */
  predicate AnnouncedOk(x: Session, c: Client, log: seq<Message>) {
    && multiset(log)[Newcomer(c)] == 1
    && multiset(log)[OneLess(c)] == (if x.exit.Some? then 1 else 0)
    && 0 < x.joined <= |log| && log[x.joined - 1] == Newcomer(c)
    && (x.exit.Some? ==> x.exit.value.at < |log| && log[x.exit.value.at] == OneLess(c))
    && ChatsOf(log, c) == x.said
  }

  predicate SessionOk(x: Session, c: Client, log: seq<Message>) {
    WriterOk(x) && ReaderOk(x) && SegmentOk(x, log) && AnnouncedOk(x, c, log)
  }

  predicate About(m: Message, c: Client) {
    (m.Newcomer? && m.who == c) || (m.OneLess? && m.who == c) || (m.Chat? && m.from == c)
  }

  /** What the invariant says of client c. */
  ghost predicate ClientOk(s: State, c: Client)
    requires c < |s.sessions|
  {
    SessionOk(s.sessions[c], c, s.log) && (c in s.clients <==> s.sessions[c].exit.None?)
  }

  ghost predicate LogOk(s: State) {
    && (forall c | c in s.clients :: c < |s.sessions|)
    && Known(s.log, |s.sessions|)
    && Arrivals(s.log) == |s.sessions|
    && Departures(s.log) + |s.clients| == |s.sessions|
  }

  ghost predicate Inv(s: State) {
    LogOk(s) && forall c: Client | c < |s.sessions| :: ClientOk(s, c)
  }

  lemma SegmentHears(x: Session, log: seq<Message>, m: Message)
    requires SegmentOk(x, log) && x.exit.None?
    ensures SegmentOk(PostTo(x, m), log + [m])
  {
    assert (log + [m])[x.joined..|log| + 1] == log[x.joined..|log|] + [m];
  }

  lemma SegmentMisses(x: Session, log: seq<Message>, m: Message)
    requires SegmentOk(x, log) && x.exit.Some?
    ensures SegmentOk(x, log + [m])
  {
    assert (log + [m])[x.joined..End(x, log)] == log[x.joined..End(x, log)];
  }

  lemma AnnouncedMore(x: Session, c: Client, log: seq<Message>, m: Message)
    requires AnnouncedOk(x, c, log) && !About(m, c)
    ensures AnnouncedOk(x, c, log + [m])
  {
    LogSnoc(log, m, c);
  }

  lemma AnnouncedChat(x: Session, c: Client, log: seq<Message>, m: Message)
    requires AnnouncedOk(x, c, log) && m.Chat? && m.from == c && m.text == x.buffer
    ensures AnnouncedOk(Drained(x), c, log + [m])
  {
    LogSnoc(log, m, c);
  }

  lemma DrainedKept(x: Session)
    requires ReaderOk(x) && x.reading && '\n' in x.buffer
    ensures ReaderOk(Drained(x))
  {
    ConcatSnoc(x.said, x.buffer);
    assert Concat(x.said + [x.buffer]) + "" == x.received;
  }

  /** A member hears a message that is not about it. */
  lemma Hears(x: Session, c: Client, log: seq<Message>, m: Message)
    requires SessionOk(x, c, log) && x.exit.None? && !About(m, c)
    ensures SessionOk(PostTo(x, m), c, log + [m])
  {
    PostKept(x, m);
    SegmentHears(x, log, m);
    AnnouncedMore(x, c, log, m);
  }

  /** Somebody who has left does not hear it. */
  lemma Misses(x: Session, c: Client, log: seq<Message>, m: Message)
    requires SessionOk(x, c, log) && x.exit.Some? && !About(m, c)
    ensures SessionOk(x, c, log + [m])
  {
    SegmentMisses(x, log, m);
    AnnouncedMore(x, c, log, m);
  }

  /** A member says something and hears itself. */
  lemma Says(x: Session, c: Client, log: seq<Message>, m: Message)
    requires SessionOk(x, c, log) && x.exit.None? && x.reading && '\n' in x.buffer
    requires m.Chat? && m.from == c && m.text == x.buffer
    ensures SessionOk(PostTo(Drained(x), m), c, log + [m])
  {
    var y := Drained(x);
    DrainedKept(x);
    AnnouncedChat(x, c, log, m);
    assert WriterOk(y);
    PostKept(y, m);
    SegmentHears(y, log, m);
  }

  /** Somebody who has left says one last thing. */
  lemma SaysLast(x: Session, c: Client, log: seq<Message>, m: Message)
    requires SessionOk(x, c, log) && x.exit.Some? && x.reading && '\n' in x.buffer
    requires m.Chat? && m.from == c && m.text == x.buffer
    ensures SessionOk(Drained(x), c, log + [m])
  {
    DrainedKept(x);
    AnnouncedChat(x, c, log, m);
    SegmentMisses(x, log, m);
  }

  /** A member, whose read or write has just failed, leaves. */
  lemma Leaves(x: Session, c: Client, log: seq<Message>)
    requires WriterOk(x) && SegmentOk(x, log) && AnnouncedOk(x, c, log) && x.exit.None? && !x.open
    requires Concat(x.said) + x.buffer == x.received && (x.writeFailed || !x.reading)
    ensures SessionOk(x.(exit := Some(Exit(|log|, |x.said|, LastWord(x)))), c, log + [OneLess(c)])
  {
    var y := x.(exit := Some(Exit(|log|, |x.said|, LastWord(x))));
    assert SegmentOk(y, log);
    SegmentMisses(y, log, OneLess(c));
    AnnouncedLeaves(x, c, log);
    assert WriterOk(y) && ReaderOk(y);
  }

  lemma AnnouncedLeaves(x: Session, c: Client, log: seq<Message>)
    requires AnnouncedOk(x, c, log) && x.exit.None?
    ensures AnnouncedOk(x.(exit := Some(Exit(|log|, |x.said|, LastWord(x)))), c, log + [OneLess(c)])
  {
    LogSnoc(log, OneLess(c), c);
  }

  lemma Arrives(log: seq<Message>, c: Client, open: bool)
    requires forall i | 0 <= i < |log| :: !About(log[i], c)
    ensures SessionOk(Welcomed(open, |log| + 1), c, log + [Newcomer(c)])
  {
    var x := Welcomed(open, |log| + 1);
    NeverMentioned(log, c);
    LogSnoc(log, Newcomer(c), c);
    assert (log + [Newcomer(c)])[|log| + 1..] == [];
    assert x.posted == [Welcome] == x.written + x.outgoing;
    assert Texts([]) + Text(Welcome) == "" + Text(Welcome);
  }

  lemma {:induction false} NeverMentioned(log: seq<Message>, c: Client)
    requires forall i | 0 <= i < |log| :: !About(log[i], c)
    ensures multiset(log)[Newcomer(c)] == 0 && multiset(log)[OneLess(c)] == 0 && ChatsOf(log, c) == []
  {
    if log != [] {
      NeverMentioned(log[..|log| - 1], c);
      assert log == log[..|log| - 1] + [log[|log| - 1]];
    }
  }

  // ----- One handler

  lemma BroadcastAt(s: State, m: Message, d: Client)
    requires d < |s.sessions|
    ensures var s' := Broadcast(s, m);
            && |s'.sessions| == |s.sessions| && s'.clients == s.clients && s'.log == s.log + [m]
            && s'.sessions[d] == if d in s.clients then PostTo(s.sessions[d], m) else s.sessions[d]
  {
  }

  lemma OtherHears(s: State, d: Client, m: Message)
    requires d < |s.sessions| && ClientOk(s, d) && !About(m, d)
    ensures SessionOk(if d in s.clients then PostTo(s.sessions[d], m) else s.sessions[d], d, s.log + [m])
  {
    if d in s.clients { Hears(s.sessions[d], d, s.log, m); } else { Misses(s.sessions[d], d, s.log, m); }
  }

  lemma SpeakKept(s: State, c: Client, m: Message, s': State, d: Client)
    requires c < |s.sessions| && ClientOk(s, c) && s.sessions[c].reading && '\n' in s.sessions[c].buffer
    requires m.Chat? && m.from == c && m.text == s.sessions[c].buffer
    requires s' == Broadcast(With(s, c, Drained(s.sessions[c])), m)
    requires d < |s.sessions| && ClientOk(s, d)
    ensures |s'.sessions| == |s.sessions| && ClientOk(s', d)
  {
    var x := s.sessions[d];
    BroadcastAt(With(s, c, Drained(s.sessions[c])), m, d);
    if d != c { OtherHears(s, d, m); }
    else if d in s.clients { Says(x, d, s.log, m); }
    else { SaysLast(x, d, s.log, m); }
  }

  /** x is what a failure has made of session y. */
  predicate Broken(y: Session, x: Session) {
    && WriterOk(x) && x.posted == y.posted && !x.open && (x.writeFailed || !x.reading)
    && x.buffer == y.buffer && x.received == y.received && x.said == y.said
    && x.joined == y.joined && x.exit == y.exit && (y.exit.Some? ==> LastWord(x) == LastWord(y))
  }

  lemma BrokenKept(y: Session, x: Session, c: Client, log: seq<Message>)
    requires SessionOk(y, c, log) && Broken(y, x)
    ensures SegmentOk(x, log) && AnnouncedOk(x, c, log)
    ensures y.exit.Some? ==> SessionOk(x, c, log)
  {
  }

  lemma FailedAt(s: State, c: Client, x: Session, s': State, d: Client)
    requires c < |s.sessions| && d < |s.sessions| && s' == Failed(s, c, x)
    ensures |s'.sessions| == |s.sessions|
    ensures c !in s.clients ==> s' == With(s, c, x)
    ensures c in s.clients ==>
              && s'.log == s.log + [OneLess(c)] && s'.clients == s.clients - {c}
              && s'.sessions[d] == if d == c then x.(exit := Some(Exit(|s.log|, |x.said|, LastWord(x))))
                                   else if d in s.clients then PostTo(s.sessions[d], OneLess(c)) else s.sessions[d]
  {
    if c in s.clients {
      var y := x.(exit := Some(Exit(|s.log|, |x.said|, LastWord(x))));
      BroadcastAt(With(s, c, y).(clients := s.clients - {c}), OneLess(c), d);
    }
  }

  lemma FailKept(s: State, c: Client, x: Session, s': State, d: Client)
    requires c < |s.sessions| && d < |s.sessions| && ClientOk(s, c) && ClientOk(s, d)
    requires Broken(s.sessions[c], x) && s' == Failed(s, c, x)
    ensures |s'.sessions| == |s.sessions| && ClientOk(s', d)
  {
    FailedAt(s, c, x, s', d);
    BrokenKept(s.sessions[c], x, c, s.log);
    if c in s.clients {
      if d == c { Leaves(x, c, s.log); } else { OtherHears(s, d, OneLess(c)); }
    }
  }

  lemma AcceptedAt(s: State, open: bool, s': State, d: Client)
    requires s' == Accepted(s, open) && d <= |s.sessions|
    ensures |s'.sessions| == |s.sessions| + 1 && s'.log == s.log + [Newcomer(|s.sessions|)]
    ensures s'.clients == s.clients + {|s.sessions|}
    ensures s'.sessions[d] == if d == |s.sessions| then Welcomed(open, |s.log| + 1)
                              else if d in s.clients then PostTo(s.sessions[d], Newcomer(|s.sessions|))
                              else s.sessions[d]
  {
    if d < |s.sessions| { BroadcastAt(s, Newcomer(|s.sessions|), d); }
  }

  lemma AcceptKept(s: State, open: bool, s': State, d: Client)
    requires s' == Accepted(s, open) && d < |s.sessions| && ClientOk(s, d)
    ensures |s'.sessions| == |s.sessions| + 1 && ClientOk(s', d)
  {
    AcceptedAt(s, open, s', d);
    OtherHears(s, d, Newcomer(|s.sessions|));
  }

  lemma NewcomerOk(s: State, open: bool, s': State)
    requires s' == Accepted(s, open) && forall i | 0 <= i < |s.log| :: !About(s.log[i], |s.sessions|)
    ensures |s'.sessions| == |s.sessions| + 1 && ClientOk(s', |s.sessions|)
  {
    AcceptedAt(s, open, s', |s.sessions|);
    Arrives(s.log, |s.sessions|, open);
  }

  /** A step of session c that has nothing to do with the log. */
  predicate Moved(y: Session, x: Session) {
    && WriterOk(x) && x.posted == y.posted && x.joined == y.joined && x.exit == y.exit && x.said == y.said
    && Concat(x.said) + x.buffer == x.received
    && x.open == y.open && x.writeFailed == y.writeFailed && x.reading == y.reading
    && (y.exit.Some? ==> x.buffer == y.buffer)
  }

  lemma MoveKept(s: State, c: Client, x: Session, s': State, d: Client)
    requires c < |s.sessions| && d < |s.sessions| && ClientOk(s, c) && ClientOk(s, d)
    requires Moved(s.sessions[c], x) && s' == With(s, c, x)
    ensures ClientOk(s', d)
  {
    if d == c { MovedOk(s.sessions[c], x, c, s.log); }
  }

  lemma MovedOk(y: Session, x: Session, c: Client, log: seq<Message>)
    requires SessionOk(y, c, log) && Moved(y, x)
    ensures SessionOk(x, c, log)
  {
  }

  lemma ReceiveMoves(x: Session, text: string)
    requires WriterOk(x) && ReaderOk(x) && x.exit.None?
    ensures Moved(x, ReceiveFrom(x, text))
  {
    Associative(Concat(x.said), x.buffer, text);
    assert WriterOk(ReceiveFrom(x, text));
  }

  lemma EmitMoves(x: Session, n: nat)
    requires WriterOk(x) && ReaderOk(x) && x.writing.Some? && n <= |x.writing.value|
    ensures Moved(x, EmitTo(x, n))
  {
    EmitKept(x, n);
  }

  lemma WriteDoneMoves(x: Session)
    requires WriterOk(x) && ReaderOk(x) && x.writing == Some("")
    ensures Moved(x, FrontWritten(x))
  {
    WriteDoneKept(x);
  }

  lemma WriteBreaks(x: Session)
    requires WriterOk(x) && x.writing.Some?
    ensures Broken(x, WriteFailed(x))
  {
    WriteFailKept(x);
  }

  lemma ClientsKept(s: State, e: Event, s': State, d: Client)
    requires Enabled(s, e) && s' == Apply(s, e) && !e.Accept? && ClientOk(s, e.c) && d < |s.sessions| && ClientOk(s, d)
    ensures |s'.sessions| == |s.sessions| && ClientOk(s', d)
  {
    var x := s.sessions[e.c];
    match e
    case Receive(c, text) => ReceiveMoves(x, text); MoveKept(s, c, ReceiveFrom(x, text), s', d);
    case ReadDone(c, endpoint) => SpeakKept(s, c, Chat(c, endpoint, x.buffer), s', d);
    case ReadFail(c) => ReadBreaks(x); FailKept(s, c, ReadFailed(x), s', d);
    case _ => WriterStepKept(s, e, s', d);
  }

  lemma WriterStepKept(s: State, e: Event, s': State, d: Client)
    requires Enabled(s, e) && s' == Apply(s, e) && (e.Emit? || e.WriteDone? || e.WriteFail?)
    requires ClientOk(s, e.c) && d < |s.sessions| && ClientOk(s, d)
    ensures |s'.sessions| == |s.sessions| && ClientOk(s', d)
  {
    var x := s.sessions[e.c];
    match e
    case Emit(c, n) => EmitMoves(x, n); MoveKept(s, c, EmitTo(x, n), s', d);
    case WriteDone(c) => WriteDoneMoves(x); MoveKept(s, c, FrontWritten(x), s', d);
    case WriteFail(c) => WriteBreaks(x); FailKept(s, c, WriteFailed(x), s', d);
  }

  lemma ReadBreaks(x: Session)
    requires WriterOk(x) && x.reading && '\n' !in x.buffer
    ensures Broken(x, ReadFailed(x))
  {
    assert WriterOk(ReadFailed(x));
  }

  lemma AcceptKeptAll(s: State, open: bool, s': State, d: Client)
    requires Inv(s) && s' == Accepted(s, open) && d <= |s.sessions|
    ensures |s'.sessions| == |s.sessions| + 1 && ClientOk(s', d)
  {
    if d < |s.sessions| {
      assert ClientOk(s, d);
      AcceptKept(s, open, s', d);
    } else {
      NewcomerOk(s, open, s');
    }
  }

  lemma LogKept(s: State, e: Event, s': State)
    requires LogOk(s) && Enabled(s, e) && s' == Apply(s, e)
    ensures LogOk(s')
  {
    match e
    case Accept(open) => AcceptLog(s, s', open);
    case ReadDone(c, endpoint) => SpeakLog(s, c, Drained(s.sessions[c]), Chat(c, endpoint, s.sessions[c].buffer), s');
    case ReadFail(c) => FailLog(s, c, ReadFailed(s.sessions[c]), s');
    case WriteFail(c) => FailLog(s, c, WriteFailed(s.sessions[c]), s');
    case _ =>
  }

  /** Everything the log says is about the first n clients. */
  ghost predicate Known(log: seq<Message>, n: nat) { forall i, c: Client | 0 <= i < |log| && About(log[i], c) :: c < n }

  lemma KnownMore(log: seq<Message>, m: Message, n: nat, more: nat)
    requires Known(log, n) && n <= more && (forall c: Client | About(m, c) :: c < more)
    ensures Known(log + [m], more)
  {
  }

  lemma SpeakLog(s: State, c: Client, x: Session, m: Message, s': State)
    requires LogOk(s) && c < |s.sessions| && m.Chat? && m.from == c && s' == Broadcast(With(s, c, x), m)
    ensures LogOk(s')
  {
    BroadcastAt(With(s, c, x), m, c);
    LogSnoc(s.log, m, 0);
    KnownMore(s.log, m, |s.sessions|, |s.sessions|);
  }

  lemma AcceptLog(s: State, s': State, open: bool)
    requires LogOk(s) && s' == Accepted(s, open)
    ensures LogOk(s')
  {
    AcceptedAt(s, open, s', |s.sessions|);
    LogSnoc(s.log, Newcomer(|s.sessions|), 0);
    KnownMore(s.log, Newcomer(|s.sessions|), |s.sessions|, |s.sessions| + 1);
    assert |s.sessions| !in s.clients;
  }

  lemma FailLog(s: State, c: Client, x: Session, s': State)
    requires LogOk(s) && c < |s.sessions| && s' == Failed(s, c, x)
    ensures LogOk(s')
  {
    FailedAt(s, c, x, s', c);
    if c in s.clients {
      LogSnoc(s.log, OneLess(c), 0);
      KnownMore(s.log, OneLess(c), |s.sessions|, |s.sessions|);
    }
  }

  lemma EventKept(s: State, e: Event)
    requires Inv(s) && Enabled(s, e)
    ensures Inv(Apply(s, e))
  {
    var s' := Apply(s, e);
    LogKept(s, e, s');
    forall d: nat | d < |s'.sessions| ensures ClientOk(s', d) {
      if e.Accept? {
        AcceptKeptAll(s, e.open, s', d);
      } else {
        assert ClientOk(s, e.c) && ClientOk(s, d);
        ClientsKept(s, e, s', d);
      }
    }
  }

  lemma {:induction false} RunKept(es: seq<Event>, s: State)
    requires Exec(START, es) == Some(s)
    ensures Inv(s)
  {
    if es != [] {
      var m := Exec(START, es[..|es| - 1]).value;
      RunKept(es[..|es| - 1], m);
      EventKept(m, es[|es| - 1]);
    }
  }

  // ----- Results

  /** Total order: what has been posted to a client is the welcome line and then one contiguous segment of the one log,
      from its own arrival to its own departure; what is completely written is a beginning of that. */
  lemma TotalOrder(es: seq<Event>, s: State, c: Client)
    requires Exec(START, es) == Some(s) && c < |s.sessions|
    ensures var x := s.sessions[c];
            && 0 < x.joined <= End(x, s.log) <= |s.log|
            && x.posted == [Welcome] + s.log[x.joined..End(x, s.log)] == x.written + x.outgoing
            && s.log[x.joined - 1] == Newcomer(c)
            && (End(x, s.log) < |s.log| ==> s.log[End(x, s.log)] == OneLess(c))
            && (c in s.clients ==> End(x, s.log) == |s.log|)
  {
    RunKept(es, s);
    assert ClientOk(s, c);
  }

  /** Any two clients hear what both of them hear in the same order: entry i of the log is the same message, at the
      places that their arrivals determine. */
  lemma SameOrder(es: seq<Event>, s: State, c: Client, d: Client, i: nat)
    requires Exec(START, es) == Some(s) && c < |s.sessions| && d < |s.sessions|
    requires s.sessions[c].joined <= i < End(s.sessions[c], s.log)
    requires s.sessions[d].joined <= i < End(s.sessions[d], s.log)
    ensures i < |s.log| && HeardAt(s.sessions[c], i, s.log[i]) && HeardAt(s.sessions[d], i, s.log[i])
  {
    RunKept(es, s);
    assert ClientOk(s, c) && ClientOk(s, d);
    SegmentAt(s.sessions[c], s.log, i);
    SegmentAt(s.sessions[d], s.log, i);
  }

  lemma SegmentAt(x: Session, log: seq<Message>, i: nat)
    requires SegmentOk(x, log) && x.joined <= i < End(x, log)
    ensures HeardAt(x, i, log[i])
  {
  }

  /** m is what was posted to the session as entry i of the log, behind the welcome line. */
  predicate HeardAt(x: Session, i: nat, m: Message) {
    x.joined <= i && 1 + i - x.joined < |x.posted| && x.posted[1 + i - x.joined] == m
  }

  /** Departures: each client is announced once when it comes and at most once when it goes, however its read and its
      write fail; it is gone exactly when one of them has failed; and the announcements balance the set of clients. */
  lemma DepartureOnce(es: seq<Event>, s: State, c: Client)
    requires Exec(START, es) == Some(s) && c < |s.sessions|
    ensures multiset(s.log)[Newcomer(c)] == 1
    ensures multiset(s.log)[OneLess(c)] == if c in s.clients then 0 else 1
    ensures c in s.clients <==> s.sessions[c].reading && !s.sessions[c].writeFailed
    ensures Arrivals(s.log) - Departures(s.log) == |s.clients|
  {
    RunKept(es, s);
    assert ClientOk(s, c);
  }

  /** The writer of every session, at every moment between handlers: nothing to send; one write under way on the front
      message; or a failed write. */
  lemma WriterTrichotomy(es: seq<Event>, s: State, c: Client)
    requires Exec(START, es) == Some(s) && c < |s.sessions|
    ensures var x := s.sessions[c]; (Quiet(x) || Busy(x) || Dead(x)) && x.emitted <= Texts(x.posted)
  {
    RunKept(es, s);
    assert ClientOk(s, c);
    EmittedIsPrefix(s.sessions[c]);
  }

  lemma EmittedIsPrefix(x: Session)
    requires WriterOk(x)
    ensures x.emitted <= Texts(x.posted)
  {
    TextsAppend(x.written, x.outgoing);
    if x.outgoing != [] {
      FrontFirst(x);
      TextsFront(x.outgoing);
      Associative(Texts(x.written), Text(x.outgoing[0]), Texts(x.outgoing[1..]));
    }
  }

  lemma TextsFront(ms: seq<Message>)
    requires ms != []
    ensures Texts(ms) == Text(ms[0]) + Texts(ms[1..])
  {
    var front, others := ms[0], ms[1..];
    TextsAppend([front], others);
    TextsOne(front);
    assert ms == [front] + others;
  }

  lemma TextsOne(m: Message)
    ensures Texts([m]) == Text(m)
  {
    assert Lines([m]) == [] + [Text(m)];
    ConcatSnoc([], Text(m));
    assert "" + Text(m) == Text(m);
  }

  lemma FrontFirst(x: Session)
    requires x.outgoing != [] && (Busy(x) || Dead(x))
    ensures x.emitted <= Texts(x.written) + Text(x.outgoing[0])
  {
  }

  lemma Associative(x: string, y: string, z: string)
    ensures (x + y) + z == x + (y + z)
  {
  }

  lemma {:induction false} ConcatAppend(a: seq<string>, b: seq<string>)
    ensures Concat(a + b) == Concat(a) + Concat(b)
  {
    if b == [] {
      assert a + b == a;
    } else {
      var init, last := b[..|b| - 1], b[|b| - 1];
      ConcatAppend(a, init);
      assert a + b == (a + init) + [last];
      ConcatSnoc(a + init, last);
      Associative(Concat(a), Concat(init), last);
    }
  }

  lemma TextsAppend(a: seq<Message>, b: seq<Message>)
    ensures Texts(a + b) == Texts(a) + Texts(b)
  {
    assert Lines(a + b) == Lines(a) + Lines(b);
    ConcatAppend(Lines(a), Lines(b));
  }

  /** A client that has not gone and has nothing under way has been sent every character of its segment. */
  lemma EverythingSent(es: seq<Event>, s: State, c: Client)
    requires Exec(START, es) == Some(s) && c in s.clients && c < |s.sessions| && s.sessions[c].writing.None?
    ensures s.sessions[c].joined <= |s.log|
    ensures s.sessions[c].emitted == Text(Welcome) + Texts(s.log[s.sessions[c].joined..])
  {
    RunKept(es, s);
    assert ClientOk(s, c);
    AllSent(s.sessions[c], s.log);
  }

  lemma AllSent(x: Session, log: seq<Message>)
    requires WriterOk(x) && SegmentOk(x, log) && x.exit.None? && x.writing.None? && !x.writeFailed
    ensures x.emitted == Text(Welcome) + Texts(log[x.joined..])
  {
    var heard := log[x.joined..];
    assert heard == log[x.joined..|log|];
    assert x.posted == x.written;
    TextsAppend([Welcome], heard);
    TextsOne(Welcome);
  }

  /** No character a client sends is lost or reordered: its chats in the log, one after the other, and then the buffer,
      are what has been received from it. */
  lemma NothingUnsaid(es: seq<Event>, s: State, c: Client)
    requires Exec(START, es) == Some(s) && c < |s.sessions|
    ensures Concat(ChatsOf(s.log, c)) + s.sessions[c].buffer == s.sessions[c].received
  {
    RunKept(es, s);
    assert ClientOk(s, c);
  }

  /** After a failed write a session is never written to again: its queue, what it has written and what it has emitted
      stay as they are. */
  lemma {:induction false} DeadForGood(s: State, es: seq<Event>, c: Client)
    requires Inv(s) && c < |s.sessions| && s.sessions[c].writeFailed && Exec(s, es).Some?
    ensures var s' := Exec(s, es).value; Inv(s') && c < |s'.sessions| && Frozen(s.sessions[c], s'.sessions[c])
  {
    if es == [] {
      assert ClientOk(s, c);
    } else {
      var init, e := es[..|es| - 1], es[|es| - 1];
      DeadForGood(s, init, c);
      var m := Exec(s, init).value;
      EventKept(m, e);
      DeadStep(m, e, Apply(m, e), c);
    }
  }

  /** Session y is what has become of x, whose write had failed. */
  predicate Frozen(x: Session, y: Session) {
    y.writeFailed && y.writing.None? && y.outgoing == x.outgoing && y.written == x.written && y.emitted == x.emitted
  }

  lemma DeadStep(s: State, e: Event, s': State, c: Client)
    requires Inv(s) && Enabled(s, e) && s' == Apply(s, e) && c < |s.sessions| && s.sessions[c].writeFailed
    ensures c < |s'.sessions| && Frozen(s.sessions[c], s'.sessions[c])
  {
    assert ClientOk(s, c);
    match e
    case Accept(open) => AcceptedAt(s, open, s', c);
    case ReadDone(d, endpoint) =>
      BroadcastAt(With(s, d, Drained(s.sessions[d])), Chat(d, endpoint, s.sessions[d].buffer), c);
    case ReadFail(d) => FailedAt(s, d, ReadFailed(s.sessions[d]), s', c);
    case WriteFail(d) => FailedAt(s, d, WriteFailed(s.sessions[d]), s', c);
    case _ =>
  }
}
