/** What is heard of a chat client once its departure has been announced. */
module ChatDepartures {
  import opened Base
  import opened ChatModel
  import opened ChatTheorems

  /** What c has said so far, and is still going to say if it has gone. */
  function Speech(s: State, c: Client): nat
    requires c < |s.sessions|
  {
    |ChatsOf(s.log, c)| + LastWord(s.sessions[c])
  }

  /** The session of somebody who has gone is touched by nothing but its own handlers. */
  lemma OthersStep(s: State, e: Event, s': State, c: Client)
    requires c < |s.sessions| && ClientOk(s, c) && s.sessions[c].exit.Some?
    requires Enabled(s, e) && s' == Apply(s, e) && (e.Accept? || e.c != c)
    ensures c < |s'.sessions| && s'.sessions[c] == s.sessions[c] && ChatsOf(s'.log, c) == ChatsOf(s.log, c)
  {
    match e
    case Accept(open) =>
      AcceptedAt(s, open, s', c);
      LogSnoc(s.log, Newcomer(|s.sessions|), c);
    case ReadDone(d, endpoint) =>
      var m := Chat(d, endpoint, s.sessions[d].buffer);
      BroadcastAt(With(s, d, Drained(s.sessions[d])), m, c);
      LogSnoc(s.log, m, c);
    case ReadFail(d) =>
      FailedAt(s, d, ReadFailed(s.sessions[d]), s', c);
      LogSnoc(s.log, OneLess(d), c);
    case WriteFail(d) =>
      FailedAt(s, d, WriteFailed(s.sessions[d]), s', c);
      LogSnoc(s.log, OneLess(d), c);
    case _ =>
  }

  lemma OwnStep(s: State, e: Event, s': State, c: Client)
    requires c < |s.sessions| && ClientOk(s, c) && s.sessions[c].exit.Some?
    requires Enabled(s, e) && s' == Apply(s, e) && !e.Accept? && e.c == c
    ensures c < |s'.sessions| && s'.sessions[c].exit.Some? && Speech(s', c) == Speech(s, c)
  {
    if e.ReadDone? {
      var m := Chat(c, e.endpoint, s.sessions[c].buffer);
      BroadcastAt(With(s, c, Drained(s.sessions[c])), m, c);
      LogSnoc(s.log, m, c);
    }
  }

  /** Conservation: over every run after its departure, the chats of a client and the line that is still in its buffer,
      if there is one, add up to the same number. */
  lemma {:induction false} SpeechStays(s: State, es: seq<Event>, s': State, c: Client)
    requires Inv(s) && c < |s.sessions| && s.sessions[c].exit.Some? && Exec(s, es) == Some(s')
    ensures Inv(s') && c < |s'.sessions| && s'.sessions[c].exit.Some? && Speech(s', c) == Speech(s, c)
  {
    if es != [] {
      var init, e := es[..|es| - 1], es[|es| - 1];
      var m := Exec(s, init).value;
      SpeechStays(s, init, m, c);
      EventKept(m, e);
      assert ClientOk(m, c);
      if e.Accept? || e.c != c { OthersStep(m, e, s', c); } else { OwnStep(m, e, s', c); }
    }
  }

  /** A client that has gone has been heard since then exactly as often as a line was due when it went, less what is
      still due. */
  lemma LastWords(es: seq<Event>, s: State, c: Client)
    requires Exec(START, es) == Some(s) && c < |s.sessions| && s.sessions[c].exit.Some?
    ensures var x := s.sessions[c]; |ChatsOf(s.log, c)| + LastWord(x) == x.exit.value.said + x.exit.value.due
  {
    RunKept(es, s);
    assert ClientOk(s, c);
  }

  /** The step that has just announced the departure of c. */
  predicate Leaves(s: State, e: Event, c: Client) {
    c in s.clients && Enabled(s, e) && (e == ReadFail(c) || e == WriteFail(c))
  }

  /** Some continuation of s has one more chat of c than s, or even more. */
  ghost predicate HeardAgain(s: State, c: Client) { exists es, s' :: Continues(s, es, s', c) }

  predicate Continues(s: State, es: seq<Event>, s': State, c: Client) {
    Exec(s, es) == Some(s') && |ChatsOf(s'.log, c)| > |ChatsOf(s.log, c)|
  }

  /** What the departing step leaves behind. */
  lemma LeavingStep(s: State, e: Event, s': State, c: Client)
    requires Inv(s) && Leaves(s, e, c) && s' == Apply(s, e)
    ensures c < |s.sessions| == |s'.sessions| && c !in s'.clients && s'.sessions[c].exit.Some?
    ensures s'.log == s.log + [OneLess(c)] && ChatsOf(s'.log, c) == ChatsOf(s.log, c)
    ensures s'.sessions[c].buffer == s.sessions[c].buffer
    ensures s'.sessions[c].reading == e.WriteFail? && LastWord(s'.sessions[c]) == LastWord(s.sessions[c])
  {
    assert ClientOk(s, c);
    var x := s.sessions[c];
    FailedAt(s, c, if e.WriteFail? then WriteFailed(x) else ReadFailed(x), s', c);
    LogSnoc(s.log, OneLess(c), c);
  }

  lemma Speaks(s: State, c: Client, endpoint: string)
    requires c < |s.sessions| && s.sessions[c].reading && '\n' in s.sessions[c].buffer
    ensures HeardAgain(s, c)
  {
    var e, x := ReadDone(c, endpoint), s.sessions[c];
    var m := Chat(c, endpoint, x.buffer);
    var s' := Broadcast(With(s, c, Drained(x)), m);
    LogSnoc(s.log, m, c);
    assert [e][..0] == [];
    assert Continues(s, [e], s', c);
  }

  /** The exact condition: at the step with which a client leaves, it depends on one thing whether it can still be
      heard. It can if and only if the step is a failed write and its unread buffer holds a line end; and then it is
      heard once at most. */
  lemma HeardAgainIff(before: seq<Event>, s: State, e: Event, c: Client)
    requires Exec(START, before) == Some(s) && Leaves(s, e, c)
    ensures c < |s.sessions|
    ensures HeardAgain(Apply(s, e), c) <==> e.WriteFail? && LastWord(s.sessions[c]) == 1
    ensures forall es, s' | Exec(Apply(s, e), es) == Some(s') :: |ChatsOf(s'.log, c)| <= |ChatsOf(s.log, c)| + 1
  {
    RunKept(before, s);
    assert ClientOk(s, c);
    var m := Apply(s, e);
    EventKept(s, e);
    LeavingStep(s, e, m, c);
    forall es, s' | Exec(m, es) == Some(s')
      ensures |ChatsOf(s'.log, c)| <= |ChatsOf(m.log, c)| + LastWord(m.sessions[c])
    {
      SpeechStays(m, es, s', c);
    }
    if e.WriteFail? && LastWord(s.sessions[c]) == 1 { Speaks(m, c, ""); }
  }

  lemma Go(es: seq<Event>, m: State, e: Event, m': State) returns (fs: seq<Event>)
    requires Exec(START, es) == Some(m) && Enabled(m, e) && Apply(m, e) == m'
    ensures Exec(START, fs) == Some(m')
  {
    fs := es + [e];
    assert fs[..|es|] == es;
  }

  /** A client has come, and a line has been received from it. */
  function Scene(x: Session): State { State([x], {0}, [Newcomer(0)]) }

  lemma ComesAndWrites() returns (es: seq<Event>)
    ensures Exec(START, es) == Some(Scene(ReceiveFrom(Welcomed(true, 1), "\n")))
  {
    var x := Welcomed(true, 1);
    AcceptedAt(START, true, Accepted(START, true), 0);
    es := Go([], START, Accept(true), Scene(x));
    es := Go(es, Scene(x), Receive(0, "\n"), Scene(ReceiveFrom(x, "\n")));
  }

  lemma GoesThenSpeaks(x: Session, y: Session, endpoint: string)
    requires x.writing.Some? && x.reading && x.buffer == "\n" && x.said == []
    requires y == WriteFailed(x).(exit := Some(Exit(1, 0, 1)))
    ensures Failed(Scene(x), 0, WriteFailed(x)) == State([y], {}, [Newcomer(0), OneLess(0)])
    ensures var s := State([y], {}, [Newcomer(0), OneLess(0)]);
            && Enabled(s, ReadDone(0, endpoint))
            && Apply(s, ReadDone(0, endpoint)) ==
               State([Drained(y)], {}, [Newcomer(0), OneLess(0), Chat(0, endpoint, "\n")])
  {
    FailedAt(Scene(x), 0, WriteFailed(x), Failed(Scene(x), 0, WriteFailed(x)), 0);
    var s := State([y], {}, [Newcomer(0), OneLess(0)]);
    BroadcastAt(With(s, 0, Drained(y)), Chat(0, endpoint, "\n"), 0);
  }

  /** Such a run: a client whose write fails with a line already received is heard after it has been announced to
      be gone. */
  lemma HeardAfterLeaving(endpoint: string) returns (es: seq<Event>, s: State)
    ensures Exec(START, es) == Some(s) && s.log == [Newcomer(0), OneLess(0), Chat(0, endpoint, "\n")] && s.clients == {}
  {
    var x := ReceiveFrom(Welcomed(true, 1), "\n");
    var y := WriteFailed(x).(exit := Some(Exit(1, 0, 1)));
    es := ComesAndWrites();
    GoesThenSpeaks(x, y, endpoint);
    es := Go(es, Scene(x), WriteFail(0), State([y], {}, [Newcomer(0), OneLess(0)]));
    s := State([Drained(y)], {}, [Newcomer(0), OneLess(0), Chat(0, endpoint, "\n")]);
    es := Go(es, State([y], {}, [Newcomer(0), OneLess(0)]), ReadDone(0, endpoint), s);
  }
}
