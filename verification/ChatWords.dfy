/** The characters that reach the clients of the chat server. */
module ChatWords {
  import opened Base
  import opened ChatModel
  import opened ChatTheorems

  lemma {:induction false} Around(ms: seq<Message>, i: nat) returns (a: string, b: string)
    requires i < |ms|
    ensures Texts(ms) == a + Text(ms[i]) + b
  {
    a, b := Texts(ms[..i]), Texts(ms[i + 1..]);
    assert ms == ms[..i] + ms[i..] && ms[i..][1..] == ms[i + 1..];
    TextsAppend(ms[..i], ms[i..]);
    TextsFront(ms[i..]);
    Associative(a, Text(ms[i]), b);
  }

  /** What entry i of the log is as text has been written to every client that has been listening since before it and
      has nothing under way. */
  lemma EntryReaches(es: seq<Event>, s: State, c: Client, i: nat) returns (a: string, b: string)
    requires Exec(START, es) == Some(s) && c in s.clients && c < |s.sessions| && s.sessions[c].writing.None?
    requires s.sessions[c].joined <= i < |s.log|
    ensures s.sessions[c].emitted == a + Text(s.log[i]) + b
  {
    EverythingSent(es, s, c);
    a, b := BehindWelcome(s.log, s.sessions[c].joined, i);
  }

  lemma BehindWelcome(log: seq<Message>, n: nat, i: nat) returns (a: string, b: string)
    requires n <= i < |log|
    ensures Text(Welcome) + Texts(log[n..]) == a + Text(log[i]) + b
  {
    var x, y := Around(log[n..], i - n);
    assert log[n..][i - n] == log[i];
    a, b := Text(Welcome) + x, y;
    InFront(Text(Welcome), x, Text(log[i]), y);
  }

  lemma InFront(w: string, a: string, t: string, b: string)
    ensures w + (a + t + b) == (w + a) + t + b
  {
  }

  lemma Regroup(a: string, b: string, c: string, d: string, e: string)
    ensures a + (b + c + d) + e == a + b + c + d + e
  {
  }

  /** In characters: every chat has been written out as the speaker's endpoint, a colon, a space and what was said. */
  lemma ChatReaches(es: seq<Event>, s: State, c: Client, i: nat) returns (a: string, b: string)
    requires Exec(START, es) == Some(s) && c in s.clients && c < |s.sessions| && s.sessions[c].writing.None?
    requires s.sessions[c].joined <= i < |s.log| && s.log[i].Chat?
    ensures s.sessions[c].emitted == a + s.log[i].endpoint + ": " + s.log[i].text + b
  {
    a, b := EntryReaches(es, s, c, i);
    Regroup(a, s.log[i].endpoint, ": ", s.log[i].text, b);
  }

  /** ... every arrival and every departure as its announcement, and the welcome line before all of them. */
  lemma AnnouncementReaches(es: seq<Event>, s: State, c: Client, i: nat) returns (a: string, b: string)
    requires Exec(START, es) == Some(s) && c in s.clients && c < |s.sessions| && s.sessions[c].writing.None?
    requires s.sessions[c].joined <= i < |s.log|
    ensures s.log[i].Newcomer? ==> s.sessions[c].emitted == a + "We have a newcomer\n\r" + b
    ensures s.log[i].OneLess? ==> s.sessions[c].emitted == a + "We are one less\n\r" + b
    ensures "Welcome to chat\n\r" <= s.sessions[c].emitted
  {
    a, b := EntryReaches(es, s, c, i);
    EverythingSent(es, s, c);
  }

  lemma {:induction false} ChatAt(log: seq<Message>, c: Client, j: nat) returns (i: nat)
    requires j < |ChatsOf(log, c)|
    ensures i < |log| && log[i].Chat? && log[i].from == c && log[i].text == ChatsOf(log, c)[j]
    ensures |ChatsOf(log[..i], c)| == j
  {
    var init := log[..|log| - 1];
    if j < |ChatsOf(init, c)| {
      i := ChatAt(init, c, j);
      assert init[..i] == log[..i];
    } else {
      i := |log| - 1;
    }
  }

  lemma PieceOf(ts: seq<string>, j: nat) returns (x: string, y: string)
    requires j < |ts|
    ensures Concat(ts) == x + ts[j] + y
  {
    x, y := Concat(ts[..j]), Concat(ts[j + 1..]);
    assert ts == (ts[..j] + [ts[j]]) + ts[j + 1..];
    ConcatAppend(ts[..j] + [ts[j]], ts[j + 1..]);
    ConcatSnoc(ts[..j], ts[j]);
  }

  /** From one client's socket to the others': the j-th thing client f has said is a piece of what was received from it,
      and it has been written, behind an endpoint and a colon, to every client that has been listening since before it
      and has nothing under way. */
  lemma SaidIsHeard(es: seq<Event>, s: State, f: Client, j: nat, c: Client)
    returns (x: string, y: string, i: nat, a: string, b: string)
    requires Exec(START, es) == Some(s) && f < |s.sessions| && j < |ChatsOf(s.log, f)|
    requires c in s.clients && c < |s.sessions| && s.sessions[c].writing.None?
    ensures s.sessions[f].received == x + ChatsOf(s.log, f)[j] + y
    ensures i < |s.log| && s.log[i].Chat? && s.log[i].from == f && |ChatsOf(s.log[..i], f)| == j
    ensures s.sessions[c].joined <= i ==>
              s.sessions[c].emitted == a + s.log[i].endpoint + ": " + ChatsOf(s.log, f)[j] + b
  {
    NothingUnsaid(es, s, f);
    x, y := PieceOf(ChatsOf(s.log, f), j);
    Associative(x + ChatsOf(s.log, f)[j], y, s.sessions[f].buffer);
    y := y + s.sessions[f].buffer;
    i := ChatAt(s.log, f, j);
    a, b := "", "";
    if s.sessions[c].joined <= i { a, b := ChatReaches(es, s, c, i); }
  }

  // ----- Who is named

  /** The endpoints that are named in what client c has said, in order. */
  function EndpointsOf(log: seq<Message>, c: Client): seq<string> {
    if log == [] then []
    else
      var m := log[|log| - 1];
      EndpointsOf(log[..|log| - 1], c) + if m.Chat? && m.from == c then [m.endpoint] else []
  }

  /** The endpoints that client c's socket reported at its successful reads, in order. */
  function ReadsOf(es: seq<Event>, c: Client): seq<string> {
    if es == [] then []
    else
      var e := es[|es| - 1];
      ReadsOf(es[..|es| - 1], c) + if e.ReadDone? && e.c == c then [e.endpoint] else []
  }

  lemma EndpointsSnoc(log: seq<Message>, m: Message, c: Client)
    ensures EndpointsOf(log + [m], c) == EndpointsOf(log, c) + if m.Chat? && m.from == c then [m.endpoint] else []
  {
    assert (log + [m])[..|log|] == log;
  }

  lemma FailedLog(s: State, c: Client, x: Session, d: Client)
    requires c < |s.sessions|
    ensures EndpointsOf(Failed(s, c, x).log, d) == EndpointsOf(s.log, d)
  {
    EndpointsSnoc(s.log, OneLess(c), d);
  }

  /** What a client says is posted under the endpoint of its own socket, once for each of its successful reads. */
  lemma {:induction false} NamesTheSpeaker(es: seq<Event>, s: State, c: Client)
    requires Exec(START, es) == Some(s)
    ensures EndpointsOf(s.log, c) == ReadsOf(es, c)
  {
    if es != [] {
      var m := Exec(START, es[..|es| - 1]).value;
      NamesTheSpeaker(es[..|es| - 1], m, c);
      match es[|es| - 1]
      case Accept(_) => EndpointsSnoc(m.log, Newcomer(|m.sessions|), c);
      case ReadDone(d, endpoint) => EndpointsSnoc(m.log, Chat(d, endpoint, m.sessions[d].buffer), c);
      case ReadFail(d) => FailedLog(m, d, ReadFailed(m.sessions[d]), c);
      case WriteFail(d) => FailedLog(m, d, WriteFailed(m.sessions[d]), c);
      case _ =>
    }
  }
}
