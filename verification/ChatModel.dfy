/**
 The chat server as the sequence of handlers that its one I/O thread runs.

 Asio moves any number of characters at a time (`Emit`, `Receive`).  The handler of a write runs once, with success only
 when the whole message is out; the handler of async_read_until with success only when the buffer holds a line end.
 */
module ChatModel {
  import opened Base

  /** A client is named by its place in the order of acceptance. */
  type Client = nat

  /** A posted string, with the client it is about; the client's name is not part of the text, the endpoint is. */
  datatype Message =
    | Welcome
    | Newcomer(who: Client)
    | OneLess(who: Client)
    | Chat(from: Client, endpoint: string, text: string)

  function Text(m: Message): string {
    match m
    case Welcome => "Welcome to chat\n\r"
    case Newcomer(_) => "We have a newcomer\n\r"
    case OneLess(_) => "We are one less\n\r"
    case Chat(_, endpoint, text) => endpoint + ": " + text
  }

  function Lines(ms: seq<Message>): seq<string> { seq(|ms|, i requires 0 <= i < |ms| => Text(ms[i])) }

  function Concat(ts: seq<string>): string { if ts == [] then "" else Concat(ts[..|ts| - 1]) + ts[|ts| - 1] }

  function Texts(ms: seq<Message>): string { Concat(Lines(ms)) }

  /** When a client was taken out of the set: the length of the log, the number of its chats, and whether one more was
      due at that moment. */
  datatype Exit = Exit(at: nat, said: nat, due: nat)

  /** `writing` holds the characters of the front message that the write under way has still to move. From `posted` on
      the fields are history: messages posted to the session and completely written, characters sent and received, the
      chats it has said, the length of the log when it joined, and its exit. */
  datatype Session = Session(
    open: bool,
    outgoing: seq<Message>,
    writing: Option<string>,
    reading: bool,
    buffer: string,
    posted: seq<Message>,
    written: seq<Message>,
    emitted: string,
    writeFailed: bool,
    received: string,
    said: seq<string>,
    joined: nat,
    exit: Option<Exit>)

  /** All sessions ever accepted, the set `clients`, and the log of everything posted to all clients. */
  datatype State = State(sessions: seq<Session>, clients: set<Client>, log: seq<Message>)

  const START := State([], {}, [])

  function NewSession(open: bool): Session {
    Session(open, [], None, false, "", [], [], "", false, "", [], 0, None)
  }

  datatype Event =
    | Accept(open: bool)
    | Receive(c: Client, text: string)
    | ReadDone(c: Client, endpoint: string)
    | ReadFail(c: Client)
    | Emit(c: Client, n: nat)
    | WriteDone(c: Client)
    | WriteFail(c: Client)

  // ----- session

  /** session::async_write */
  function StartWrite(x: Session): Session
    requires x.outgoing != []
  {
    x.(writing := Some(Text(x.outgoing[0])))
  }

  /** session::post */
  function PostTo(x: Session, m: Message): Session {
    var y := x.(outgoing := x.outgoing + [m], posted := x.posted + [m]);
    if x.outgoing == [] then StartWrite(y) else y
  }

  /** The success branch of session::on_write */
  function FrontWritten(x: Session): Session
    requires x.outgoing != []
  {
    var y := x.(outgoing := x.outgoing[1..], written := x.written + [x.outgoing[0]], writing := None);
    if y.outgoing == [] then y else StartWrite(y)
  }

  function EmitTo(x: Session, n: nat): Session
    requires x.writing.Some? && n <= |x.writing.value|
  {
    x.(writing := Some(x.writing.value[n..]), emitted := x.emitted + x.writing.value[..n])
  }

  function ReceiveFrom(x: Session, text: string): Session {
    x.(buffer := x.buffer + text, received := x.received + text)
  }

  /** The whole buffer goes into the message, whatever follows the first line end; the `consume` that comes after finds
      nothing left. */
  function Drained(x: Session): Session { x.(buffer := "", said := x.said + [x.buffer]) }

  function ReadFailed(x: Session): Session { x.(open := false, reading := false) }

  function WriteFailed(x: Session): Session { x.(open := false, writing := None, writeFailed := true) }

  /** One more chat is coming from a read that has already been satisfied. */
  function LastWord(x: Session): nat { if x.reading && '\n' in x.buffer then 1 else 0 }

  // ----- server

  function With(s: State, c: Client, x: Session): State
    requires c < |s.sessions|
  {
    s.(sessions := s.sessions[c := x])
  }

  /** server::post */
  function Broadcast(s: State, m: Message): State {
    s.(sessions := seq(|s.sessions|, i requires 0 <= i < |s.sessions| =>
                         if i in s.clients then PostTo(s.sessions[i], m) else s.sessions[i]),
       log := s.log + [m])
  }

  /** A new session that has been greeted and started. */
  function Welcomed(open: bool, joined: nat): Session {
    PostTo(NewSession(open), Welcome).(joined := joined, reading := true)
  }

  /** The handler of async_accept, which does not look at its error: `open` says whether there is a connection. */
  function Accepted(s: State, open: bool): State {
    var c := |s.sessions|;
    var s' := Broadcast(s, Newcomer(c));
    s'.(sessions := s'.sessions + [Welcomed(open, |s'.log|)], clients := s.clients + {c})
  }

  /** A failed read or write has left session c as x: on_error as bound in async_accept. */
  function Failed(s: State, c: Client, x: Session): State
    requires c < |s.sessions|
  {
    if c in s.clients then
      var y := x.(exit := Some(Exit(|s.log|, |x.said|, LastWord(x))));
      Broadcast(With(s, c, y).(clients := s.clients - {c}), OneLess(c))
    else With(s, c, x)
  }

  predicate Enabled(s: State, e: Event) {
    (e.Accept? || e.c < |s.sessions|) &&
    match e
    case Accept(_) => true
    case Receive(c, text) => s.sessions[c].open && s.sessions[c].reading && '\n' !in s.sessions[c].buffer && text != ""
    case ReadDone(c, _) => s.sessions[c].reading && '\n' in s.sessions[c].buffer
    case ReadFail(c) => s.sessions[c].reading && '\n' !in s.sessions[c].buffer
    case Emit(c, n) => s.sessions[c].open && s.sessions[c].writing.Some? && 1 <= n <= |s.sessions[c].writing.value|
    case WriteDone(c) => s.sessions[c].writing == Some("") && s.sessions[c].outgoing != []
    case WriteFail(c) => s.sessions[c].writing.Some?
  }

  function Apply(s: State, e: Event): State
    requires Enabled(s, e)
  {
    match e
    case Accept(open) => Accepted(s, open)
    case Receive(c, text) => With(s, c, ReceiveFrom(s.sessions[c], text))
    case ReadDone(c, endpoint) => Broadcast(With(s, c, Drained(s.sessions[c])), Chat(c, endpoint, s.sessions[c].buffer))
    case ReadFail(c) => Failed(s, c, ReadFailed(s.sessions[c]))
    case Emit(c, n) => With(s, c, EmitTo(s.sessions[c], n))
    case WriteDone(c) => With(s, c, FrontWritten(s.sessions[c]))
    case WriteFail(c) => Failed(s, c, WriteFailed(s.sessions[c]))
  }

  /** The state after a run, or nothing if some event of the run could not happen. */
  function Exec(s: State, es: seq<Event>): Option<State> {
    if es == [] then Some(s)
    else
      match Exec(s, es[..|es| - 1])
      case None => None
      case Some(m) => if Enabled(m, es[|es| - 1]) then Some(Apply(m, es[|es| - 1])) else None
  }
}
