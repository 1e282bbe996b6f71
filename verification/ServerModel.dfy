/** The server of the message framework with the hooks of CustomServer, as functions on its state. */
module ServerModel {
  import opened Base
  import opened Framing
  import opened ConnectionModel
  import opened SerialMessages

  /** CustomMsgTypes */
  const SERVER_ACCEPT: Word := 0
  const SERVER_DENY: Word := 1
  const SERVER_PING: Word := 2
  const MESSAGE_ALL: Word := 3
  const SERVER_MESSAGE: Word := 4

  const FIRST_ID := 10000

  /** A connection is named by its place in the order of approvals. */
  type Handle = nat

  /** owned_message */
  datatype Owned = Owned(remote: Handle, msg: Message)

  /** A broadcast: who asked for it, the id that the message carries, and who was sent it. */
  datatype Cast = Cast(sender: Handle, id: Word, recipients: seq<Handle>)

  /** `ends` are the server's ends of all connections ever approved, `deq` is m_deqConnections and `counter` nIDCounter.
      The rest is history: every message that was put into the incoming queue, the number of those handled, the
      broadcasts, the connections reported to OnClientDisconnect, and whether a connection's socket was open when it
      was approved. */
  datatype Server = Server(
    ends: seq<Endpoint>,
    deq: seq<Handle>,
    counter: Word,
    incoming: seq<Owned>,
    queued: seq<Owned>,
    handled: nat,
    casts: seq<Cast>,
    gone: seq<Handle>,
    wasOpen: seq<bool>)

  const START := Server([], [], FIRST_ID, [], [], 0, [], [], [])

  function SendAllTo(e: Endpoint, ms: seq<Message>): Endpoint { e.(posted := e.posted + ms, sent := e.sent + ms) }

  /** The handler of async_accept without an error. `greeting` is what OnClientConnect sends to the new connection, and
      `allowed` what it returns. */
  function Arrived(s: Server, open: bool, greeting: seq<Message>, allowed: bool): Server {
    if allowed then
      var e := SendAllTo(NEW_ENDPOINT.(open := open), greeting);
      s.(ends := s.ends + [Moved(e, [], ConnectToClient(s.counter))],
         deq := s.deq + [|s.ends|],
         counter := (s.counter + 1) % TWO_32,
         wasOpen := s.wasOpen + [open])
    else s
  }

  predicate IsConnected(s: Server, h: Handle) { h < |s.ends| && s.ends[h].open }

  /** The elements of hs that are connected, in order. */
  function Alive(s: Server, hs: seq<Handle>): seq<Handle> {
    if hs == [] then []
    else Alive(s, hs[..|hs| - 1]) + if IsConnected(s, hs[|hs| - 1]) then [hs[|hs| - 1]] else []
  }

  /** ... and those that are not. */
  function Lost(s: Server, hs: seq<Handle>): seq<Handle> {
    if hs == [] then []
    else Lost(s, hs[..|hs| - 1]) + if IsConnected(s, hs[|hs| - 1]) then [] else [hs[|hs| - 1]]
  }

  function SendTo(s: Server, h: Handle, m: Message): Server
    requires h < |s.ends|
  {
    s.(ends := s.ends[h := Sending(s.ends[h], m)])
  }

  /** MessageClient: `client.reset()` makes the code remove null pointers from the deque, of which there are none, and
      not the client. */
  function MessageClient(s: Server, h: Handle, m: Message): Server
    requires h < |s.ends|
  {
    if IsConnected(s, h) then SendTo(s, h, m) else s.(gone := s.gone + [h])
  }

  function Recipients(s: Server, ignore: Option<Handle>): set<Handle> {
    set h | h in s.deq && IsConnected(s, h) && Some(h) != ignore
  }

  /** MessageAllClients */
  function MessageAll(s: Server, m: Message, ignore: Option<Handle>): Server {
    s.(ends := seq(|s.ends|, i requires 0 <= i < |s.ends| =>
                     if i in Recipients(s, ignore) then Sending(s.ends[i], m) else s.ends[i]),
       deq := Alive(s, s.deq),
       gone := s.gone + Lost(s, s.deq))
  }

  /** The message that CustomServer sends to everybody else when client number id asks for it. */
  function Hello(id: Word): Message { Pushed(Message(SERVER_MESSAGE, 0, []), WordBytes(id)) }

  function Without(hs: seq<Handle>, h: Handle): seq<Handle> {
    if hs == [] then []
    else Without(hs[..|hs| - 1], h) + if hs[|hs| - 1] == h then [] else [hs[|hs| - 1]]
  }

  /** CustomServer::OnMessage for MessageAll */
  function Broadcast(s: Server, h: Handle): Server
    requires h < |s.ends|
  {
    var cast := Cast(h, s.ends[h].id, Without(Alive(s, s.deq), h));
    MessageAll(s, Hello(cast.id), Some(h)).(casts := s.casts + [cast])
  }

  /** CustomServer::OnMessage */
  function OnMessage(s: Server, h: Handle, m: Message): Server
    requires h < |s.ends|
  {
    if m.id == SERVER_PING then SendTo(s, h, m)
    else if m.id == MESSAGE_ALL then Broadcast(s, h)
    else s
  }

  /** The server with the first message taken off the queue. */
  function Taken(s: Server): Server
    requires s.incoming != []
  {
    s.(incoming := s.incoming[1..], handled := s.handled + 1)
  }

  /** One iteration of the loop of Update. */
  function HandleNext(s: Server): Server
    requires s.incoming != [] && s.incoming[0].remote < |s.ends|
  {
    OnMessage(Taken(s), s.incoming[0].remote, s.incoming[0].msg)
  }

  predicate IsNext(s: Server, t: Server) {
    s.incoming != [] && s.incoming[0].remote < |s.ends| && t == HandleNext(s)
  }

  /** A call of Update during which no message arrives: the states between the iterations of its loop. */
  predicate Path(ts: seq<Server>) { |ts| > 0 && forall i | 0 <= i < |ts| - 1 :: IsNext(ts[i], ts[i + 1]) }

  function OwnedBy(h: Handle, ms: seq<Message>): seq<Owned> { seq(|ms|, i requires 0 <= i < |ms| => Owned(h, ms[i])) }

  /** What a handler of connection h has delivered goes into the queue that all connections share. */
  function Deliver(s: Server, h: Handle, e: Endpoint): Server
    requires h < |s.ends| && |s.ends[h].reader.delivered| <= |e.reader.delivered|
  {
    var ms := e.reader.delivered[|s.ends[h].reader.delivered|..];
    var items := OwnedBy(h, ms);
    s.(ends := s.ends[h := e], incoming := s.incoming + items, queued := s.queued + items)
  }

  datatype Event =
    | Arrive(open: bool, greeting: seq<Message>, allowed: bool)
    | Handler(h: Handle, stream: seq<Byte>, move: Move)  // of connection h, whose peer has emitted the stream
    | Tell(h: Handle, m: Message)                        // MessageClient
    | TellAll(m: Message, ignore: Option<Handle>)        // MessageAllClients
    | Update                                             // one iteration of its loop

  /** What the I/O thread does on a connection, as opposed to the calls that others make on it. */
  predicate IoMove(move: Move) { !move.Send? && !move.ConnectToClient? && !move.Connected? }

  predicate Enabled(s: Server, e: Event) {
    match e
    case Arrive(_, _, _) => true
    case Handler(h, stream, move) => h < |s.ends| && IoMove(move) && CanMove(s.ends[h], stream, move)
    case Tell(h, _) => h < |s.ends|
    case TellAll(_, _) => true
    case Update => s.incoming != [] && s.incoming[0].remote < |s.ends|
  }

  function Apply(s: Server, e: Event): Server
    requires Enabled(s, e)
  {
    match e
    case Arrive(open, greeting, allowed) => Arrived(s, open, greeting, allowed)
    case Handler(h, stream, move) => Deliver(s, h, Moved(s.ends[h], stream, move))
    case Tell(h, m) => MessageClient(s, h, m)
    case TellAll(m, ignore) => MessageAll(s, m, ignore)
    case Update => HandleNext(s)
  }

  /** The server after a run, or nothing if some event of the run could not happen. */
  function Exec(s: Server, es: seq<Event>): Option<Server> {
    if es == [] then Some(s)
    else
      match Exec(s, es[..|es| - 1])
      case None => None
      case Some(m) => if Enabled(m, es[|es| - 1]) then Some(Apply(m, es[|es| - 1])) else None
  }
}
