/** CustomServer with any number of CustomClients: the whole system as one state machine over bytes. */
module AppModel {
  import opened Base
  import opened Framing
  import opened SerialMessages
  import opened ServerModel
  import C = ConnectionModel

  /** Client c is at the other end of the server's connection c. */
  datatype App = App(server: Server, clients: seq<C.Endpoint>)

  /** sizeof(std::chrono::system_clock::time_point) */
  const TIME_SIZE := 8

  /** The message that OnClientConnect sends */
  const ACCEPTED := Message(SERVER_ACCEPT, 0, [])

  /** CustomClient::PingServer's message */
  function Ping(time: seq<Byte>): Message { Pushed(Message(SERVER_PING, 0, []), time) }

  /** CustomClient::MessageAll's message */
  const ASK := Message(MESSAGE_ALL, 0, [])

  const NOBODY := App(START, [])

  /** client_interface::Send */
  function ClientSend(e: C.Endpoint, m: Message): C.Endpoint { if e.open then C.Sending(e, m) else e }

  datatype Step =
    | Join(open: bool)                      // a connection is made and accepted
    | PressPing(c: Handle, time: seq<Byte>) // the user of client c enters 1
    | PressAll(c: Handle)                   // ... or 2
    | AtClient(c: Handle, move: C.Move)     // a handler at client c, or bytes moving there
    | AtServer(c: Handle, move: C.Move)     // ... at the server's end of that connection
    | Handle                                // Update handles a message

  predicate CanStep(s: App, e: Step) {
    match e
    case Join(_) => true
    case PressPing(c, time) => c < |s.clients| && |time| == TIME_SIZE
    case PressAll(c) => c < |s.clients|
    case AtClient(c, move) =>
      && c < |s.clients| && c < |s.server.ends| && (IoMove(move) || move.Connected?)
      && C.CanMove(s.clients[c], s.server.ends[c].writer.emitted, move)
    case AtServer(c, move) =>
      && c < |s.clients| && c < |s.server.ends| && IoMove(move)
      && C.CanMove(s.server.ends[c], s.clients[c].writer.emitted, move)
    case Handle => s.server.incoming != [] && s.server.incoming[0].remote < |s.server.ends|
  }

  function WithClient(s: App, c: Handle, e: C.Endpoint): App
    requires c < |s.clients|
  {
    s.(clients := s.clients[c := e])
  }

  function Next(s: App, e: Step): App
    requires CanStep(s, e)
  {
    match e
    case Join(open) => App(Arrived(s.server, open, [ACCEPTED], true), s.clients + [C.NEW_ENDPOINT])
    case PressPing(c, time) => WithClient(s, c, ClientSend(s.clients[c], Ping(time)))
    case PressAll(c) => WithClient(s, c, ClientSend(s.clients[c], ASK))
    case AtClient(c, move) => WithClient(s, c, C.Moved(s.clients[c], s.server.ends[c].writer.emitted, move))
    case AtServer(c, move) =>
      s.(server := Deliver(s.server, c, C.Moved(s.server.ends[c], s.clients[c].writer.emitted, move)))
    case Handle => s.(server := HandleNext(s.server))
  }

  /** The system after a run, or nothing if some step of the run could not be taken. */
  function Run(es: seq<Step>): Option<App> {
    if es == [] then Some(NOBODY)
    else
      match Run(es[..|es| - 1])
      case None => None
      case Some(m) => if CanStep(m, es[|es| - 1]) then Some(Next(m, es[|es| - 1])) else None
  }
}
