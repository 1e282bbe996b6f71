/** CustomClient: the messages it builds and sends, and the decoding of those it takes off its queue. */
module CustomClients {
  import opened Base
  import opened Framing
  import opened SerialMessages
  import opened ServerModel
  import opened AppModel
  import opened Connections

  /** What the client shows for a message, or instead of one when the connection is gone. */
  datatype Shown = ServerAccepted | PingTime(time: seq<Byte>) | HelloFrom(id: Word) | Nothing | ServerDown

  /** The switch of the main loop. The client does not check that the body is long enough for the value it pops. */
  function Show(m: Message): Shown
    requires m.id == SERVER_PING ==> |m.body| >= TIME_SIZE
    requires m.id == SERVER_MESSAGE ==> |m.body| >= 4
  {
    if m.id == SERVER_ACCEPT then ServerAccepted
    else if m.id == SERVER_PING then PingTime(Popped(m, TIME_SIZE).1)
    else if m.id == SERVER_MESSAGE then HelloFrom(WordOf(Popped(m, 4).1))
    else Nothing
  }

  class CustomClient {
    const connection: Connection
    var taken: nat                // how many messages have been popped from Incoming()

    constructor (c: Connection)
      ensures connection == c && taken == 0
    {
      connection, taken := c, 0;
    }

    method Send(m: Message)
      modifies connection
      ensures connection.View() == ClientSend(old(connection.View()), m)
    {
      if connection.IsConnected() { connection.Send(m); }
    }

    method PingServer(timeNow: seq<Byte>)
      requires |timeNow| == TIME_SIZE
      modifies connection
      ensures connection.View() == ClientSend(old(connection.View()), Ping(timeNow))
    {
      var msg := new SerialMessage(SERVER_PING);
      msg.Push(timeNow);
      Send(msg.View());
    }

    method MessageAll()
      modifies connection
      ensures connection.View() == ClientSend(old(connection.View()), ASK)
    {
      var msg := new SerialMessage(MESSAGE_ALL);
      Send(msg.View());
    }

    /** The body of the main loop: as long as the client is connected, pops the next message, if there is one, and
        decodes it. */
    method TakeMessage() returns (shown: Option<Shown>)
      requires forall i | taken <= i < |connection.incoming| ::
                 var m := connection.incoming[i];
                 (m.id == SERVER_PING ==> |m.body| >= TIME_SIZE) && (m.id == SERVER_MESSAGE ==> |m.body| >= 4)
      modifies this`taken
      ensures if !connection.open then shown == Some(ServerDown) && taken == old(taken)
              else if old(taken) < |connection.incoming|
              then shown == Some(Show(connection.incoming[old(taken)])) && taken == old(taken) + 1
              else shown == None && taken == old(taken)
    {
      if !connection.IsConnected() { return Some(ServerDown); }
      if taken >= |connection.incoming| { return None; }
      var front := connection.incoming[taken];
      taken := taken + 1;
      var msg := new SerialMessage.From(front);
      if front.id == SERVER_ACCEPT {
        shown := Some(ServerAccepted);
      } else if front.id == SERVER_PING {
        var timeThen := msg.Pop(TIME_SIZE);
        shown := Some(PingTime(timeThen));
      } else if front.id == SERVER_MESSAGE {
        var clientID := msg.Pop(4);
        shown := Some(HelloFrom(WordOf(clientID)));
      } else {
        shown := Some(Nothing);
      }
    }
  }
}
