/** The chat server and its sessions as objects: the handlers change their fields. */
module ChatServers {
  import opened Base
  import opened ChatModel
  import opened ChatTheorems

  class ChatSession {
    var open: bool
    var outgoing: seq<Message>
    var writing: Option<string>
    var reading: bool
    var streambuf: string
    ghost var posted: seq<Message>
    ghost var written: seq<Message>
    ghost var emitted: string
    ghost var writeFailed: bool
    ghost var received: string
    ghost var said: seq<string>
    ghost var joined: nat
    ghost var exit: Option<Exit>

    /** The session of the model that the fields make up. */
    ghost function View(): Session
      reads this
    {
      Session(open, outgoing, writing, reading, streambuf,
              posted, written, emitted, writeFailed, received, said, joined, exit)
    }

    constructor (isOpen: bool)
      ensures View() == NewSession(isOpen)
    {
      open, outgoing, writing, reading, streambuf := isOpen, [], None, false, "";
      posted, written, emitted, writeFailed, received, said, joined, exit := [], [], "", false, "", [], 0, None;
    }

    method Post(m: Message)
      modifies this
      ensures View() == PostTo(old(View()), m)
    {
      var idle := outgoing == [];
      outgoing := outgoing + [m];
      posted := posted + [m];
      if idle {
        AsyncWrite();
      }
    }

    method AsyncWrite()
      requires outgoing != []
      modifies this`writing
      ensures View() == StartWrite(old(View()))
    {
      writing := Some(Text(outgoing[0]));
    }

    method Start(ghost logged: nat)
      modifies this`reading, this`joined
      ensures View() == old(View()).(reading := true, joined := logged)
    {
      joined := logged;
      reading := true;
    }

    /** The success branch of on_write */
    method OnWritten()
      requires outgoing != []
      modifies this
      ensures View() == FrontWritten(old(View()))
    {
      written := written + [outgoing[0]];
      outgoing, writing := outgoing[1..], None;
      if outgoing != [] {
        AsyncWrite();
      }
    }

    /** Puts the whole buffer into the message. */
    method TakeMessage() returns (text: string)
      modifies this
      ensures View() == Drained(old(View())) && text == old(View()).buffer
    {
      text := streambuf;
      said := said + [text];
      streambuf := "";
    }
  }

  class ChatServer {
    var sessions: seq<ChatSession>      // every session accepted so far
    var clients: set<ChatSession>
    ghost var log: seq<Message>
    ghost var Repr: set<ChatSession>

    /** The sessions are different objects, and the clients are among them. */
    ghost predicate Valid()
      reads this
    {
      && (forall i, j | 0 <= i < j < |sessions| :: sessions[i] != sessions[j])
      && (forall c | c in clients :: c in sessions)
      && (forall c | c in sessions :: c in Repr)
    }

    ghost function Clients(): set<Client>
      reads this
    {
      set i: nat | i < |sessions| && sessions[i] in clients
    }

    ghost function View(): State
      reads this, sessions
    {
      State(seq(|sessions|, i requires 0 <= i < |sessions| reads this, sessions => sessions[i].View()), Clients(), log)
    }

    constructor ()
      ensures Valid() && View() == START && Repr == {}
    {
      sessions, clients, log, Repr := [], {}, [], {};
    }

    /** Posts to every client. */
    method Post(m: Message)
      requires Valid()
      modifies this`log, Repr
      ensures Valid() && View() == Broadcast(old(View()), m)
    {
      var todo := clients;
      while todo != {}
        invariant todo <= clients && log == old(log)
        invariant forall i: nat | i < |sessions| ::
                    sessions[i].View() == if sessions[i] in clients - todo then PostTo(old(sessions[i].View()), m)
                                          else old(sessions[i].View())
        decreases |todo|
      {
        var client :| client in todo;
        client.Post(m);
        todo := todo - {client};
      }
      log := log + [m];
      assert Clients() == old(Clients());
      assert View().sessions == Broadcast(old(View()), m).sessions;
    }

    /** on_error as bound in async_accept */
    method OnError(c: Client)
      requires Valid() && c < |sessions|
      modifies this, Repr
      ensures Valid() && sessions == old(sessions) && Repr == old(Repr)
      ensures View() == Failed(old(View()), c, old(sessions[c].View()))
    {
      if sessions[c] in clients {
        clients := clients - {sessions[c]};
        sessions[c].exit := Some(Exit(|log|, |sessions[c].said|, LastWord(sessions[c].View())));
        assert Clients() == old(Clients()) - {c};
        Post(OneLess(c));
      }
    }

    /** clients.insert */
    method AddClient(client: ChatSession)
      requires Valid() && client !in sessions
      modifies this
      ensures Valid() && sessions == old(sessions) + [client] && log == old(log) && Repr == old(Repr) + {client}
      ensures View().sessions == old(View()).sessions + [client.View()]
      ensures View().clients == old(View()).clients + {|old(sessions)|}
    {
      sessions := sessions + [client];
      clients := clients + {client};
      Repr := Repr + {client};
    }

    /** The handler of async_accept */
    method OnAccept(open: bool)
      requires Valid()
      modifies this, Repr
      ensures Valid() && fresh(Repr - old(Repr))
      ensures View() == Accepted(old(View()), open)
    {
      var client := new ChatSession(open);
      client.Post(Welcome);
      Post(Newcomer(|sessions|));
      Admit(client);
    }

    method Admit(client: ChatSession)
      requires Valid() && client !in sessions
      modifies this, client
      ensures Valid() && sessions == old(sessions) + [client] && log == old(log) && Repr == old(Repr) + {client}
      ensures View().sessions == old(View()).sessions + [old(client.View()).(reading := true, joined := |log|)]
      ensures View().clients == old(View()).clients + {|old(sessions)|}
    {
      AddClient(client);
      client.Start(|log|);
    }

    /** on_read */
    method OnRead(c: Client, error: bool, endpoint: string)
      requires Valid() && Enabled(View(), if error then ReadFail(c) else ReadDone(c, endpoint))
      modifies this, Repr
      ensures Valid() && sessions == old(sessions) && Repr == old(Repr)
      ensures View() == Apply(old(View()), if error then ReadFail(c) else ReadDone(c, endpoint))
    {
      if error {
        sessions[c].open, sessions[c].reading := false, false;
        OnError(c);
      } else {
        var text := sessions[c].TakeMessage();
        assert View() == With(old(View()), c, Drained(old(sessions[c].View())));
        Post(Chat(c, endpoint, text));
      }
    }

    /** on_write */
    method OnWrite(c: Client, error: bool)
      requires Valid() && Enabled(View(), if error then WriteFail(c) else WriteDone(c))
      modifies this, Repr
      ensures Valid() && sessions == old(sessions) && Repr == old(Repr)
      ensures View() == Apply(old(View()), if error then WriteFail(c) else WriteDone(c))
    {
      if error {
        sessions[c].open, sessions[c].writing, sessions[c].writeFailed := false, None, true;
        OnError(c);
      } else {
        sessions[c].OnWritten();
      }
    }

    /** Some characters of the write under way reach the socket; returns them. */
    method Transmit(c: Client, n: nat) returns (text: string)
      requires Valid() && Enabled(View(), Emit(c, n))
      modifies sessions[c]
      ensures Valid() && |text| == n && sessions[c].emitted == old(sessions[c].emitted) + text
      ensures View() == Apply(old(View()), Emit(c, n))
    {
      var left := sessions[c].writing.value;
      text := left[..n];
      sessions[c].writing := Some(left[n..]);
      sessions[c].emitted := sessions[c].emitted + text;
    }

    /** Some characters from the socket reach the stream buffer. */
    method Take(c: Client, text: string)
      requires Valid() && Enabled(View(), Receive(c, text))
      modifies sessions[c]
      ensures Valid() && View() == Apply(old(View()), Receive(c, text))
    {
      sessions[c].streambuf := sessions[c].streambuf + text;
      sessions[c].received := sessions[c].received + text;
    }

    /** One handler, or one move of the network. */
    method Happen(e: Event)
      requires Valid() && Enabled(View(), e)
      modifies this, Repr
      ensures Valid() && View() == Apply(old(View()), e)
      ensures fresh(Repr - old(Repr))
    {
      match e {
        case Accept(open) => OnAccept(open);
        case Receive(c, text) => Take(c, text);
        case ReadDone(c, endpoint) => OnRead(c, false, endpoint);
        case ReadFail(c) => OnRead(c, true, "");
        case Emit(c, n) => var _ := Transmit(c, n);
        case WriteDone(c) => OnWrite(c, false);
        case WriteFail(c) => OnWrite(c, true);
      }
    }

    /** Runs the server under any schedule that its clients and the network allow; it ends where the model does. */
    method Run(schedule: seq<Event>)
      requires Valid() && Exec(View(), schedule).Some?
      modifies this, Repr
      ensures Valid() && Exec(old(View()), schedule) == Some(View())
      ensures fresh(Repr - old(Repr))
    {
      if schedule != [] {
        Run(schedule[..|schedule| - 1]);
        Happen(schedule[|schedule| - 1]);
      }
    }
  }
}
