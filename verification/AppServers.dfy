/** The server's part in the runs of the whole system, and the fate of a client whose connection fails. */
module AppServers {
  import opened Base
  import opened ServerModel
  import opened AppModel
  import opened AppTheorems
  import C = ConnectionModel
  import CT = ConnectionTheorems
  import SD = ServerDepartures

  /** The server's part of a step. */
  lemma ServerStep(s: App, e: Step) returns (fs: seq<Event>)
    requires CanStep(s, e)
    ensures Exec(s.server, fs) == Some(Next(s, e).server)
  {
    match e
    case Join(open) => fs := OneEvent(s.server, Arrive(open, [ACCEPTED], true));
    case AtServer(c, move) => fs := OneEvent(s.server, Handler(c, s.clients[c].writer.emitted, move));
    case Handle => fs := OneEvent(s.server, Update);
    case _ => fs := [];
  }

  lemma OneEvent(s: Server, e: Event) returns (fs: seq<Event>)
    requires Enabled(s, e)
    ensures Exec(s, fs) == Some(Apply(s, e))
  {
    fs := [e];
    assert fs[..0] == [];
  }

  lemma {:induction false} ServerAppend(s: Server, es: seq<Event>, fs: seq<Event>)
    requires Exec(s, es).Some? && Exec(Exec(s, es).value, fs).Some?
    ensures Exec(s, es + fs) == Exec(Exec(s, es).value, fs)
  {
    if fs == [] {
      assert es + fs == es;
    } else {
      ServerAppend(s, es, fs[..|fs| - 1]);
      assert (es + fs)[..|es + fs| - 1] == es + fs[..|fs| - 1];
    }
  }

  /** Whatever the whole system does between two moments is, for the server, a run of its own model. */
  lemma {:induction false} ServerRuns(es: seq<Step>, s: App, more: seq<Step>, z: App) returns (fs: seq<Event>)
    requires Run(es) == Some(s) && Run(es + more) == Some(z)
    ensures Exec(s.server, fs) == Some(z.server)
  {
    if more == [] {
      assert es + more == es;
      fs := [];
    } else {
      var init, e := more[..|more| - 1], more[|more| - 1];
      assert (es + more)[..|es + more| - 1] == es + init;
      var m := Run(es + init).value;
      var gs := ServerRuns(es, s, init, m);
      var hs := ServerStep(m, e);
      ServerAppend(s.server, gs, hs);
      fs := gs + hs;
    }
  }

  lemma ServerRunsFromStart(es: seq<Step>, s: App) returns (fs: seq<Event>)
    requires Run(es) == Some(s)
    ensures Exec(START, fs) == Some(s.server)
  {
    assert [] + es == es;
    fs := ServerRuns([], NOBODY, es, s);
  }

  /** In the whole system: a read or write of client c's connection fails at the server. The first MessageAll that is
      handled after that, of whatever client, sends nothing to c, and takes c out of the deque and has it reported. */
  lemma FailureIsNoticed(es: seq<Step>, s: App, c: Handle, move: C.Move, more: seq<Step>, m: App)
    requires Run(es) == Some(s) && CanStep(s, AtServer(c, move)) && (move.FailRead? || move.FailWrite?)
    requires Run((es + [AtServer(c, move)]) + more) == Some(m)
    requires CanStep(m, Handle) && m.server.incoming[0].msg.id == MESSAGE_ALL
    ensures c < |m.server.ends| && c < |Next(m, Handle).server.ends|
    ensures Next(m, Handle).server.ends[c].sent == m.server.ends[c].sent
    ensures c !in Next(m, Handle).server.deq && c in Next(m, Handle).server.gone
  {
    var e := AtServer(c, move);
    assert (es + [e])[..|es|] == es;
    var before := ServerRunsFromStart(es, s);
    var between := ServerRuns(es + [e], Next(s, e), more, m);
    var stream := s.clients[c].writer.emitted;
    SD.FailureIsNoticed(before, s.server, c, stream, move, between, m.server, Update, [], Next(m, Handle).server);
  }

  /** In the whole system both ends of every connection are healthy at every moment. */
  lemma {:induction false} FailureCloses(es: seq<Step>, s: App, c: Handle)
    requires Run(es) == Some(s) && c < |s.clients|
    ensures c < |s.server.ends| && CT.Healthy(s.clients[c]) && SD.EndHealthy(s.server.ends[c])
  {
    var fs := ServerRunsFromStart(es, s);
    SD.RunAccounts(fs, s.server);
    RunKept(es, s);
    assert SD.EndHealthy(s.server.ends[c]);
    ClientHealthy(es, s, c);
  }

  lemma {:induction false} ClientHealthy(es: seq<Step>, s: App, c: Handle)
    requires Run(es) == Some(s) && c < |s.clients|
    ensures CT.Healthy(s.clients[c])
  {
    if es != [] {
      var m := Run(es[..|es| - 1]).value;
      if c < |m.clients| { ClientHealthy(es[..|es| - 1], m, c); }
      StepHealthy(m, es[|es| - 1], c);
    }
  }

  lemma StepHealthy(s: App, e: Step, c: Handle)
    requires CanStep(s, e) && c < |Next(s, e).clients| && (c < |s.clients| ==> CT.Healthy(s.clients[c]))
    ensures CT.Healthy(Next(s, e).clients[c])
  {
    match e
    case AtClient(d, move) => if c == d { CT.MoveHealthy(s.clients[c], s.server.ends[c].writer.emitted, move); }
    case _ =>
  }

  /** A client whose connection is open at the server is in the deque and has not been reported as gone. */
  lemma OpenInDeque(es: seq<Step>, s: App, c: Handle)
    requires Run(es) == Some(s) && c < |s.server.ends| && s.server.ends[c].open
    ensures c in s.server.deq && c !in s.server.gone
  {
    var fs := ServerRunsFromStart(es, s);
    SD.OpenIsListed(fs, s.server, c);
  }
}
