/** The asynchronous client with a pool of no threads: Close returns and the request is never reported. */
module ClientEmptyPool {
  import opened Base
  import opened ClientModel
  import opened ClientTheorems

  const FRESH := Session(7, NoError, "", false, None)

  /** The only user thread at `pc`, and a request for id 7. */
  function Scene(pc: Pc, active: map<int, SessionId>, guard: Option<Thread>): State {
    State(0, [pc], [FRESH], active, guard, [], true, false, [], [WithCaller(0)], [0])
  }

  lemma Go(es: seq<Event>, m: State, e: Event, m': State) returns (fs: seq<Event>)
    requires Exec(Init(0, 1), es) == Some(m) && Enabled(m, e) && Apply(m, e) == m'
    ensures Exec(Init(0, 1), fs) == Some(m')
  {
    fs := es + [e];
    ExecExtend(Init(0, 1), es, e);
  }

  lemma CallRequest() returns (es: seq<Event>)
    ensures Exec(Init(0, 1), es) == Some(Scene(Starting(0, Insert), map[], Some(0)))
  {
    assert Init(0, 1).pcs == [Idle];
    var s1 := Scene(Starting(0, LockMap), map[], None);
    es := Go([], Init(0, 1), CallStart(0, 7), s1);
    es := Go(es, s1, ThreadStep(0), Scene(Starting(0, Insert), map[], Some(0)));
  }

  lemma StartRequest() returns (es: seq<Event>)
    ensures Exec(Init(0, 1), es) == Some(Scene(Starting(0, StartConnect), map[7 := 0], None))
  {
    var s2 := Scene(Starting(0, Insert), map[], Some(0));
    var s3 := Scene(Starting(0, UnlockMap), map[7 := 0], Some(0));
    es := CallRequest();
    es := Go(es, s2, ThreadStep(0), s3);
    es := Go(es, s3, ThreadStep(0), Scene(Starting(0, StartConnect), map[7 := 0], None));
  }

  /** The request has been made, and Asio has its connect. */
  function Connecting(pc: Pc, working: bool): State {
    State(0, [pc], [FRESH], map[7 := 0], None, [Op(0, Connect, Pending(false))], working, false, [], [InOp(0)], [0])
  }

  lemma Connects() returns (es: seq<Event>)
    ensures Exec(Init(0, 1), es) == Some(Connecting(Idle, true))
  {
    es := StartRequest();
    es := Go(es, Scene(Starting(0, StartConnect), map[7 := 0], None), ThreadStep(0), Connecting(Idle, true));
  }

  /** Close returns with the request in the map and its callback not invoked. */
  lemma CloseAbandons() returns (es: seq<Event>, s: State)
    ensures Exec(Init(0, 1), es) == Some(s) && CanStep(s, 0) && s.pcs[0].Joining?
    ensures Advance(s, 0).active == map[7 := 0] && Advance(s, 0).callbacks == []
  {
    es := Connects();
    s := Connecting(Joining, false);
    es := Go(es, Connecting(Idle, true), CallClose(0), s);
  }
}
