/**
 The sharp condition for the absence of wait cycles in the asynchronous client: how often each id may be passed to
 CancelRequest.  Whatever the pool, the users and the id, two cancels of one id can end in a wait cycle.
 */
module ClientTwoCancels {
  import opened Base
  import opened ClientModel
  import opened ClientInvariant
  import opened ClientTheorems
  import opened ClientDeadlock
  import opened ClientUsage

  /** All threads idle but the first user thread, which is at `pc`. */
  function Pcs(pool: nat, users: nat, pc: Pc): (pcs: seq<Pc>)
    requires users > 0
    ensures |pcs| == pool + users && pcs[pool] == pc && forall t | 0 <= t < pool :: pcs[t] == Idle
  {
    AllIdle(pool + users)[pool := pc]
  }

  function AllIdle(threads: nat): seq<Pc> { seq(threads, i => Idle) }

  lemma PcsMove(pool: nat, users: nat, pc: Pc, next: Pc)
    requires users > 0
    ensures Pcs(pool, users, pc)[pool := next] == Pcs(pool, users, next)
  {
  }

  /** The client, its one request's id, and where the first user thread and the request stand. */
  function Scene(pool: nat, users: nat, id: int, pc: Pc, canceled: bool, owner: Option<Thread>, guard: Option<Thread>,
                 status: Status, found: nat): State
    requires users > 0
  {
    State(pool, Pcs(pool, users, pc), [Session(id, NoError, "", canceled, owner)], map[id := 0], guard,
          [Op(0, Connect, status)], true, false, [], [InOp(0)], [found])
  }

  /** A run of n calls of CancelRequest(id) and of none with another id. */
  ghost predicate OnlyCancels(es: seq<Event>, id: int, n: nat) {
    Cancels(es, id) == n && forall j | j != id :: Cancels(es, j) == 0
  }

  lemma CancelsSnoc(es: seq<Event>, e: Event, id: int)
    ensures Cancels(es + [e], id) == Cancels(es, id) + Asked(e, id)
  {
    assert (es + [e])[..|es|] == es;
  }

  lemma Go(s: State, es: seq<Event>, m: State, e: Event, m': State, id: int, n: nat) returns (fs: seq<Event>)
    requires Exec(s, es) == Some(m) && Enabled(m, e) && Apply(m, e) == m'
    requires OnlyCancels(es, id, n) && (e.CallCancel? ==> e.id == id)
    ensures Exec(s, fs) == Some(m') && OnlyCancels(fs, id, n + Asked(e, id))
  {
    fs := es + [e];
    ExecExtend(s, es, e);
    forall j ensures Cancels(fs, j) == Cancels(es, j) + Asked(e, j) { CancelsSnoc(es, e, j); }
  }

  /** One step of the user thread. */
  lemma GoStep(s: State, es: seq<Event>, m: State, m': State, id: int, n: nat) returns (fs: seq<Event>)
    requires Exec(s, es) == Some(m) && OnlyCancels(es, id, n)
    requires CanStep(m, m.pool) && Advance(m, m.pool) == m'
    ensures Exec(s, fs) == Some(m') && OnlyCancels(fs, id, n)
  {
    fs := Go(s, es, m, ThreadStep(m.pool), m', id, n);
  }

  /** The request is being put into the map. */
  function Starts(pool: nat, users: nat, id: int, start: StartAt, active: map<int, SessionId>,
                  guard: Option<Thread>): State
    requires users > 0
  {
    State(pool, Pcs(pool, users, Starting(0, start)), [Session(id, NoError, "", false, None)], active, guard, [],
          true, false, [], [WithCaller(pool)], [0])
  }

  lemma Insertion(pool: nat, users: nat, id: int) returns (es: seq<Event>)
    requires users > 0
    ensures Exec(Init(pool, users), es) == Some(Starts(pool, users, id, UnlockMap, map[id := 0], Some(pool)))
    ensures OnlyCancels(es, id, 0)
  {
    var i := Init(pool, users);
    assert i.pcs == Pcs(pool, users, Idle);
    var s1 := Starts(pool, users, id, LockMap, map[], None);
    var s2 := Starts(pool, users, id, Insert, map[], Some(pool));
    es := Go(i, [], i, CallStart(pool, id), s1, id, 0);
    es := GoStep(i, es, s1, s2, id, 0);
    es := GoStep(i, es, s2, Starts(pool, users, id, UnlockMap, map[id := 0], Some(pool)), id, 0);
  }

  lemma Connecting(pool: nat, users: nat, id: int) returns (es: seq<Event>)
    requires users > 0
    ensures Exec(Init(pool, users), es) == Some(Scene(pool, users, id, Idle, false, None, None, Pending(false), 0))
    ensures OnlyCancels(es, id, 0)
  {
    var i := Init(pool, users);
    var s3 := Starts(pool, users, id, UnlockMap, map[id := 0], Some(pool));
    var s4 := Starts(pool, users, id, StartConnect, map[id := 0], None);
    es := Insertion(pool, users, id);
    PcsMove(pool, users, Starting(0, UnlockMap), Starting(0, StartConnect));
    es := GoStep(i, es, s3, s4, id, 0);
    PcsMove(pool, users, Starting(0, StartConnect), Idle);
    es := GoStep(i, es, s4, Scene(pool, users, id, Idle, false, None, None, Pending(false), 0), id, 0);
  }

  /** A call of CancelRequest up to its lookup. */
  lemma Asks(pool: nat, users: nat, id: int, canceled: bool, status: Status, n: nat, es0: seq<Event>)
    returns (es: seq<Event>)
    requires users > 0 && OnlyCancels(es0, id, n)
    requires Exec(Init(pool, users), es0) == Some(Scene(pool, users, id, Idle, canceled, None, None, status, n))
    ensures Exec(Init(pool, users), es) ==
            Some(Scene(pool, users, id, Seeking(id), canceled, None, Some(pool), status, n))
    ensures OnlyCancels(es, id, n + 1)
  {
    var i := Init(pool, users);
    var s0 := Scene(pool, users, id, Idle, canceled, None, None, status, n);
    var s1 := Scene(pool, users, id, Asking(id), canceled, None, None, status, n);
    var s2 := Scene(pool, users, id, Seeking(id), canceled, None, Some(pool), status, n);
    PcsMove(pool, users, Idle, Asking(id));
    es := Go(i, es0, s0, CallCancel(pool, id), s1, id, n);
    PcsMove(pool, users, Asking(id), Seeking(id));
    es := GoStep(i, es, s1, s2, id, n + 1);
  }

  /** ... and up to its finding the session. */
  lemma Finding(pool: nat, users: nat, id: int, canceled: bool, status: Status, n: nat, es0: seq<Event>)
    returns (es: seq<Event>)
    requires users > 0 && OnlyCancels(es0, id, n)
    requires Exec(Init(pool, users), es0) == Some(Scene(pool, users, id, Idle, canceled, None, None, status, n))
    ensures Exec(Init(pool, users), es) ==
            Some(Scene(pool, users, id, Canceling(0, LockGuard), canceled, None, Some(pool), status, n + 1))
    ensures OnlyCancels(es, id, n + 1)
  {
    var i := Init(pool, users);
    var s2 := Scene(pool, users, id, Seeking(id), canceled, None, Some(pool), status, n);
    var s3 := Scene(pool, users, id, Canceling(0, LockGuard), canceled, None, Some(pool), status, n + 1);
    es := Asks(pool, users, id, canceled, status, n, es0);
    PcsMove(pool, users, Seeking(id), Canceling(0, LockGuard));
    assert s2.active[id] == 0 && s2.found[0 := n + 1] == s3.found;
    assert Advance(s2, pool) == s3;
    es := GoStep(i, es, s2, s3, id, n + 1);
  }

  lemma Flagging(pool: nat, users: nat, id: int, es0: seq<Event>) returns (es: seq<Event>)
    requires users > 0 && OnlyCancels(es0, id, 1)
    requires Exec(Init(pool, users), es0) ==
             Some(Scene(pool, users, id, Canceling(0, LockGuard), false, None, Some(pool), Pending(false), 1))
    ensures Exec(Init(pool, users), es) ==
            Some(Scene(pool, users, id, Canceling(0, CancelSocket), true, Some(pool), Some(pool), Pending(false), 1))
    ensures OnlyCancels(es, id, 1)
  {
    var i := Init(pool, users);
    var s3 := Scene(pool, users, id, Canceling(0, LockGuard), false, None, Some(pool), Pending(false), 1);
    var s4 := Scene(pool, users, id, Canceling(0, SetFlag), false, Some(pool), Some(pool), Pending(false), 1);
    var s5 := Scene(pool, users, id, Canceling(0, CancelSocket), true, Some(pool), Some(pool), Pending(false), 1);
    es := GoStep(i, es0, s3, s4, id, 1);
    es := GoStep(i, es, s4, s5, id, 1);
  }

  lemma Leaving(pool: nat, users: nat, id: int, es0: seq<Event>) returns (es: seq<Event>)
    requires users > 0 && OnlyCancels(es0, id, 1)
    requires Exec(Init(pool, users), es0) ==
             Some(Scene(pool, users, id, Canceling(0, CancelSocket), true, Some(pool), Some(pool), Pending(false), 1))
    ensures Exec(Init(pool, users), es) == Some(Scene(pool, users, id, Idle, true, None, None, Pending(true), 1))
    ensures OnlyCancels(es, id, 1)
  {
    var i := Init(pool, users);
    var s5 := Scene(pool, users, id, Canceling(0, CancelSocket), true, Some(pool), Some(pool), Pending(false), 1);
    var s6 := Scene(pool, users, id, Canceling(0, UnlockGuard), true, Some(pool), Some(pool), Pending(true), 1);
    var s7 := Scene(pool, users, id, Pc.Leaving, true, None, Some(pool), Pending(true), 1);
    assert Abort(s5.ops, 0) == s6.ops;
    es := GoStep(i, es0, s5, s6, id, 1);
    es := GoStep(i, es, s6, s7, id, 1);
    es := GoStep(i, es, s7, Scene(pool, users, id, Idle, true, None, None, Pending(true), 1), id, 1);
  }

  /** One request, cancelled once, whose connect has succeeded all the same, and a second cancel that has found it. */
  lemma CancelledTwice(pool: nat, users: nat, id: int) returns (es: seq<Event>)
    requires users > 0
    ensures Exec(Init(pool, users), es) ==
            Some(Scene(pool, users, id, Canceling(0, LockGuard), true, None, Some(pool), Ready(NoError, ""), 2))
    ensures OnlyCancels(es, id, 2)
  {
    es := Connecting(pool, users, id);
    es := Finding(pool, users, id, false, Pending(false), 0, es);
    es := Flagging(pool, users, id, es);
    es := Leaving(pool, users, id, es);
    var s1 := Scene(pool, users, id, Idle, true, None, None, Pending(true), 1);
    var s2 := Scene(pool, users, id, Idle, true, None, None, Ready(NoError, ""), 1);
    es := Go(Init(pool, users), es, s1, OpCompletes(0, NoError, ""), s2, id, 1);
    es := Finding(pool, users, id, true, Ready(NoError, ""), 1, es);
  }

  lemma {:induction false} NoCancels(es: seq<Event>, fs: seq<Event>, id: int)
    requires forall e | e in fs :: !e.CallCancel?
    ensures Cancels(es + fs, id) == Cancels(es, id)
  {
    if fs == [] {
      assert es + fs == es;
    } else {
      var init, e := fs[..|fs| - 1], fs[|fs| - 1];
      NoCancels(es, init, id);
      assert es + fs == (es + init) + [e];
      CancelsSnoc(es + init, e, id);
    }
  }

  /** For every pool with a thread, every number of users and every id: two cancels of this id, and of no other, can
      hang a user thread and a pool thread for ever. */
  lemma TwoCancelsCanDeadlock(pool: nat, users: nat, id: int) returns (es: seq<Event>, d: State)
    requires pool > 0 && users > 0
    ensures Exec(Init(pool, users), es) == Some(d) && WaitCycle(d, [pool, 0]) && OnlyCancels(es, id, 2)
  {
    var e3 := CancelledTwice(pool, users, id);
    var s := Scene(pool, users, id, Canceling(0, LockGuard), true, None, Some(pool), Ready(NoError, ""), 2);
    InitInv(pool, users);
    RunKept(Init(pool, users), e3);
    var e4;
    e4, d := SecondCancelDeadlocks(s, pool, 0, 0);
    ExecAppend(Init(pool, users), e3, e4);
    es := e3 + e4;
    forall j ensures Cancels(es, j) == Cancels(e3, j) { NoCancels(e3, e4, j); }
  }

  /** The users pass id to CancelRequest at most n(id) times. */
  ghost predicate Within(es: seq<Event>, n: int -> nat) { forall id :: Cancels(es, id) <= n(id) }

  /** No run of the client within these limits reaches a wait cycle. */
  ghost predicate NeverHangs(pool: nat, users: nat, n: int -> nat) {
    forall es, s, c | Exec(Init(pool, users), es) == Some(s) && Within(es, n) :: !WaitCycle(s, c)
  }

  lemma NobodyToClash(pool: nat, users: nat, es: seq<Event>, s: State, c: seq<Thread>)
    requires Exec(Init(pool, users), es) == Some(s) && (pool == 0 || users == 0)
    ensures !WaitCycle(s, c)
  {
    InitInv(pool, users);
    RunKept(Init(pool, users), es);
    PoolKept(Init(pool, users), es);
    CycleIsClash(s);
    forall t: Thread, u: Thread ensures !Clash(s, t, u) { NoClash(s, t, u); }
  }

  lemma NoClash(s: State, t: Thread, u: Thread)
    requires Inv(s) && (s.pool == 0 || |s.pcs| == s.pool)
    ensures !Clash(s, t, u)
  {
    if t < |s.pcs| && u < |s.pcs| { assert ThreadOk(s, t) && ThreadOk(s, u); }
  }

  /** The exact condition: whatever limits a user sets, one for each id, the client is free of wait cycles in every run
      within them if and only if no id may be cancelled twice, or there is no pool thread or no user thread at all. */
  lemma NeverHangsIff(pool: nat, users: nat, n: int -> nat)
    ensures NeverHangs(pool, users, n) <==> pool == 0 || users == 0 || forall id :: n(id) <= 1
  {
    if pool == 0 || users == 0 {
      forall es, s, c | Exec(Init(pool, users), es) == Some(s) ensures !WaitCycle(s, c) {
        NobodyToClash(pool, users, es, s, c);
      }
    } else if id :| n(id) > 1 {
      var es, d := TwoCancelsCanDeadlock(pool, users, id);
      assert Within(es, n);
    } else {
      forall es, s, c | Exec(Init(pool, users), es) == Some(s) && Within(es, n) ensures !WaitCycle(s, c) {
        OnceIsSafe(pool, users, n, es, s, c);
      }
    }
  }

  lemma OnceIsSafe(pool: nat, users: nat, n: int -> nat, es: seq<Event>, s: State, c: seq<Thread>)
    requires Exec(Init(pool, users), es) == Some(s) && Within(es, n) && forall id :: n(id) <= 1
    ensures !WaitCycle(s, c)
  {
    forall id ensures Cancels(es, id) <= 1 { assert Cancels(es, id) <= n(id) <= 1; }
    CalledOnceFoundOnce(pool, users, es, s);
    NoDeadlock(pool, users, es, s, c);
  }
}
