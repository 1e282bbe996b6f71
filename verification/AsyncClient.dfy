/** The asynchronous client itself: its fields, and the code that changes them, one method per atomic step. */
module AsyncClient {
  import opened Base
  import opened ClientModel
  import opened ClientInvariant

  class ClientSession {
    const id: int
    var ec: Code
    var response: string
    var canceled: bool         // m_was_canceled
    var guard: Option<Thread>  // m_cancel_guard

    /** The session of the model that the fields make up. */
    ghost function View(): Session
      reads this
    {
      Session(id, ec, response, canceled, guard)
    }

    constructor (requestId: int)
      ensures View() == Session(requestId, NoError, "", false, None)
    {
      id, ec, response, canceled, guard := requestId, NoError, "", false, None;
    }

    method Lock(t: Thread)
      modifies this`guard
      ensures View() == old(View()).(guard := Some(t))
    {
      guard := Some(t);
    }

    method Unlock()
      modifies this`guard
      ensures View() == old(View()).(guard := None)
    {
      guard := None;
    }
  }

  ghost function SessionsOf(all: seq<ClientSession>): (r: seq<Session>)
    reads all
    ensures |r| == |all| && forall i | 0 <= i < |all| :: r[i] == all[i].View()
  {
    seq(|all|, i requires 0 <= i < |all| reads all => all[i].View())
  }

  predicate Distinct(all: seq<ClientSession>, repr: set<ClientSession>) {
    (forall i, j | 0 <= i < j < |all| :: all[i] != all[j]) && forall i | 0 <= i < |all| :: all[i] in repr
  }

  class AsyncTcpClient {
    const pool: nat
    var pcs: seq<Pc>
    var sessions: seq<ClientSession>  // every session created so far
    var active: map<int, SessionId>   // m_active_sessions
    var guard: Option<Thread>         // m_active_sessions_guard
    var ops: seq<Op>
    var working: bool                 // m_work
    var stopped: bool
    var callbacks: seq<Call>
    ghost var place: seq<Place>
    ghost var found: seq<nat>
    ghost var Repr: set<ClientSession>

    ghost predicate Valid()
      reads this
    {
      Distinct(sessions, Repr)
    }

    /** The state of the model that the fields make up. */
    ghost function View(): State
      reads this, sessions
    {
      State(pool, pcs, SessionsOf(sessions), active, guard, ops, working, stopped, callbacks, place, found)
    }

    constructor (threads: nat, users: nat)
      ensures Valid() && Repr == {} && View() == Init(threads, users)
    {
      pool := threads;
      pcs := seq(threads + users, i => Idle);
      sessions, active, guard, ops := [], map[], None, [];
      working, stopped, callbacks := true, false, [];
      place, found, Repr := [], [], {};
    }

    /** Hands a new operation of session k to Asio. */
    method StartOperation(k: SessionId, stage: Stage)
      requires k < |place|
      modifies this`ops, this`place
      ensures View() == Initiate(old(View()), k, stage)
    {
      place := place[k := InOp(|ops|)];
      ops := ops + [Op(k, stage, Pending(false))];
    }

    /** EmulateLongComputationOp */
    method StartStep(t: Thread)
      requires Valid() && CanStep(View(), t) && pcs[t].Starting?
      modifies this`pcs, this`guard, this`active, this`ops, this`place
      ensures View() == Advance(old(View()), t)
    {
      var k := pcs[t].k;
      match pcs[t].start {
        case LockMap =>
          guard := Some(t);
          pcs := pcs[t := Starting(k, Insert)];
        case Insert =>
          active := active[sessions[k].id := k];
          pcs := pcs[t := Starting(k, UnlockMap)];
        case UnlockMap =>
          guard := None;
          pcs := pcs[t := Starting(k, StartConnect)];
        case StartConnect =>
          StartOperation(k, Connect);
          pcs := pcs[t := Idle];
      }
    }

    /** CancelRequest up to the lookup and its return, and the end of Close */
    method LookupStep(t: Thread)
      requires Valid() && CanStep(View(), t) && !HasSession(pcs[t])
      modifies this`pcs, this`guard, this`found
      ensures View() == Advance(old(View()), t)
    {
      match pcs[t] {
        case Asking(id) =>
          guard := Some(t);
          pcs := pcs[t := Seeking(id)];
        case Seeking(id) =>
          if id in active {
            var k := active[id];
            found := found[k := found[k] + 1];
            pcs := pcs[t := Canceling(k, LockGuard)];
          } else {
            pcs := pcs[t := Leaving];
          }
        case Leaving =>
          guard := None;
          pcs := pcs[t := Idle];
        case Joining => pcs := pcs[t := Idle];
      }
    }

    /** CancelRequest after the lookup */
    method CancelStep(t: Thread)
      requires Valid() && CanStep(View(), t) && pcs[t].Canceling?
      modifies this`pcs, this`ops, sessions[pcs[t].k]
      ensures View() == Advance(old(View()), t)
    {
      var session := sessions[pcs[t].k];
      var k := pcs[t].k;
      match pcs[t].cancel {
        case LockGuard =>
          session.Lock(t);
          pcs := pcs[t := Canceling(k, SetFlag)];
        case SetFlag =>
          session.canceled := true;
          pcs := pcs[t := Canceling(k, CancelSocket)];
        case CancelSocket =>
          AbortOperations(k);
          pcs := pcs[t := Canceling(k, UnlockGuard)];
        case UnlockGuard =>
          session.Unlock();
          pcs := pcs[t := Leaving];
      }
      assert SessionsOf(sessions) == old(SessionsOf(sessions))[k := session.View()];
    }

    /** socket.cancel(): goes through the operations and marks those of session k. */
    method AbortOperations(k: SessionId)
      modifies this`ops
      ensures ops == Abort(old(ops), k)
    {
      ghost var before := ops;
      var i := 0;
      while i < |ops|
        invariant 0 <= i <= |ops| == |before|
        invariant forall j | 0 <= j < i :: ops[j] == Abort(before, k)[j]
        invariant forall j | i <= j < |ops| :: ops[j] == before[j]
      {
        if ops[i].sid == k && ops[i].status.Pending? {
          ops := ops[i := ops[i].(status := Pending(true))];
        }
        i := i + 1;
      }
    }

    /** The completion handlers of async_connect, async_write and async_read_until */
    method HandlerStep(t: Thread)
      requires Valid() && CanStep(View(), t) && pcs[t].Handling?
      modifies this`pcs, this`ops, this`place, sessions[pcs[t].k]
      ensures View() == Advance(old(View()), t)
    {
      var pc := pcs[t];
      var session := sessions[pc.k];
      match pc.handler {
        case Enter =>
          if pc.code != NoError {
            session.ec := pc.code;
            pcs := pcs[t := Completing(pc.k, false, NoError, LockErase)];
          } else if pc.stage.Read? {
            session.response := pc.line;
            pcs := pcs[t := Completing(pc.k, false, NoError, LockErase)];
          } else {
            pcs := pcs[t := pc.(handler := LockFlag)];
          }
        case LockFlag =>
          session.Lock(t);
          pcs := pcs[t := pc.(handler := Check)];
        case Check =>
          if session.canceled {
            pcs := pcs[t := Completing(pc.k, true, NoError, LockErase)];
          } else {
            pcs := pcs[t := pc.(handler := StartNext)];
          }
        case StartNext =>
          StartOperation(pc.k, Next(pc.stage));
          pcs := pcs[t := Releasing(pc.k)];
      }
      assert SessionsOf(sessions) == old(SessionsOf(sessions))[pc.k := session.View()];
    }

    /** OnRequestComplete */
    method CompleteStep(t: Thread)
      requires Valid() && CanStep(View(), t) && pcs[t].Completing?
      modifies this`pcs, this`guard, this`active, this`callbacks, this`place
      ensures View() == Advance(old(View()), t)
    {
      var pc := pcs[t];
      var session := sessions[pc.k];
      match pc.complete {
        case LockErase =>
          guard := Some(t);
          pcs := pcs[t := pc.(complete := Erase)];
        case Erase =>
          active := active - {session.id};
          pcs := pcs[t := pc.(complete := UnlockErase)];
        case UnlockErase =>
          guard := None;
          pcs := pcs[t := pc.(complete := ReadFlag)];
        case ReadFlag =>
          var ec := if session.ec == NoError && session.canceled then OperationAborted else session.ec;
          pcs := pcs[t := pc.(code := ec, complete := CallBack)];
        case CallBack =>
          callbacks := callbacks + [Call(pc.k, session.id, session.response, pc.code)];
          place := place[pc.k := Finished];
          pcs := pcs[t := if pc.held then Releasing(pc.k) else Idle];
      }
    }

    /** The destructor of a handler's cancel_lock, and its return */
    method Release(t: Thread)
      requires Valid() && CanStep(View(), t) && pcs[t].Releasing?
      modifies this`pcs, sessions[pcs[t].k]
      ensures View() == Advance(old(View()), t)
    {
      ghost var k := pcs[t].k;
      sessions[pcs[t].k].Unlock();
      pcs := pcs[t := Idle];
      assert SessionsOf(sessions) == old(SessionsOf(sessions))[k := sessions[k].View()];
    }

    /** The next atomic step of thread t. */
    method Step(t: Thread)
      requires Valid() && CanStep(View(), t)
      modifies this, Repr
      ensures Valid() && Repr == old(Repr) && View() == Advance(old(View()), t)
    {
      match pcs[t] {
        case Starting(_, _) => StartStep(t);
        case Canceling(_, _) => CancelStep(t);
        case Handling(_, _, _, _, _) => HandlerStep(t);
        case Completing(_, _, _, _) => CompleteStep(t);
        case Releasing(_) => Release(t);
        case Asking(_) => LookupStep(t);
        case Seeking(_) => LookupStep(t);
        case Leaving => LookupStep(t);
        case Joining => LookupStep(t);
      }
    }

    /** A user calls EmulateLongComputationOp: a new session. */
    method NewRequest(t: Thread, id: int)
      requires Valid() && Enabled(View(), CallStart(t, id))
      modifies this
      ensures Valid() && fresh(Repr - old(Repr))
      ensures View() == Apply(old(View()), CallStart(t, id))
    {
      var session := new ClientSession(id);
      pcs := pcs[t := Starting(|sessions|, LockMap)];
      place, found := place + [WithCaller(t)], found + [0];
      sessions := sessions + [session];
      Repr := Repr + {session};
      assert SessionsOf(sessions) == old(SessionsOf(sessions)) + [session.View()];
    }

    /** Thread t of the pool takes up the handler of operation i. */
    method RunHandler(t: Thread, i: nat)
      requires Valid() && Enabled(View(), Dispatch(t, i))
      modifies this`pcs, this`ops, this`place
      ensures View() == Apply(old(View()), Dispatch(t, i))
    {
      var op := ops[i];
      pcs := pcs[t := Handling(op.sid, op.stage, op.status.code, op.status.line, Enter)];
      ops := ops[i := op.(status := Taken(op.status.code, op.status.line))];
      place := place[op.sid := OnThread(t)];
    }

    /** A call by the user or a decision of the environment. */
    method Happen(e: Event)
      requires Valid() && Enabled(View(), e)
      modifies this, Repr
      ensures Valid() && fresh(Repr - old(Repr)) && View() == Apply(old(View()), e)
    {
      match e {
        case CallStart(t, id) => NewRequest(t, id);
        case CallCancel(t, id) => pcs := pcs[t := Asking(id)];
        case CallClose(t) =>
          working := false;
          pcs := pcs[t := Joining];
        case OpCompletes(i, code, line) => ops := ops[i := ops[i].(status := Ready(code, line))];
        case Dispatch(t, i) => RunHandler(t, i);
        case RunOutOfWork => stopped := true;
        case ThreadExit(t) => pcs := pcs[t := Exited];
        case ThreadStep(t) => Step(t);
      }
    }

    /** Runs the client under any schedule that the program and its environment allow; the client ends where the model
        does, in a state that satisfies the invariant. */
    method Run(schedule: seq<Event>)
      requires Valid() && Inv(View()) && Exec(View(), schedule).Some?
      modifies this, Repr
      ensures Valid() && fresh(Repr - old(Repr))
      ensures Exec(old(View()), schedule) == Some(View()) && Inv(View())
    {
      if schedule != [] {
        Run(schedule[..|schedule| - 1]);
        EventKept(View(), schedule[|schedule| - 1]);
        Happen(schedule[|schedule| - 1]);
      }
    }
  }
}
