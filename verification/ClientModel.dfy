/**
 The cancellable request of the asynchronous TCP client, at the grain of lock acquisitions, lock releases,
 map accesses, flag accesses and operation initiations.

 A state holds what the program holds (sessions, the map of active sessions, the two kinds of mutex, the position
 of every thread in its code) and what Asio holds (the operations initiated so far).  Threads below `pool` run
 io_context::run; the others belong to the user.  `pool == 1` is the single-threaded client.
 */
module ClientModel {
  import opened Base

  type SessionId = nat
  type Thread = nat

  datatype Stage = Connect | Write | Read

  /** An asio::error_code; `OperationAborted` is the code that only cancel() and close() produce. */
  datatype Code = NoError | OperationAborted | OtherError(value: int)

  datatype Session = Session(
    id: int,
    ec: Code,
    response: string,
    canceled: bool,
    guard: Option<Thread>)  // the owner of m_cancel_guard

  /** What Asio knows of an initiated operation. A Ready handler is queued and can no longer be cancelled. */
  datatype Status = Pending(aborting: bool) | Ready(code: Code, line: string) | Taken(code: Code, line: string)

  datatype Op = Op(sid: SessionId, stage: Stage, status: Status)

  /** One invocation of a user callback. */
  datatype Call = Call(sid: SessionId, id: int, response: string, code: Code)

  // Positions inside EmulateLongComputationOp, CancelRequest, a handler and OnRequestComplete: each one is the
  // place just before the step it is named after.
  datatype StartAt = LockMap | Insert | UnlockMap | StartConnect
  datatype CancelAt = LockGuard | SetFlag | CancelSocket | UnlockGuard
  datatype HandlerAt = Enter | LockFlag | Check | StartNext
  datatype CompleteAt = LockErase | Erase | UnlockErase | ReadFlag | CallBack

  /** Where a thread stands in its code, with its local variables. */
  datatype Pc =
    | Idle
    | Exited
    | Starting(k: SessionId, start: StartAt)
    | Asking(id: int)                           // CancelRequest, about to lock the map
    | Seeking(id: int)                          // CancelRequest, about to look the id up
    | Canceling(k: SessionId, cancel: CancelAt) // CancelRequest, the id was found
    | Leaving                                   // CancelRequest, about to unlock the map
    | Joining                                   // Close, about to join the pool
    | Handling(k: SessionId, stage: Stage, code: Code, line: string, handler: HandlerAt)
    | Completing(k: SessionId, held: bool, code: Code, complete: CompleteAt)
    | Releasing(k: SessionId)                   // a handler, about to unlock m_cancel_guard and return

  /** Who is to carry a session on: a thread in EmulateLongComputationOp, Asio, a handler, or nobody any more. */
  datatype Place = WithCaller(t: Thread) | InOp(i: nat) | OnThread(t: Thread) | Finished

  /** `place` and `found` are history: no step of the program reads them. `found[k]` counts the calls of
      CancelRequest that found session k in the map. */
  datatype State = State(
    pool: nat,
    pcs: seq<Pc>,
    sessions: seq<Session>,
    active: map<int, SessionId>,
    guard: Option<Thread>,  // the owner of m_active_sessions_guard
    ops: seq<Op>,
    working: bool,          // m_work has not been reset
    stopped: bool,          // the io_context ran out of work and makes run() return
    callbacks: seq<Call>,
    place: seq<Place>,
    found: seq<nat>)

  /** What can happen next: a call by the user, a decision of the environment, or one step of a thread. */
  datatype Event =
    | CallStart(t: Thread, id: int)
    | CallCancel(t: Thread, id: int)
    | CallClose(t: Thread)
    | OpCompletes(i: nat, code: Code, line: string)
    | Dispatch(t: Thread, i: nat)
    | RunOutOfWork
    | ThreadExit(t: Thread)
    | ThreadStep(t: Thread)

  function Init(pool: nat, users: nat): State {
    State(pool, seq(pool + users, i => Idle), [], map[], None, [], true, false, [], [], [])
  }

  /** The session's progress depends on this handler. */
  predicate Carries(pc: Pc) { pc.Handling? || pc.Completing? }

  predicate IsHandler(pc: Pc) { Carries(pc) || pc.Releasing? }

  predicate HasSession(pc: Pc) { pc.Starting? || pc.Canceling? || IsHandler(pc) }

  /** The position holds m_active_sessions_guard. */
  predicate HoldsMap(pc: Pc) {
    || (pc.Starting? && (pc.start.Insert? || pc.start.UnlockMap?))
    || pc.Seeking? || pc.Canceling? || pc.Leaving?
    || (pc.Completing? && (pc.complete.Erase? || pc.complete.UnlockErase?))
  }

  /** The position holds the m_cancel_guard of its session. */
  predicate HoldsFlag(pc: Pc) {
    || (pc.Canceling? && !pc.cancel.LockGuard?)
    || (pc.Handling? && (pc.handler.Check? || pc.handler.StartNext?))
    || (pc.Completing? && pc.held)
    || pc.Releasing?
  }

  predicate WantsMap(pc: Pc) {
    (pc.Starting? && pc.start.LockMap?) || pc.Asking? || (pc.Completing? && pc.complete.LockErase?)
  }

  predicate WantsFlag(pc: Pc) {
    (pc.Canceling? && pc.cancel.LockGuard?) || (pc.Handling? && pc.handler.LockFlag?)
  }

  predicate Live(op: Op) { !op.status.Taken? }

  /** Asio still counts outstanding work. */
  ghost predicate Outstanding(s: State) {
    || (exists i | 0 <= i < |s.ops| :: Live(s.ops[i]))
    || (exists t | 0 <= t < |s.pcs| :: IsHandler(s.pcs[t]))
  }

  /** The per-session sequences agree, and the pool is part of the threads. */
  predicate Shaped(s: State) {
    |s.place| == |s.found| == |s.sessions| && s.pool <= |s.pcs|
  }

  /** The indices that the next step of thread t uses are in range. */
  predicate InRange(s: State, t: Thread)
    requires Shaped(s) && t < |s.pcs|
  {
    && (HasSession(s.pcs[t]) ==> s.pcs[t].k < |s.sessions|)
    && (s.pcs[t].Seeking? && s.pcs[t].id in s.active ==> s.active[s.pcs[t].id] < |s.sessions|)
  }

  /** The lock thread t is about to take is held. */
  predicate Blocked(s: State, t: Thread)
    requires Shaped(s) && t < |s.pcs| && InRange(s, t)
  {
    || (WantsMap(s.pcs[t]) && s.guard.Some?)
    || (WantsFlag(s.pcs[t]) && s.sessions[s.pcs[t].k].guard.Some?)
  }

  predicate PastErase(pc: Pc) { pc.Completing? && !pc.complete.LockErase? && !pc.complete.Erase? }

  /** Session k has been taken out of the map by its own OnRequestComplete. */
  predicate Erased(s: State, k: SessionId)
    requires k < |s.place|
  {
    match s.place[k]
    case Finished => true
    case OnThread(t) => t < |s.pcs| && PastErase(s.pcs[t])
    case _ => false
  }

  /** Session k has been put into the map. */
  predicate Inserted(s: State, k: SessionId)
    requires k < |s.place|
  {
    match s.place[k]
    case WithCaller(t) =>
      t < |s.pcs| && s.pcs[t].Starting? && (s.pcs[t].start.UnlockMap? || s.pcs[t].start.StartConnect?)
    case _ => true
  }

  /** What OnRequestComplete reports for a session in its present condition. */
  function Verdict(session: Session): Code {
    if session.ec == NoError && session.canceled then OperationAborted else session.ec
  }

  function Next(stage: Stage): Stage { if stage.Connect? then Write else Read }

  function Rank(stage: Stage): nat {
    match stage
    case Connect => 3
    case Write => 2
    case Read => 1
  }

  /** socket.cancel(): pending operations of the session may now complete as aborted. */
  function Abort(ops: seq<Op>, k: SessionId): seq<Op> {
    seq(|ops|, i requires 0 <= i < |ops| =>
      if ops[i].sid == k && ops[i].status.Pending? then ops[i].(status := Pending(true)) else ops[i])
  }

  /** Starts an operation and hands the session over to Asio. */
  function Initiate(s: State, k: SessionId, stage: Stage): State
    requires k < |s.place|
  {
    s.(ops := s.ops + [Op(k, stage, Pending(false))], place := s.place[k := InOp(|s.ops|)])
  }

  /** EmulateLongComputationOp */
  function AdvanceStart(s: State, t: Thread): State
    requires t < |s.pcs| && s.pcs[t].Starting? && s.pcs[t].k < |s.sessions| == |s.place|
  {
    var k := s.pcs[t].k;
    match s.pcs[t].start
    case LockMap => s.(pcs := s.pcs[t := Starting(k, Insert)], guard := Some(t))
    case Insert => s.(pcs := s.pcs[t := Starting(k, UnlockMap)], active := s.active[s.sessions[k].id := k])
    case UnlockMap => s.(pcs := s.pcs[t := Starting(k, StartConnect)], guard := None)
    case StartConnect => Initiate(s.(pcs := s.pcs[t := Idle]), k, Connect)
  }

  /** CancelRequest up to the lookup */
  function AdvanceSeek(s: State, t: Thread): State
    requires t < |s.pcs| && s.pcs[t].Seeking? && (s.pcs[t].id in s.active ==> s.active[s.pcs[t].id] < |s.found|)
  {
    var id := s.pcs[t].id;
    if id in s.active then
      var k := s.active[id];
      s.(pcs := s.pcs[t := Canceling(k, LockGuard)], found := s.found[k := s.found[k] + 1])
    else
      s.(pcs := s.pcs[t := Leaving])
  }

  /** CancelRequest after a successful lookup */
  function AdvanceCancel(s: State, t: Thread): State
    requires t < |s.pcs| && s.pcs[t].Canceling? && s.pcs[t].k < |s.sessions|
  {
    var k := s.pcs[t].k;
    var session := s.sessions[k];
    match s.pcs[t].cancel
    case LockGuard =>
      s.(pcs := s.pcs[t := Canceling(k, SetFlag)], sessions := s.sessions[k := session.(guard := Some(t))])
    case SetFlag =>
      s.(pcs := s.pcs[t := Canceling(k, CancelSocket)], sessions := s.sessions[k := session.(canceled := true)])
    case CancelSocket => s.(pcs := s.pcs[t := Canceling(k, UnlockGuard)], ops := Abort(s.ops, k))
    case UnlockGuard => s.(pcs := s.pcs[t := Leaving], sessions := s.sessions[k := session.(guard := None)])
  }

  /** The handlers of async_connect, async_write and async_read_until */
  function AdvanceHandler(s: State, t: Thread): State
    requires t < |s.pcs| && s.pcs[t].Handling? && s.pcs[t].k < |s.sessions| == |s.place|
  {
    var pc := s.pcs[t];
    var k := pc.k;
    var session := s.sessions[k];
    match pc.handler
    case Enter =>
      if pc.code != NoError then
        s.(pcs := s.pcs[t := Completing(k, false, NoError, LockErase)],
           sessions := s.sessions[k := session.(ec := pc.code)])
      else if pc.stage.Read? then
        s.(pcs := s.pcs[t := Completing(k, false, NoError, LockErase)],
           sessions := s.sessions[k := session.(response := pc.line)])
      else
        s.(pcs := s.pcs[t := pc.(handler := LockFlag)])
    case LockFlag =>
      s.(pcs := s.pcs[t := pc.(handler := Check)], sessions := s.sessions[k := session.(guard := Some(t))])
    case Check =>
      if session.canceled then s.(pcs := s.pcs[t := Completing(k, true, NoError, LockErase)])
      else s.(pcs := s.pcs[t := pc.(handler := StartNext)])
    case StartNext => Initiate(s.(pcs := s.pcs[t := Releasing(k)]), k, Next(pc.stage))
  }

  /** OnRequestComplete */
  function AdvanceComplete(s: State, t: Thread): State
    requires t < |s.pcs| && s.pcs[t].Completing? && s.pcs[t].k < |s.sessions| == |s.place|
  {
    var pc := s.pcs[t];
    var session := s.sessions[pc.k];
    match pc.complete
    case LockErase => s.(pcs := s.pcs[t := pc.(complete := Erase)], guard := Some(t))
    case Erase => s.(pcs := s.pcs[t := pc.(complete := UnlockErase)], active := s.active - {session.id})
    case UnlockErase => s.(pcs := s.pcs[t := pc.(complete := ReadFlag)], guard := None)
    case ReadFlag => s.(pcs := s.pcs[t := pc.(code := Verdict(session), complete := CallBack)])
    case CallBack =>
      s.(pcs := s.pcs[t := if pc.held then Releasing(pc.k) else Idle],
         callbacks := s.callbacks + [Call(pc.k, session.id, session.response, pc.code)],
         place := s.place[pc.k := Finished])
  }

  /** The next atomic step of thread t. */
  function Advance(s: State, t: Thread): State
    requires Shaped(s) && t < |s.pcs| && InRange(s, t)
  {
    match s.pcs[t]
    case Idle => s
    case Exited => s
    case Starting(_, _) => AdvanceStart(s, t)
    case Asking(id) => s.(pcs := s.pcs[t := Seeking(id)], guard := Some(t))
    case Seeking(_) => AdvanceSeek(s, t)
    case Canceling(_, _) => AdvanceCancel(s, t)
    case Leaving => s.(pcs := s.pcs[t := Idle], guard := None)
    case Joining => s.(pcs := s.pcs[t := Idle])
    case Handling(_, _, _, _, _) => AdvanceHandler(s, t)
    case Completing(_, _, _, _) => AdvanceComplete(s, t)
    case Releasing(k) => s.(pcs := s.pcs[t := Idle], sessions := s.sessions[k := s.sessions[k].(guard := None)])
  }

  /** Thread t can take its next step. */
  ghost predicate CanStep(s: State, t: Thread) {
    && Shaped(s) && t < |s.pcs| && InRange(s, t) && !s.pcs[t].Idle? && !s.pcs[t].Exited? && !Blocked(s, t)
    && (s.pcs[t].Joining? ==> forall u | 0 <= u < s.pool :: s.pcs[u].Exited?)
  }

  ghost predicate Enabled(s: State, e: Event) {
    && Shaped(s)
    && match e
       case CallStart(t, id) => s.pool <= t < |s.pcs| && s.pcs[t].Idle? && s.working
       case CallCancel(t, id) => s.pool <= t < |s.pcs| && s.pcs[t].Idle?
       case CallClose(t) =>
         // No request may be half way through its start when Close drops the work guard.
         && s.pool <= t < |s.pcs| && s.pcs[t].Idle? && s.working
         && forall u | 0 <= u < |s.pcs| :: !s.pcs[u].Starting?
       case OpCompletes(i, code, line) =>
         // Asio's contract: only a cancelled operation completes as aborted.
         i < |s.ops| && s.ops[i].status.Pending? && (code == OperationAborted ==> s.ops[i].status.aborting)
       case Dispatch(t, i) =>
         t < s.pool && s.pcs[t].Idle? && i < |s.ops| && s.ops[i].status.Ready? && s.ops[i].sid < |s.place|
       case RunOutOfWork => !s.working && !s.stopped && !Outstanding(s)
       case ThreadExit(t) => t < s.pool && s.pcs[t].Idle? && s.stopped
       case ThreadStep(t) => CanStep(s, t)
  }

  function ApplyStart(s: State, t: Thread, id: int): State
    requires t < |s.pcs|
  {
    s.(pcs := s.pcs[t := Starting(|s.sessions|, LockMap)],
       sessions := s.sessions + [Session(id, NoError, "", false, None)],
       place := s.place + [WithCaller(t)],
       found := s.found + [0])
  }

  function ApplyDispatch(s: State, t: Thread, i: nat): State
    requires t < |s.pcs| && i < |s.ops| && s.ops[i].sid < |s.place| && s.ops[i].status.Ready?
  {
    var op := s.ops[i];
    s.(pcs := s.pcs[t := Handling(op.sid, op.stage, op.status.code, op.status.line, Enter)],
       ops := s.ops[i := op.(status := Taken(op.status.code, op.status.line))],
       place := s.place[op.sid := OnThread(t)])
  }

  ghost function Apply(s: State, e: Event): State
    requires Enabled(s, e)
  {
    match e
    case CallStart(t, id) => ApplyStart(s, t, id)
    case CallCancel(t, id) => s.(pcs := s.pcs[t := Asking(id)])
    case CallClose(t) => s.(pcs := s.pcs[t := Joining], working := false)
    case OpCompletes(i, code, line) => s.(ops := s.ops[i := s.ops[i].(status := Ready(code, line))])
    case Dispatch(t, i) => ApplyDispatch(s, t, i)
    case RunOutOfWork => s.(stopped := true)
    case ThreadExit(t) => s.(pcs := s.pcs[t := Exited])
    case ThreadStep(t) => Advance(s, t)
  }

  /** The state after a run, or nothing if some event of the run could not happen. */
  ghost function Exec(s: State, es: seq<Event>): Option<State> {
    if es == [] then Some(s)
    else
      match Exec(s, es[..|es| - 1])
      case None => None
      case Some(m) =>
        var e := es[|es| - 1];
        if Enabled(m, e) then Some(Apply(m, e)) else None
  }
}
