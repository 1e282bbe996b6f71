/**
 How a request comes out.  Its operations follow each other as connect, write and read, each after the success of the
 one before; and what its callback is told is the error that one of them completed with, operation_aborted if it was
 cancelled without one, and success if neither happened.
 */
module ClientOutcomes {
  import opened Base
  import opened ClientModel
  import opened ClientInvariant
  import opened ClientTheorems
  import opened ClientRequests

  // ----- The order of the operations

  /** The handler of operation i, of this stage of session k, has been called without an error. */
  predicate Succeeded(s: State, i: nat, k: SessionId, stage: Stage) {
    && i < |s.ops| && s.ops[i].sid == k && s.ops[i].stage == stage
    && s.ops[i].status.Taken? && s.ops[i].status.code == NoError
  }

  ghost predicate SucceededBefore(s: State, n: nat, k: SessionId, stage: Stage) {
    exists i: nat :: i < n && Succeeded(s, i, k, stage)
  }

  /** A write was started after the connect of its session had succeeded, a read after the write had. */
  ghost predicate Preceded(s: State, i: nat)
    requires i < |s.ops|
  {
    && (s.ops[i].stage == Write ==> SucceededBefore(s, i, s.ops[i].sid, Connect))
    && (s.ops[i].stage == Read ==> SucceededBefore(s, i, s.ops[i].sid, Write))
  }

  /** A handler that is past its test of the error code was called without an error. */
  predicate NoErrorPast(pc: Pc) { pc.Handling? && !pc.handler.Enter? ==> pc.code == NoError }

  ghost predicate StagesOk(s: State) {
    (forall i: nat | i < |s.ops| :: Preceded(s, i)) && (forall t: nat | t < |s.pcs| :: NoErrorPast(s.pcs[t]))
  }

  /** The operations of `s` are still there, those taken as they were. */
  predicate OpsGrow(s: State, s': State) {
    && |s.ops| <= |s'.ops|
    && forall i | 0 <= i < |s.ops| ::
         && s'.ops[i].sid == s.ops[i].sid && s'.ops[i].stage == s.ops[i].stage
         && (s.ops[i].status.Taken? ==> s'.ops[i] == s.ops[i])
  }

  lemma StillPreceded(s: State, s': State, i: nat)
    requires OpsGrow(s, s') && i < |s.ops| && Preceded(s, i)
    ensures Preceded(s', i)
  {
    var k := s.ops[i].sid;
    forall stage | SucceededBefore(s, i, k, stage) ensures SucceededBefore(s', i, k, stage) {
      var j: nat :| j < i && Succeeded(s, j, k, stage);
      assert Succeeded(s', j, k, stage);
    }
  }

  /** A step starts a connect for the call of the user, and in a handler the operation that comes next. */
  lemma StepStarts(s: State, t: Thread)
    requires CanStep(s, t) && ThreadOk(s, t)
    ensures var s', pc := Advance(s, t), s.pcs[t];
            && OpsGrow(s, s') && |s'.ops| <= |s.ops| + 1
            && forall i | |s.ops| <= i < |s'.ops| ::
                 && !s'.ops[i].status.Taken?
                 && (s'.ops[i].stage == Connect
                     || (pc.Handling? && !pc.handler.Enter? && s'.ops[i].sid == pc.k
                         && (s'.ops[i].stage == Write <==> pc.stage == Connect)
                         && (s'.ops[i].stage == Read <==> pc.stage == Write)))
  {
    match s.pcs[t]
    case Starting(_, _) =>
    case Canceling(_, _) =>
    case Handling(_, _, _, _, _) =>
    case Completing(_, _, _, _) =>
    case _ =>
  }

  lemma StepPast(s: State, t: Thread)
    requires CanStep(s, t) && NoErrorPast(s.pcs[t])
    ensures var s' := Advance(s, t);
            && |s'.pcs| == |s.pcs| && NoErrorPast(s'.pcs[t])
            && forall u | 0 <= u < |s.pcs| && u != t :: s'.pcs[u] == s.pcs[u]
  {
    match s.pcs[t]
    case Starting(_, _) =>
    case Canceling(_, _) => CancelPast(s, t);
    case Handling(_, _, _, _, _) => HandlerPast(s, t);
    case Completing(_, _, _, _) =>
    case _ =>
  }

  lemma CancelPast(s: State, t: Thread)
    requires CanStep(s, t) && s.pcs[t].Canceling?
    ensures Advance(s, t).pcs == s.pcs[t := Advance(s, t).pcs[t]] && !Advance(s, t).pcs[t].Handling?
  {
  }

  lemma HandlerPast(s: State, t: Thread)
    requires CanStep(s, t) && s.pcs[t].Handling? && NoErrorPast(s.pcs[t])
    ensures Advance(s, t).pcs == s.pcs[t := Advance(s, t).pcs[t]] && NoErrorPast(Advance(s, t).pcs[t])
  {
  }

  lemma StepStages(s: State, t: Thread)
    requires Inv(s) && AllAnswered(s) && StagesOk(s) && CanStep(s, t)
    ensures StagesOk(Advance(s, t))
  {
    var s', pc := Advance(s, t), s.pcs[t];
    assert ThreadOk(s, t) && FromOp(s, pc) && NoErrorPast(pc);
    StepStarts(s, t);
    StepPast(s, t);
    forall i: nat | i < |s'.ops| ensures Preceded(s', i) {
      if i < |s.ops| {
        StillPreceded(s, s', i);
      } else if s'.ops[i].stage != Connect {
        var j: nat :| j < |s.ops| && s.ops[j] == Op(pc.k, pc.stage, Taken(pc.code, pc.line));
        assert Succeeded(s', j, pc.k, pc.stage);
      }
    }
  }

  lemma EventStages(s: State, e: Event)
    requires Inv(s) && AllAnswered(s) && StagesOk(s) && Enabled(s, e)
    ensures StagesOk(Apply(s, e))
  {
    if e.ThreadStep? {
      StepStages(s, e.t);
    } else {
      var s' := Apply(s, e);
      forall i: nat | i < |s'.ops| ensures Preceded(s', i) { StillPreceded(s, s', i); }
    }
  }

  /** The stages: in every reachable state each write was started after a connect of the same session had succeeded, and
      each read after a write had. */
  lemma {:induction false} StagesInOrder(pool: nat, users: nat, es: seq<Event>, s: State)
    requires Exec(Init(pool, users), es) == Some(s)
    ensures StagesOk(s)
  {
    if es != [] {
      var m := Exec(Init(pool, users), es[..|es| - 1]).value;
      StagesInOrder(pool, users, es[..|es| - 1], m);
      RunAnswers(pool, users, es[..|es| - 1], m);
      EventStages(m, es[|es| - 1]);
    }
  }

  /** A successful callback: the session was connected, then its request was written, then a line was read, each without
      an error, and that line is the response. */
  lemma SuccessWasServed(pool: nat, users: nat, es: seq<Event>, s: State, c: nat)
    returns (connect: nat, write: nat, read: nat)
    requires Exec(Init(pool, users), es) == Some(s) && c < |s.callbacks| && s.callbacks[c].code == NoError
    ensures connect < write < read && Succeeded(s, read, s.callbacks[c].sid, Read)
    ensures Succeeded(s, connect, s.callbacks[c].sid, Connect) && Succeeded(s, write, s.callbacks[c].sid, Write)
    ensures s.ops[read].status.line == s.callbacks[c].response
  {
    var k := s.callbacks[c].sid;
    StagesInOrder(pool, users, es, s);
    SuccessIsAnswered(pool, users, es, s, c);
    read :| read < |s.ops| && s.ops[read] == Op(k, Read, Taken(NoError, s.callbacks[c].response));
    assert Preceded(s, read);
    write :| write < read && Succeeded(s, write, k, Write);
    assert Preceded(s, write);
    connect :| connect < write && Succeeded(s, connect, k, Connect);
  }

  // ----- The error of a request

  /** Operation i, of session k, completed with this error, and its handler has been called. */
  predicate MetAt(s: State, i: nat, k: SessionId, error: Code) {
    i < |s.ops| && s.ops[i].sid == k && s.ops[i].status.Taken? && s.ops[i].status.code == error != NoError
  }

  /** An operation of session k completed with this error. */
  ghost predicate Met(s: State, k: SessionId, error: Code) { exists i: nat :: MetAt(s, i, k, error) }

  /** What session k knows of an error: what it has recorded, or what its handler is about to record. */
  function Known(s: State, k: SessionId): Code
    requires k < |s.sessions| == |s.place|
  {
    match s.place[k]
    case OnThread(t) =>
      if t < |s.pcs| && s.pcs[t].Handling? && s.pcs[t].handler.Enter? then s.pcs[t].code else s.sessions[k].ec
    case _ => s.sessions[k].ec
  }

  ghost predicate ErrorOk(s: State, k: SessionId)
    requires k < |s.sessions| == |s.place|
  {
    forall error :: Met(s, k, error) <==> error != NoError && Known(s, k) == error
  }

  ghost predicate ErrorsOk(s: State) { Shaped(s) && forall k: nat | k < |s.sessions| :: ErrorOk(s, k) }

  /** The same operations have been taken, with the same codes. */
  predicate SameTaken(s: State, s': State) {
    && OpsGrow(s, s')
    && forall i | 0 <= i < |s'.ops| && s'.ops[i].status.Taken? :: i < |s.ops| && s.ops[i].status.Taken?
  }

  lemma SameMet(s: State, s': State, k: SessionId, error: Code)
    requires SameTaken(s, s')
    ensures Met(s, k, error) <==> Met(s', k, error)
  {
    if i: nat :| MetAt(s, i, k, error) { assert MetAt(s', i, k, error); }
    if i: nat :| MetAt(s', i, k, error) { assert MetAt(s, i, k, error); }
  }

  lemma StepTaken(s: State, t: Thread)
    requires CanStep(s, t) && ThreadOk(s, t)
    ensures SameTaken(s, Advance(s, t))
  {
    StepStarts(s, t);
    match s.pcs[t]
    case Starting(_, _) =>
    case Canceling(_, _) =>
    case Handling(_, _, _, _, _) =>
    case Completing(_, _, _, _) =>
    case _ =>
  }

  /** What a session knows of an error does not change by a step: a handler records the code it was called with. */
  lemma StepKnown(s: State, t: Thread, k: SessionId)
    requires CanStep(s, t) && k < |s.sessions| && ThreadOk(s, t) && SessionOk(s, k)
    ensures var s' := Advance(s, t); Shaped(s') && |s'.sessions| == |s.sessions| && Known(s', k) == Known(s, k)
  {
    StepShift(s, t, k);
    if s.pcs[t].Handling? { HandlerKnown(s, t, k); }
  }

  lemma HandlerKnown(s: State, t: Thread, k: SessionId)
    requires CanStep(s, t) && k < |s.sessions| && ThreadOk(s, t) && SessionOk(s, k) && s.pcs[t].Handling?
    ensures var s' := Advance(s, t); Shaped(s') && |s'.sessions| == |s.sessions| && Known(s', k) == Known(s, k)
  {
    if s.pcs[t].handler.Enter? { EnterKnown(s, t, k); }
  }

  lemma EnterKnown(s: State, t: Thread, k: SessionId)
    requires CanStep(s, t) && k < |s.sessions| && ThreadOk(s, t) && SessionOk(s, k)
    requires s.pcs[t].Handling? && s.pcs[t].handler.Enter?
    ensures var s' := Advance(s, t); Shaped(s') && |s'.sessions| == |s.sessions| && Known(s', k) == Known(s, k)
  {
  }

  lemma StepErrors(s: State, t: Thread)
    requires Inv(s) && ErrorsOk(s) && CanStep(s, t)
    ensures ErrorsOk(Advance(s, t))
  {
    var s' := Advance(s, t);
    StepKept(s, t);
    StepGrows(s, t, 0);
    assert ThreadOk(s, t);
    StepTaken(s, t);
    forall k: nat | k < |s'.sessions| ensures ErrorOk(s', k) {
      assert SessionOk(s, k) && ErrorOk(s, k);
      StepKnown(s, t, k);
      forall error ensures Met(s, k, error) <==> Met(s', k, error) { SameMet(s, s', k, error); }
    }
  }

  lemma DispatchErrors(s: State, t: Thread, i: nat, s': State)
    requires Inv(s) && ErrorsOk(s) && Enabled(s, Dispatch(t, i)) && s' == ApplyDispatch(s, t, i)
    ensures ErrorsOk(s')
  {
    assert OpOk(s, i) && ThreadOk(s, t);
    var op := s.ops[i];
    forall k: nat | k < |s'.sessions| ensures ErrorOk(s', k) {
      assert SessionOk(s, k) && ErrorOk(s, k);
      forall error ensures Met(s', k, error) <==> Met(s, k, error) || MetAt(s', i, k, error) {
        DispatchMet(s, t, i, s', k, error);
      }
      if k == op.sid {
        assert Known(s, k) == NoError;
        forall error ensures Met(s', k, error) <==> error != NoError && Known(s', k) == error {}
      } else {
        assert Known(s', k) == Known(s, k);
      }
    }
  }

  lemma DispatchMet(s: State, t: Thread, i: nat, s': State, k: SessionId, error: Code)
    requires Enabled(s, Dispatch(t, i)) && s' == ApplyDispatch(s, t, i)
    ensures Met(s', k, error) <==> Met(s, k, error) || MetAt(s', i, k, error)
  {
    if j: nat :| MetAt(s, j, k, error) { assert MetAt(s', j, k, error); }
    if j: nat :| MetAt(s', j, k, error) && j != i { assert MetAt(s, j, k, error); }
  }

  lemma CallErrors(s: State, e: Event, s': State)
    requires Inv(s) && ErrorsOk(s) && Enabled(s, e) && !e.ThreadStep? && !e.Dispatch? && s' == Apply(s, e)
    ensures ErrorsOk(s')
  {
    assert SameTaken(s, s');
    forall k: nat | k < |s'.sessions| ensures ErrorOk(s', k) {
      forall error ensures Met(s, k, error) <==> Met(s', k, error) { SameMet(s, s', k, error); }
      if k < |s.sessions| { CallKnown(s, e, s', k); }
      else { forall error ensures !Met(s, k, error) { NothingMet(s, k, error); } }
    }
  }

  lemma CallKnown(s: State, e: Event, s': State, k: SessionId)
    requires Inv(s) && ErrorsOk(s) && Enabled(s, e) && !e.ThreadStep? && !e.Dispatch? && s' == Apply(s, e)
    requires k < |s.sessions|
    ensures Shaped(s') && k < |s'.sessions| && Known(s', k) == Known(s, k) && ErrorOk(s, k)
  {
    assert SessionOk(s, k) && ErrorOk(s, k);
  }

  /** A session that has not been started has no operations. */
  lemma NothingMet(s: State, k: SessionId, error: Code)
    requires Inv(s) && k >= |s.sessions|
    ensures !Met(s, k, error)
  {
    forall i: nat ensures !MetAt(s, i, k, error) { if i < |s.ops| { assert OpOk(s, i); } }
  }

  /** The recorded error: in every reachable state a session knows of an error exactly if an operation of its own has
      completed with it. */
  lemma {:induction false} RunErrors(pool: nat, users: nat, es: seq<Event>, s: State)
    requires Exec(Init(pool, users), es) == Some(s)
    ensures Inv(s) && ErrorsOk(s)
  {
    InitInv(pool, users);
    RunKept(Init(pool, users), es);
    if es != [] {
      var init, e := es[..|es| - 1], es[|es| - 1];
      var m := Exec(Init(pool, users), init).value;
      RunErrors(pool, users, init, m);
      match e
      case ThreadStep(t) => StepErrors(m, t);
      case Dispatch(t, i) => DispatchErrors(m, t, i, s);
      case _ => CallErrors(m, e, s);
    }
  }

  lemma CallbackKnows(s: State, c: nat)
    requires Inv(s) && ErrorsOk(s) && c < |s.callbacks|
    ensures var k := s.callbacks[c].sid;
            && k < |s.sessions| && k < |s.found|
            && (forall error | Met(s, k, error) :: s.callbacks[c].code == error)
            && ((forall error :: !Met(s, k, error)) ==>
                  s.callbacks[c].code == if s.found[k] > 0 then OperationAborted else NoError)
            && (s.callbacks[c].code == OperationAborted ==> s.found[k] > 0)
  {
    CallbackIn(s, c);
    assert CallOk(s, c);
    var k := s.callbacks[c].sid;
    assert ErrorOk(s, k);
    if s.sessions[k].ec != NoError { assert Met(s, k, s.sessions[k].ec); }
  }

  /** What a callback is told, by the completions of the session's own operations and the calls of CancelRequest:
      success exactly if none of them completed with an error and no CancelRequest found the session; operation_aborted
      exactly if one found it and nothing completed with another error; and any other error exactly if an operation
      completed with it. */
  lemma CallbackCode(pool: nat, users: nat, es: seq<Event>, s: State, c: nat)
    requires Exec(Init(pool, users), es) == Some(s) && c < |s.callbacks|
    ensures var k, code := s.callbacks[c].sid, s.callbacks[c].code;
            var found := Finds(Init(pool, users), es, k) > 0;
            && (code == NoError <==> !found && forall error :: !Met(s, k, error))
            && (code == OperationAborted <==> found && forall error | Met(s, k, error) :: error == OperationAborted)
            && (forall v :: code == OtherError(v) <==> Met(s, k, OtherError(v)))
  {
    RunErrors(pool, users, es, s);
    CallbackKnows(s, c);
    FoundCounts(pool, users, es, s.callbacks[c].sid);
    var k, code := s.callbacks[c].sid, s.callbacks[c].code;
    assert ErrorOk(s, k);
    forall error | Met(s, k, error) ensures error != NoError { assert ErrorOk(s, k); }
  }

  /** Once CancelRequest has found a session, no continuation lets that session's callback report success: it reports
      the error that one of the session's operations completed with, and operation_aborted if none did with an error. */
  lemma CancelWins(pool: nat, users: nat, before: seq<Event>, m: State, t: Thread, k: SessionId,
                   after: seq<Event>, s: State)
    requires Exec(Init(pool, users), before) == Some(m)
    requires CanStep(m, t) && FindsNow(m, ThreadStep(t), k)
    requires Exec(Advance(m, t), after) == Some(s)
    ensures forall c | 0 <= c < |s.callbacks| && s.callbacks[c].sid == k ::
              && s.callbacks[c].code != NoError
              && (forall error | Met(s, k, error) :: s.callbacks[c].code == error)
              && ((forall error :: !Met(s, k, error)) ==> s.callbacks[c].code == OperationAborted)
  {
    var es := before + [ThreadStep(t)] + after;
    ExecExtend(Init(pool, users), before, ThreadStep(t));
    ExecAppend(Init(pool, users), before + [ThreadStep(t)], after);
    RunErrors(pool, users, es, s);
    InitInv(pool, users);
    RunKept(Init(pool, users), before);
    assert EntryOk(m, m.pcs[t].id);
    StepGrows(m, t, k);
    FoundGrows(Advance(m, t), after, k);
    forall c | 0 <= c < |s.callbacks| && s.callbacks[c].sid == k
      ensures s.found[k] > 0 && s.callbacks[c].code != NoError
      ensures forall error | Met(s, k, error) :: s.callbacks[c].code == error
      ensures (forall error :: !Met(s, k, error)) ==> s.callbacks[c].code == OperationAborted
    {
      CallbackKnows(s, c);
      assert ErrorOk(s, k);
    }
  }
}
