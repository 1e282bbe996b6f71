/** What a cancel does to the operation under way: from then on it can complete as aborted. */
module ClientAborts {
  import opened Base
  import opened ClientModel
  import opened ClientInvariant
  import opened ClientTheorems
  import opened ClientOutcomes

  /** socket.cancel() in CancelRequest: from then on every operation that the session has under way can complete as
      aborted, and those of other sessions are as they were. */
  lemma CancelAborts(s: State, t: Thread, i: nat, line: string)
    requires CanStep(s, t) && s.pcs[t].Canceling? && s.pcs[t].cancel.CancelSocket?
    requires i < |s.ops| && s.ops[i].status.Pending?
    ensures var s' := Advance(s, t);
            if s.ops[i].sid == s.pcs[t].k then Enabled(s', OpCompletes(i, OperationAborted, line))
            else |s'.ops| == |s.ops| && s'.ops[i] == s.ops[i]
  {
  }

  /** Some CancelRequest has set the flag of session k and is about to cancel its socket. */
  ghost predicate AboutToCancel(s: State, k: SessionId) {
    exists t: nat :: t < |s.pcs| && s.pcs[t] == Canceling(k, CancelSocket)
  }

  /** Operation i is a write or a read under way of a session whose flag has been set. */
  predicate UnderCancelled(s: State, i: nat) {
    && i < |s.ops| && s.ops[i].status.Pending? && s.ops[i].stage != Connect
    && s.ops[i].sid < |s.sessions| && s.sessions[s.ops[i].sid].canceled
  }

  /** It has been aborted, or is about to be. */
  ghost predicate AbortOk(s: State, i: nat) {
    UnderCancelled(s, i) ==> s.ops[i].status.aborting || AboutToCancel(s, s.ops[i].sid)
  }

  predicate CancelsNow(pc: Pc) { pc.Canceling? && pc.cancel.CancelSocket? }

  lemma StepPending(s: State, t: Thread, i: nat)
    requires CanStep(s, t) && !CancelsNow(s.pcs[t]) && i < |s.ops|
    ensures i < |Advance(s, t).ops| && Advance(s, t).ops[i] == s.ops[i]
  {
    match s.pcs[t]
    case Starting(_, _) =>
    case Canceling(_, _) =>
    case Handling(_, _, _, _, _) =>
    case Completing(_, _, _, _) =>
    case _ =>
  }

  /** A flag that is set by a step is set by a CancelRequest, which goes on to cancel the socket. */
  lemma StepFlags(s: State, t: Thread, k: SessionId)
    requires CanStep(s, t) && ThreadOk(s, t) && k < |s.sessions|
    ensures var s' := Advance(s, t);
            && |s'.sessions| == |s.sessions| && |s'.pcs| == |s.pcs|
            && (s'.sessions[k].canceled && !s.sessions[k].canceled ==> s'.pcs[t] == Canceling(k, CancelSocket))
            && forall u | 0 <= u < |s.pcs| && u != t :: s'.pcs[u] == s.pcs[u]
  {
    match s.pcs[t]
    case Starting(_, _) =>
    case Canceling(_, _) => FlagOfCancel(s, t, k);
    case Handling(_, _, _, _, _) => FlagOfHandler(s, t, k);
    case Completing(_, _, _, _) =>
    case _ =>
  }

  lemma FlagOfCancel(s: State, t: Thread, k: SessionId)
    requires CanStep(s, t) && s.pcs[t].Canceling? && k < |s.sessions|
    ensures var s' := Advance(s, t);
            && |s'.sessions| == |s.sessions| && s'.pcs == s.pcs[t := s'.pcs[t]]
            && (s'.sessions[k].canceled && !s.sessions[k].canceled ==> s'.pcs[t] == Canceling(k, CancelSocket))
  {
  }

  lemma FlagOfHandler(s: State, t: Thread, k: SessionId)
    requires CanStep(s, t) && s.pcs[t].Handling? && k < |s.sessions|
    ensures var s' := Advance(s, t);
            && |s'.sessions| == |s.sessions| && s'.pcs == s.pcs[t := s'.pcs[t]]
            && s'.sessions[k].canceled == s.sessions[k].canceled
  {
    if s.pcs[t].handler.Enter? { FlagOfEnter(s, t, k); }
  }

  lemma FlagOfEnter(s: State, t: Thread, k: SessionId)
    requires CanStep(s, t) && s.pcs[t].Handling? && s.pcs[t].handler.Enter? && k < |s.sessions|
    ensures var s' := Advance(s, t);
            && |s'.sessions| == |s.sessions| && s'.pcs == s.pcs[t := s'.pcs[t]]
            && s'.sessions[k].canceled == s.sessions[k].canceled
  {
  }

  /** No write and no read is started for a session whose flag is set. */
  lemma NewOpClear(s: State, t: Thread, i: nat)
    requires Inv(s) && CanStep(s, t) && |s.ops| <= i
    ensures !UnderCancelled(Advance(s, t), i)
  {
    assert ThreadOk(s, t);
    StepStarts(s, t);
    if HasSession(s.pcs[t]) { StepFlags(s, t, s.pcs[t].k); }
  }

  lemma OtherStepAborts(s: State, t: Thread, i: nat)
    requires Inv(s) && AbortOk(s, i) && CanStep(s, t) && !CancelsNow(s.pcs[t]) && i < |s.ops|
    ensures AbortOk(Advance(s, t), i)
  {
    var s' := Advance(s, t);
    assert ThreadOk(s, t) && OpOk(s, i);
    StepPending(s, t, i);
    var k := s.ops[i].sid;
    StepFlags(s, t, k);
    if UnderCancelled(s', i) && !s.ops[i].status.aborting {
      if s.sessions[k].canceled {
        var u: nat :| u < |s.pcs| && s.pcs[u] == Canceling(k, CancelSocket);
        assert s'.pcs[u] == s.pcs[u];
      } else {
        assert s'.pcs[t] == Canceling(k, CancelSocket);
      }
    }
  }

  lemma CancelStepAborts(s: State, t: Thread, i: nat)
    requires Inv(s) && AbortOk(s, i) && CanStep(s, t) && CancelsNow(s.pcs[t]) && i < |s.ops|
    ensures AbortOk(Advance(s, t), i)
  {
    var s', k := Advance(s, t), s.ops[i].sid;
    if UnderCancelled(s', i) && !s'.ops[i].status.aborting {
      assert k != s.pcs[t].k && UnderCancelled(s, i);
      var u: nat :| u < |s.pcs| && s.pcs[u] == Canceling(k, CancelSocket);
      assert s'.pcs[u] == s.pcs[u];
    }
  }

  lemma EventAborts(s: State, e: Event, i: nat)
    requires Inv(s) && AbortOk(s, i) && Enabled(s, e)
    ensures AbortOk(Apply(s, e), i)
  {
    if !e.ThreadStep? { CallAborts(s, e, Apply(s, e), i); }
    else if i >= |s.ops| { NewOpClear(s, e.t, i); }
    else if CancelsNow(s.pcs[e.t]) { CancelStepAborts(s, e.t, i); }
    else { OtherStepAborts(s, e.t, i); }
  }

  lemma CallAborts(s: State, e: Event, s': State, i: nat)
    requires Inv(s) && AbortOk(s, i) && Enabled(s, e) && !e.ThreadStep? && s' == Apply(s, e)
    ensures AbortOk(s', i)
  {
    if i < |s.ops| {
      assert OpOk(s, i);
      var k := s.ops[i].sid;
      if u: nat :| u < |s.pcs| && s.pcs[u] == Canceling(k, CancelSocket) { assert s'.pcs[u] == s.pcs[u]; }
    }
  }

  lemma {:induction false} RunAborts(pool: nat, users: nat, es: seq<Event>, s: State, i: nat)
    requires Exec(Init(pool, users), es) == Some(s)
    ensures AbortOk(s, i)
  {
    if es != [] {
      var init := es[..|es| - 1];
      var m := Exec(Init(pool, users), init).value;
      RunAborts(pool, users, init, m, i);
      InitInv(pool, users);
      RunKept(Init(pool, users), init);
      EventAborts(m, es[|es| - 1], i);
    }
  }

  /** Over every run: once the flag of a session is set and no CancelRequest is just about to cancel the socket, a write
      or read that the session still has under way can complete as aborted, whatever else has happened. */
  lemma CancelReachesOperation(pool: nat, users: nat, es: seq<Event>, s: State, i: nat, line: string)
    requires Exec(Init(pool, users), es) == Some(s) && UnderCancelled(s, i) && !AboutToCancel(s, s.ops[i].sid)
    ensures Enabled(s, OpCompletes(i, OperationAborted, line))
  {
    RunAborts(pool, users, es, s, i);
    InitInv(pool, users);
    RunKept(Init(pool, users), es);
  }
}
