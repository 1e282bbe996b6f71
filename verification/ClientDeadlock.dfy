/**
 The two lock orders of the asynchronous client.  A handler that finds its session cancelled takes the map guard while
 it still holds m_cancel_guard; CancelRequest takes m_cancel_guard while it holds the map guard.  No wait cycle arises
 as long as no session is found by two calls of CancelRequest, and one can arise as soon as a session is.
 */
module ClientDeadlock {
  import opened Base
  import opened ClientModel
  import opened ClientInvariant
  import opened ClientTheorems

  /** Thread t waits for a mutex that thread u owns. */
  predicate WaitsFor(s: State, t: Thread, u: Thread) {
    && Shaped(s) && t < |s.pcs| && InRange(s, t)
    && ((WantsMap(s.pcs[t]) && s.guard == Some(u))
        || (WantsFlag(s.pcs[t]) && s.sessions[s.pcs[t].k].guard == Some(u)))
  }

  /** Every thread of `c` waits for the next one, the last for the first. */
  ghost predicate WaitCycle(s: State, c: seq<Thread>) {
    |c| > 0 && forall i: nat | i < |c| :: WaitsFor(s, c[i], c[NextIn(c, i)])
  }

  /** One thread holds the map and wants the flag guard of k; the other holds that guard and wants the map. */
  predicate Clash(s: State, t: Thread, u: Thread) {
    && t < |s.pcs| && u < |s.pcs|
    && s.pcs[t].Canceling? && s.pcs[t].cancel.LockGuard?
    && s.pcs[u].Completing? && s.pcs[u].held && s.pcs[u].complete.LockErase?
    && s.pcs[t].k == s.pcs[u].k
  }

  /** A thread that waits while owning a flag guard is at the head of OnRequestComplete, one that waits while owning
      the map guard is in CancelRequest. */
  lemma WaitingOwner(s: State, a: Thread, b: Thread, c: Thread)
    requires Inv(s) && WaitsFor(s, a, b) && WaitsFor(s, b, c)
    ensures WantsFlag(s.pcs[a]) ==> Clash(s, a, b)
    ensures WantsMap(s.pcs[a]) ==> WantsFlag(s.pcs[b])
  {
    assert ThreadOk(s, a) && ThreadOk(s, b);
    if WantsFlag(s.pcs[a]) {
      assert SessionOk(s, s.pcs[a].k);
    }
  }

  /** A state has a wait cycle, of whatever length, exactly when some CancelRequest and some handler clash. */
  lemma CycleIsClash(s: State)
    requires Inv(s)
    ensures (exists c: seq<Thread> :: WaitCycle(s, c)) <==> (exists t, u :: Clash(s, t, u))
  {
    if c: seq<Thread> :| WaitCycle(s, c) {
      var i1 := NextIn(c, 0);
      var i2 := NextIn(c, i1);
      var c1, c2, c3 := c[i1], c[i2], c[NextIn(c, i2)];
      WaitingOwner(s, c[0], c1, c2);
      WaitingOwner(s, c1, c2, c3);
    }
    if t, u :| Clash(s, t, u) {
      assert ThreadOk(s, t) && ThreadOk(s, u);
      assert WaitCycle(s, [t, u]);
    }
  }

  /** No session has been found by two calls of CancelRequest. */
  ghost predicate FoundOnce(s: State) { forall k | 0 <= k < |s.found| :: s.found[k] <= 1 }

  lemma ClashFoundTwice(s: State, t: Thread, u: Thread)
    requires Inv(s) && Clash(s, t, u)
    ensures s.pcs[t].k < |s.found| && s.found[s.pcs[t].k] >= 2
  {
    assert ThreadOk(s, t) && ThreadOk(s, u);
  }

  /** Deadlock freedom: in no reachable state is there a wait cycle unless some session was found twice. */
  lemma NoDeadlock(pool: nat, users: nat, es: seq<Event>, s: State, c: seq<Thread>)
    requires Exec(Init(pool, users), es) == Some(s) && FoundOnce(s)
    ensures !WaitCycle(s, c)
  {
    InitInv(pool, users);
    RunKept(Init(pool, users), es);
    CycleIsClash(s);
    forall t, u ensures !Clash(s, t, u) { if Clash(s, t, u) { ClashFoundTwice(s, t, u); } }
  }

  /** What a second CancelRequest meets: it has found session k, already cancelled, whose guard is free and whose
      connect or write has succeeded, while thread u of the pool is idle. */
  ghost predicate SecondCancel(s: State, t: Thread, u: Thread, i: nat) {
    && t < |s.pcs| && s.pcs[t].Canceling? && s.pcs[t].cancel.LockGuard?
    && s.pcs[t].k < |s.sessions|
    && s.sessions[s.pcs[t].k].canceled && s.sessions[s.pcs[t].k].guard.None?
    && u < s.pool && u < |s.pcs| && s.pcs[u].Idle?
    && i < |s.ops| && s.ops[i].sid == s.pcs[t].k && !s.ops[i].stage.Read?
    && s.ops[i].status.Ready? && s.ops[i].status.code == NoError
  }

  /** A handler that finds its session cancelled ends up at the head of OnRequestComplete with the guard in hand. */
  lemma HandlerHoldsOn(s: State, u: Thread, k: SessionId, stage: Stage, line: string) returns (s': State)
    requires Shaped(s) && u < |s.pcs| && k < |s.sessions| && stage != Read
    requires s.pcs[u] == Handling(k, stage, NoError, line, Enter)
    requires s.sessions[k].canceled && s.sessions[k].guard.None?
    ensures s' == s.(pcs := s.pcs[u := Completing(k, true, NoError, LockErase)],
                     sessions := s.sessions[k := s.sessions[k].(guard := Some(u))])
    ensures Exec(s, [ThreadStep(u), ThreadStep(u), ThreadStep(u)]) == Some(s')
  {
    var s1 := s.(pcs := s.pcs[u := Handling(k, stage, NoError, line, LockFlag)]);
    var s2 := s.(pcs := s.pcs[u := Handling(k, stage, NoError, line, Check)],
                 sessions := s.sessions[k := s.sessions[k].(guard := Some(u))]);
    s' := s2.(pcs := s.pcs[u := Completing(k, true, NoError, LockErase)]);
    assert CanStep(s, u) && Advance(s, u) == s1;
    StepTwice(s1, u, k, stage, line, s2);
    assert CanStep(s2, u) && Advance(s2, u) == s';
    ExecThree(s, ThreadStep(u), ThreadStep(u), ThreadStep(u), s1, s2);
  }

  lemma StepTwice(s1: State, u: Thread, k: SessionId, stage: Stage, line: string, s2: State)
    requires Shaped(s1) && u < |s1.pcs| && k < |s1.sessions| && s1.sessions[k].guard.None?
    requires s1.pcs[u] == Handling(k, stage, NoError, line, LockFlag)
    requires s2 == s1.(pcs := s1.pcs[u := Handling(k, stage, NoError, line, Check)],
                       sessions := s1.sessions[k := s1.sessions[k].(guard := Some(u))])
    ensures CanStep(s1, u) && Advance(s1, u) == s2
  {
  }

  lemma DispatchOf(s: State, t: Thread, u: Thread, i: nat)
    requires Shaped(s) && SecondCancel(s, t, u, i)
    ensures var k := s.pcs[t].k; var s1 := ApplyDispatch(s, u, i);
      && Exec(s, [Dispatch(u, i)]) == Some(s1)
      && Shaped(s1) && s1.pcs == s.pcs[u := Handling(k, s.ops[i].stage, NoError, s.ops[i].status.line, Enter)]
      && s1.sessions == s.sessions && s1.guard == s.guard
  {
    assert Enabled(s, Dispatch(u, i));
    ExecExtend(s, [], Dispatch(u, i));
    assert [] + [Dispatch(u, i)] == [Dispatch(u, i)];
  }

  /** The handler holds the flag guard that thread t wants, and wants the map guard that thread t holds. */
  lemma HeldClash(s: State, t: Thread, u: Thread, d: State)
    requires Shaped(s) && t < |s.pcs| && u < |s.pcs| && t != u && s.guard == Some(t)
    requires s.pcs[t].Canceling? && s.pcs[t].cancel.LockGuard? && s.pcs[t].k < |s.sessions|
    requires Shaped(d) && d.guard == s.guard && |d.sessions| == |s.sessions|
    requires d.pcs == s.pcs[u := Completing(s.pcs[t].k, true, NoError, LockErase)]
    requires d.sessions[s.pcs[t].k].guard == Some(u)
    ensures WaitCycle(d, [t, u])
  {
    assert WaitsFor(d, t, u) && WaitsFor(d, u, t);
  }

  /** From every state in which a second CancelRequest has found a session, the schedule that runs the handler of the
      finished operation ends in a wait cycle. */
  lemma SecondCancelDeadlocks(s: State, t: Thread, u: Thread, i: nat) returns (es: seq<Event>, d: State)
    requires Inv(s) && SecondCancel(s, t, u, i)
    ensures Exec(s, es) == Some(d) && WaitCycle(d, [t, u])
    ensures es == [Dispatch(u, i), ThreadStep(u), ThreadStep(u), ThreadStep(u)]
  {
    assert ThreadOk(s, t);
    DispatchOf(s, t, u, i);
    var s1 := ApplyDispatch(s, u, i);
    d := HandlerHoldsOn(s1, u, s.pcs[t].k, s.ops[i].stage, s.ops[i].status.line);
    HeldClash(s1, t, u, d);
    es := [Dispatch(u, i)] + [ThreadStep(u), ThreadStep(u), ThreadStep(u)];
    ExecAppend(s, [Dispatch(u, i)], [ThreadStep(u), ThreadStep(u), ThreadStep(u)]);
  }

  lemma ExecThree(s: State, e1: Event, e2: Event, e3: Event, s1: State, s2: State)
    requires Enabled(s, e1) && s1 == Apply(s, e1)
    requires Enabled(s1, e2) && s2 == Apply(s1, e2)
    requires Enabled(s2, e3)
    ensures Exec(s, [e1, e2, e3]) == Some(Apply(s2, e3))
  {
    assert [] + [e1] == [e1] && [e1] + [e2] == [e1, e2] && [e1, e2] + [e3] == [e1, e2, e3];
    ExecExtend(s, [], e1);
    ExecExtend(s, [e1], e2);
    ExecExtend(s, [e1, e2], e3);
  }
}
