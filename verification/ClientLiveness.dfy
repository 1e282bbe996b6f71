/**
 Completion under every scheduler.  Each step of the program and each completion of an operation uses up a bounded
 measure; and where nothing is left to happen, every request has been reported.  Hence every maximal run without new
 calls ends with every callback invoked exactly once and every call returned.
 */
module ClientLiveness {
  import opened Base
  import opened ClientModel
  import opened ClientInvariant
  import opened ClientTheorems
  import opened ClientDeadlock

  /** The event is not a new call by the user. */
  predicate Internal(e: Event) { !e.CallStart? && !e.CallCancel? && !e.CallClose? }

  /** What the rest of a thread's present call or handler, and of the operations it will start, can still cost. */
  function PcCost(pc: Pc): nat {
    match pc
    case Exited => 0
    case Idle => 1
    case Joining => 2
    case Leaving => 2
    case Releasing(_) => 2
    case Canceling(_, cancel) =>
      (match cancel case LockGuard => 6 case SetFlag => 5 case CancelSocket => 4 case UnlockGuard => 3)
    case Seeking(_) => 7
    case Asking(_) => 8
    case Completing(_, _, _, complete) =>
      (match complete case CallBack => 3 case ReadFlag => 4 case UnlockErase => 5 case Erase => 6 case LockErase => 7)
    case Handling(_, stage, _, _, handler) =>
      StageCost(stage) + (match handler case Enter => 3 case LockFlag => 2 case Check => 1 case StartNext => 0)
    case Starting(_, start) =>
      StageCost(Connect) + (match start case LockMap => 9 case Insert => 8 case UnlockMap => 7 case StartConnect => 6)
  }

  function StageCost(stage: Stage): nat {
    match stage
    case Read => 8
    case Write => 16
    case Connect => 24
  }

  function OpCost(op: Op): nat {
    match op.status
    case Pending(_) => StageCost(op.stage) + 4
    case Ready(_, _) => StageCost(op.stage) + 3
    case Taken(_, _) => 0
  }

  function PcCosts(s: State): seq<nat> { seq(|s.pcs|, i requires 0 <= i < |s.pcs| => PcCost(s.pcs[i])) }

  function OpCosts(s: State): seq<nat> { seq(|s.ops|, i requires 0 <= i < |s.ops| => OpCost(s.ops[i])) }

  function Measure(s: State): nat { Sum(PcCosts(s)) + Sum(OpCosts(s)) + if s.stopped then 0 else 1 }

  lemma PcMoved(s: State, s': State, t: Thread)
    requires t < |s.pcs| == |s'.pcs| && s'.pcs == s.pcs[t := s'.pcs[t]]
    ensures Sum(PcCosts(s')) == Sum(PcCosts(s)) - PcCost(s.pcs[t]) + PcCost(s'.pcs[t])
  {
    SumUpdate(PcCosts(s), t, PcCost(s'.pcs[t]));
    assert PcCosts(s') == PcCosts(s)[t := PcCost(s'.pcs[t])];
  }

  lemma OpsCostSame(s: State, s': State)
    requires |s'.ops| == |s.ops| && forall i | 0 <= i < |s.ops| :: OpCost(s'.ops[i]) == OpCost(s.ops[i])
    ensures Sum(OpCosts(s')) == Sum(OpCosts(s))
  {
    assert OpCosts(s') == OpCosts(s);
  }

  lemma OpChanged(s: State, s': State, i: nat)
    requires i < |s.ops| == |s'.ops| && s'.ops == s.ops[i := s'.ops[i]]
    ensures Sum(OpCosts(s')) == Sum(OpCosts(s)) - OpCost(s.ops[i]) + OpCost(s'.ops[i])
  {
    SumUpdate(OpCosts(s), i, OpCost(s'.ops[i]));
    assert OpCosts(s') == OpCosts(s)[i := OpCost(s'.ops[i])];
  }

  lemma OpStarted(s: State, s': State, op: Op)
    requires s'.ops == s.ops + [op]
    ensures Sum(OpCosts(s')) == Sum(OpCosts(s)) + OpCost(op)
  {
    assert OpCosts(s') == OpCosts(s) + [OpCost(op)];
    SumAppend(OpCosts(s), OpCost(op));
  }

  /** The step starts no operation and costs what the thread's position loses. */
  ghost predicate Cheaper(s: State, s': State, t: Thread) {
    && t < |s.pcs| == |s'.pcs| && |s'.ops| == |s.ops| && s'.stopped == s.stopped
    && s'.pcs == s.pcs[t := s'.pcs[t]] && PcCost(s'.pcs[t]) < PcCost(s.pcs[t])
    && forall i | 0 <= i < |s.ops| :: OpCost(s'.ops[i]) == OpCost(s.ops[i])
  }

  lemma HandlerCosts(s: State, t: Thread)
    requires CanStep(s, t) && s.pcs[t].Handling? && !s.pcs[t].handler.StartNext?
    ensures Cheaper(s, Advance(s, t), t)
  {
  }

  lemma CallCosts(s: State, t: Thread)
    requires CanStep(s, t) && (s.pcs[t].Completing? || (s.pcs[t].Starting? && !s.pcs[t].start.StartConnect?))
    ensures Cheaper(s, Advance(s, t), t)
  {
    if s.pcs[t].Completing? { CompleteCosts(s, t); }
  }

  lemma CompleteCosts(s: State, t: Thread)
    requires CanStep(s, t) && s.pcs[t].Completing?
    ensures Cheaper(s, Advance(s, t), t)
  {
  }

  lemma CancelCosts(s: State, t: Thread)
    requires CanStep(s, t) && !s.pcs[t].Handling? && !s.pcs[t].Completing? && !s.pcs[t].Starting?
    ensures Cheaper(s, Advance(s, t), t)
  {
  }

  lemma StepCosts(s: State, t: Thread)
    requires Inv(s) && CanStep(s, t)
    ensures Measure(Advance(s, t)) < Measure(s)
  {
    var s' := Advance(s, t);
    assert ThreadOk(s, t);
    if s.pcs[t].Starting? && s.pcs[t].start.StartConnect? {
      PcMoved(s, s', t);
      OpStarted(s, s', Op(s.pcs[t].k, Connect, Pending(false)));
    } else if s.pcs[t].Handling? && s.pcs[t].handler.StartNext? {
      PcMoved(s, s', t);
      OpStarted(s, s', Op(s.pcs[t].k, Next(s.pcs[t].stage), Pending(false)));
    } else {
      if s.pcs[t].Handling? { HandlerCosts(s, t); }
      else if s.pcs[t].Completing? || s.pcs[t].Starting? { CallCosts(s, t); }
      else { CancelCosts(s, t); }
      PcMoved(s, s', t);
      OpsCostSame(s, s');
    }
  }

  /** Every internal event brings the measure down. */
  lemma EventCosts(s: State, e: Event)
    requires Inv(s) && Enabled(s, e) && Internal(e)
    ensures Measure(Apply(s, e)) < Measure(s)
  {
    var s' := Apply(s, e);
    match e
    case OpCompletes(i, _, _) =>
      OpChanged(s, s', i);
      assert PcCosts(s') == PcCosts(s);
    case Dispatch(t, i) =>
      PcMoved(s, s', t);
      OpChanged(s, s', i);
    case RunOutOfWork =>
      assert PcCosts(s') == PcCosts(s) && OpCosts(s') == OpCosts(s);
    case ThreadExit(t) =>
      PcMoved(s, s', t);
      assert OpCosts(s') == OpCosts(s);
    case ThreadStep(t) => StepCosts(s, t);
  }

  /** No run without new calls is longer than the measure of its first state. */
  lemma {:induction false} RunsEnd(s: State, es: seq<Event>)
    requires Inv(s) && Exec(s, es).Some? && forall e | e in es :: Internal(e)
    ensures |es| + Measure(Exec(s, es).value) <= Measure(s)
  {
    if es != [] {
      var init, e := es[..|es| - 1], es[|es| - 1];
      assert forall e | e in init :: e in es;
      RunsEnd(s, init);
      RunKept(s, init);
      EventCosts(Exec(s, init).value, e);
    }
  }

  /** Nothing can happen any more without a new call. */
  ghost predicate Quiescent(s: State) { forall e :: Internal(e) ==> !Enabled(s, e) }

  /** With no session found twice, a thread in the middle of a call or a handler is never stuck for good: it or the
      owner of the lock it waits for can step, or it is Close waiting for the pool. */
  lemma SomebodySteps(s: State, t: Thread)
    requires Inv(s) && FoundOnce(s) && t < |s.pcs|
    requires !s.pcs[t].Idle? && !s.pcs[t].Exited? && !s.pcs[t].Joining?
    ensures exists u :: CanStep(s, u)
  {
    if !CanStep(s, t) {
      var u := Owner(s, t);
      if !CanStep(s, u) {
        var v := Owner(s, u);
        WaitingOwner(s, t, u, v);
        forall a, b ensures !Clash(s, a, b) { if Clash(s, a, b) { ClashFoundTwice(s, a, b); } }
        if !CanStep(s, v) {
          var w := Owner(s, v);
          WaitingOwner(s, u, v, w);
        }
      }
    }
  }

  lemma ThreadInRange(s: State, t: Thread)
    requires Inv(s) && t < |s.pcs|
    ensures InRange(s, t) && ThreadOk(s, t)
  {
    assert ThreadOk(s, t);
    if s.pcs[t].Seeking? && s.pcs[t].id in s.active { assert EntryOk(s, s.pcs[t].id); }
  }

  /** The owner of the lock that a stuck thread waits for; it is in the middle of something itself. */
  lemma Owner(s: State, t: Thread) returns (u: Thread)
    requires Inv(s) && t < |s.pcs| && !CanStep(s, t)
    requires !s.pcs[t].Idle? && !s.pcs[t].Exited? && !s.pcs[t].Joining?
    ensures WaitsFor(s, t, u) && u < |s.pcs|
    ensures !s.pcs[u].Idle? && !s.pcs[u].Exited? && !s.pcs[u].Joining?
  {
    ThreadInRange(s, t);
    if WantsMap(s.pcs[t]) && s.guard.Some? {
      u := s.guard.value;
      assert ThreadOk(s, u);
    } else {
      assert SessionOk(s, s.pcs[t].k);
      u := s.sessions[s.pcs[t].k].guard.value;
    }
  }

  lemma NobodyBusy(s: State, t: Thread)
    requires Inv(s) && FoundOnce(s) && Quiescent(s) && t < |s.pcs|
    ensures s.pcs[t].Idle? || s.pcs[t].Exited? || s.pcs[t].Joining?
  {
    if !s.pcs[t].Idle? && !s.pcs[t].Exited? && !s.pcs[t].Joining? {
      SomebodySteps(s, t);
      var u :| CanStep(s, u);
      assert Enabled(s, ThreadStep(u));
    }
  }

  lemma NoOpLeft(s: State, i: nat)
    requires Inv(s) && FoundOnce(s) && Quiescent(s) && 0 < s.pool && i < |s.ops|
    ensures !Live(s.ops[i])
  {
    assert OpOk(s, i);
    assert !Enabled(s, OpCompletes(i, NoError, ""));
    NobodyBusy(s, 0);
    assert ThreadOk(s, 0);
    assert !Enabled(s, Dispatch(0, i));
  }

  lemma NobodyJoins(s: State, t: Thread)
    requires Inv(s) && FoundOnce(s) && Quiescent(s) && 0 < s.pool && t < |s.pcs|
    ensures !s.pcs[t].Joining?
  {
    assert ThreadOk(s, t);
    forall i | 0 <= i < |s.ops| ensures !Live(s.ops[i]) { NoOpLeft(s, i); }
    forall u | 0 <= u < |s.pcs| ensures !IsHandler(s.pcs[u]) { NobodyBusy(s, u); }
    assert !Enabled(s, RunOutOfWork);
    forall u | 0 <= u < s.pool && !s.working ensures s.pcs[u].Exited? {
      NobodyBusy(s, u);
      assert ThreadOk(s, u);
      assert !Enabled(s, ThreadExit(u));
    }
    assert !Enabled(s, ThreadStep(t));
  }

  /** Where nothing is left to happen, every request has been reported exactly once, the map is empty, and every call
      of the user has returned; provided the pool has a thread and no session was found twice. */
  lemma RestIsDone(s: State)
    requires Inv(s) && FoundOnce(s) && Quiescent(s) && 0 < s.pool
    ensures AllReported(s)
    ensures forall t | 0 <= t < |s.pcs| :: s.pcs[t].Idle? || s.pcs[t].Exited?
  {
    forall t | 0 <= t < |s.pcs| ensures s.pcs[t].Idle? || s.pcs[t].Exited? {
      NobodyBusy(s, t);
      NobodyJoins(s, t);
    }
    forall k: nat | k < |s.sessions| ensures s.place[k].Finished? {
      assert SessionOk(s, k);
      if s.place[k].InOp? { NoOpLeft(s, s.place[k].i); }
    }
    NoWorkLeft(s);
  }

  /** From every state the program can be run to rest, and by `RunsEnd` every schedule gets there. */
  lemma {:induction false} RunToRest(s: State) returns (es: seq<Event>)
    requires Inv(s)
    ensures Exec(s, es).Some? && Quiescent(Exec(s, es).value)
    ensures forall e | e in es :: Internal(e)
    decreases Measure(s)
  {
    if Quiescent(s) {
      es := [];
    } else {
      var e :| Internal(e) && Enabled(s, e);
      EventKept(s, e);
      EventCosts(s, e);
      var fs := RunToRest(Apply(s, e));
      ExecExtend(s, [], e);
      assert [] + [e] == [e];
      ExecAppend(s, [e], fs);
      es := [e] + fs;
    }
  }

  /** Every request is reported: whatever has happened so far, a run without new calls that cannot be prolonged ends
      with every callback invoked exactly once, exactly if there is a thread to run handlers or there was no request. */
  lemma EveryRequestReported(pool: nat, users: nat, es: seq<Event>, m: State, fs: seq<Event>, s: State)
    requires Exec(Init(pool, users), es) == Some(m)
    requires Exec(m, fs) == Some(s) && Quiescent(s) && FoundOnce(s)
    ensures AllReported(s) <==> 0 < pool || s.sessions == []
  {
    InitInv(pool, users);
    RunKept(Init(pool, users), es);
    RunKept(m, fs);
    PoolKept(Init(pool, users), es);
    PoolKept(m, fs);
    if 0 < pool {
      RestIsDone(s);
    } else if s.sessions == [] {
      AllDone(s);
    } else {
      ExecAppend(Init(pool, users), es, fs);
      EmptyPoolReportsNothing(users, es + fs, s);
      NotDone(s);
    }
  }
}
