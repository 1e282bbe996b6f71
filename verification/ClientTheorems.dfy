/** What the asynchronous client promises about cancellation, completion and closing, over every run. */
module ClientTheorems {
  import opened Base
  import opened ClientModel
  import opened ClientInvariant

  lemma ExecExtend(s: State, es: seq<Event>, e: Event)
    ensures Exec(s, es + [e]) ==
              match Exec(s, es)
              case None => None
              case Some(m) => if Enabled(m, e) then Some(Apply(m, e)) else None
  {
    assert (es + [e])[..|es|] == es;
  }

  lemma {:induction false} ExecAppend(s: State, es: seq<Event>, fs: seq<Event>)
    ensures Exec(s, es + fs) == match Exec(s, es) case None => None case Some(m) => Exec(m, fs)
  {
    if fs == [] {
      assert es + fs == es;
    } else {
      var init, e := fs[..|fs| - 1], fs[|fs| - 1];
      ExecAppend(s, es, init);
      assert es + fs == (es + init) + [e];
      ExecExtend(s, es + init, e);
    }
  }

  // ----- Cancellation against completion

  /** The event is a CancelRequest finding session k. */
  predicate FindsNow(s: State, e: Event, k: SessionId) {
    e.ThreadStep? && e.t < |s.pcs| && s.pcs[e.t].Seeking? && s.pcs[e.t].id in s.active && s.active[s.pcs[e.t].id] == k
  }

  /** The number of times a CancelRequest finds session k in the course of a run. */
  ghost function Finds(s: State, es: seq<Event>, k: SessionId): nat {
    if es == [] then 0
    else
      var init, e := es[..|es| - 1], es[|es| - 1];
      Finds(s, init, k) + if Exec(s, init).Some? && FindsNow(Exec(s, init).value, e, k) then 1 else 0
  }

  lemma StepGrows(s: State, t: Thread, k: SessionId)
    requires CanStep(s, t)
    ensures var s' := Advance(s, t);
            && s'.pool == s.pool && |s'.pcs| == |s.pcs| && |s'.found| == |s.found|
            && (k < |s.found| ==> s'.found[k] == s.found[k] + if FindsNow(s, ThreadStep(t), k) then 1 else 0)
  {
    match s.pcs[t]
    case Starting(_, _) =>
    case Canceling(_, _) =>
    case Handling(_, _, _, _, _) =>
    case Completing(_, _, _, _) =>
    case _ =>
  }

  /** Threads stay what they are, and `found` changes exactly when a session is found. */
  lemma EventGrows(s: State, e: Event, k: SessionId)
    requires Enabled(s, e)
    ensures var s' := Apply(s, e);
            && s'.pool == s.pool && |s'.pcs| == |s.pcs| && |s.found| <= |s'.found|
            && (k < |s.found| ==> s'.found[k] == s.found[k] + if FindsNow(s, e, k) then 1 else 0)
            && (|s.found| <= k < |s'.found| ==> s'.found[k] == 0)
  {
    if e.ThreadStep? { StepGrows(s, e.t, k); }
  }

  /** The history counts what it says. */
  lemma {:induction false} FoundCounts(pool: nat, users: nat, es: seq<Event>, k: SessionId)
    requires Exec(Init(pool, users), es).Some?
    ensures var s := Exec(Init(pool, users), es).value;
            var finds := Finds(Init(pool, users), es, k);
            if k < |s.found| then s.found[k] == finds else finds == 0
  {
    if es != [] {
      var init, e := es[..|es| - 1], es[|es| - 1];
      FoundCounts(pool, users, init, k);
      var m := Exec(Init(pool, users), init).value;
      InitInv(pool, users);
      RunKept(Init(pool, users), init);
      EventGrows(m, e, k);
      if FindsNow(m, e, k) { assert EntryOk(m, m.pcs[e.t].id); }
    }
  }

  /** The code a callback was given, from the error its session recorded and whether a CancelRequest found it. */
  lemma CallbackIn(s: State, c: nat)
    requires Inv(s) && c < |s.callbacks|
    ensures s.callbacks[c].sid < |s.sessions|
    ensures var ec := s.sessions[s.callbacks[c].sid].ec;
            s.callbacks[c].code == if ec == NoError && s.found[s.callbacks[c].sid] > 0 then OperationAborted else ec
    ensures s.callbacks[c].code == OperationAborted ==> s.found[s.callbacks[c].sid] > 0
  {
    assert CallOk(s, c);
    var k := s.callbacks[c].sid;
    assert SessionOk(s, k);
    assert s.guard.Some? ==> ThreadOk(s, s.guard.value);
    assert s.sessions[k].id in s.active ==> EntryOk(s, s.sessions[k].id);
  }

  lemma {:induction false} FoundGrows(s: State, es: seq<Event>, k: SessionId)
    requires Exec(s, es).Some? && k < |s.found|
    ensures k < |Exec(s, es).value.found| && s.found[k] <= Exec(s, es).value.found[k]
  {
    if es != [] {
      FoundGrows(s, es[..|es| - 1], k);
      EventGrows(Exec(s, es[..|es| - 1]).value, es[|es| - 1], k);
    }
  }

  // ----- No initiation after a cancel

  /** The operations of `s` are still there, and those of session k started since are connects. */
  ghost predicate OnlyConnects(s: State, s': State, k: SessionId) {
    && k < |s'.sessions| && s'.sessions[k].canceled
    && |s.ops| <= |s'.ops|
    && (forall i | 0 <= i < |s.ops| :: s'.ops[i].sid == s.ops[i].sid && s'.ops[i].stage == s.ops[i].stage)
    && (forall i | |s.ops| <= i < |s'.ops| && s'.ops[i].sid == k :: s'.ops[i].stage == Connect)
  }

  lemma InitiationsOf(s: State, t: Thread, k: SessionId)
    requires CanStep(s, t) && k < |s.sessions| && s.sessions[k].canceled
    requires s.pcs[t].Handling? && s.pcs[t].handler.StartNext? ==> s.pcs[t].k != k
    ensures OnlyConnects(s, Advance(s, t), k)
  {
    match s.pcs[t]
    case Starting(_, _) => InitiationsOfStart(s, t, k);
    case Canceling(_, _) => InitiationsOfCancel(s, t, k);
    case Handling(_, _, _, _, _) => InitiationsOfHandler(s, t, k);
    case Completing(_, _, _, _) =>
    case _ =>
  }

  lemma InitiationsOfStart(s: State, t: Thread, k: SessionId)
    requires CanStep(s, t) && k < |s.sessions| && s.sessions[k].canceled && s.pcs[t].Starting?
    ensures OnlyConnects(s, Advance(s, t), k)
  {
  }

  lemma InitiationsOfCancel(s: State, t: Thread, k: SessionId)
    requires CanStep(s, t) && k < |s.sessions| && s.sessions[k].canceled && s.pcs[t].Canceling?
    ensures OnlyConnects(s, Advance(s, t), k)
  {
  }

  lemma InitiationsOfHandler(s: State, t: Thread, k: SessionId)
    requires CanStep(s, t) && k < |s.sessions| && s.sessions[k].canceled && s.pcs[t].Handling?
    requires s.pcs[t].handler.StartNext? ==> s.pcs[t].k != k
    ensures OnlyConnects(s, Advance(s, t), k)
  {
  }

  lemma InitiationsOfEvent(s: State, e: Event, k: SessionId)
    requires Inv(s) && Enabled(s, e) && k < |s.sessions| && s.sessions[k].canceled
    ensures OnlyConnects(s, Apply(s, e), k)
  {
    if e.ThreadStep? {
      assert ThreadOk(s, e.t);
      InitiationsOf(s, e.t, k);
    }
  }

  /** From the moment m_was_canceled is set, no async_write and no async_read_until is started for the session. */
  lemma {:induction false} NoInitiationAfterCancel(s: State, es: seq<Event>, k: SessionId)
    requires Inv(s) && k < |s.sessions| && s.sessions[k].canceled
    requires Exec(s, es).Some?
    ensures OnlyConnects(s, Exec(s, es).value, k)
  {
    if es != [] {
      var init, e := es[..|es| - 1], es[|es| - 1];
      NoInitiationAfterCancel(s, init, k);
      RunKept(s, init);
      var m := Exec(s, init).value;
      InitiationsOfEvent(m, e, k);
    }
  }

  // ----- Exactly-once completion

  /** In every reachable state each session has at most one outstanding operation, its operations were started in the
      order connect, write, read, and no callback was invoked twice. */
  lemma AtMostOnce(pool: nat, users: nat, es: seq<Event>)
    requires Exec(Init(pool, users), es).Some?
    ensures var s := Exec(Init(pool, users), es).value;
            && (forall i, j | 0 <= i < |s.ops| && 0 <= j < |s.ops| && Live(s.ops[i]) && Live(s.ops[j]) ::
                  s.ops[i].sid == s.ops[j].sid ==> i == j)
            && (forall i, j | 0 <= i < j < |s.ops| :: s.ops[i].sid == s.ops[j].sid ==>
                  Rank(s.ops[i].stage) > Rank(s.ops[j].stage))
            && (forall c, d | 0 <= c < d < |s.callbacks| :: s.callbacks[c].sid != s.callbacks[d].sid)
  {
    InitInv(pool, users);
    RunKept(Init(pool, users), es);
    var s := Exec(Init(pool, users), es).value;
    forall i, j | 0 <= i < |s.ops| && 0 <= j < |s.ops| && Live(s.ops[i]) && Live(s.ops[j])
                  && s.ops[i].sid == s.ops[j].sid
      ensures i == j
    {
      assert OpOk(s, i) && OpOk(s, j);
    }
    forall i, j | 0 <= i < j < |s.ops| && s.ops[i].sid == s.ops[j].sid
      ensures Rank(s.ops[i].stage) > Rank(s.ops[j].stage)
    {
      assert OpsOrdered(s, i, j);
    }
    forall c, d | 0 <= c < d < |s.callbacks| ensures s.callbacks[c].sid != s.callbacks[d].sid {
      assert CallsDiffer(s, c, d);
    }
  }

  /** Every request made so far has been reported exactly once, and the map is empty. */
  ghost predicate AllReported(s: State) {
    && s.active == map[]
    && (forall k: nat | k < |s.sessions| :: ReportedAt(s, k))
    && (forall c, d | 0 <= c < d < |s.callbacks| :: s.callbacks[c].sid != s.callbacks[d].sid)
  }

  lemma EntryUnfinished(s: State, id: int)
    requires Inv(s) && id in s.active
    ensures s.active[id] < |s.sessions| && !s.place[s.active[id]].Finished?
  {
    assert EntryOk(s, id);
  }

  lemma NoWorkLeft(s: State)
    requires Inv(s) && forall k: nat | k < |s.sessions| :: s.place[k].Finished?
    ensures AllReported(s)
  {
    forall k: nat | k < |s.sessions| ensures ReportedAt(s, k) { assert SessionOk(s, k); }
    forall c, d | 0 <= c < d < |s.callbacks| ensures s.callbacks[c].sid != s.callbacks[d].sid {
      assert CallsDiffer(s, c, d);
    }
    forall id ensures id !in s.active { if id in s.active { EntryUnfinished(s, id); } }
  }

  /** When the pool has left run(), no session is waiting for anything. */
  lemma StoppedFinished(s: State, k: SessionId)
    requires Inv(s) && s.stopped && k < |s.sessions|
    ensures s.place[k].Finished?
  {
    assert SessionOk(s, k);
    assert s.place[k].WithCaller? ==> ThreadOk(s, s.place[k].t);
    assert s.place[k].InOp? ==> OpOk(s, s.place[k].i);
    assert s.place[k].OnThread? ==> ThreadOk(s, s.place[k].t);
  }

  /** Only OnRequestComplete invokes callbacks. */
  lemma CallbacksStay(s: State, t: Thread)
    requires CanStep(s, t) && !s.pcs[t].Completing?
    ensures Advance(s, t).callbacks == s.callbacks
  {
  }

  /** Without a thread in the pool nothing is ever reported. */
  lemma {:induction false} EmptyPoolReportsNothing(users: nat, es: seq<Event>, s: State)
    requires Exec(Init(0, users), es) == Some(s)
    ensures s.callbacks == []
  {
    if es != [] {
      var init, e := es[..|es| - 1], es[|es| - 1];
      var m := Exec(Init(0, users), init).value;
      EmptyPoolReportsNothing(users, init, m);
      InitInv(0, users);
      RunKept(Init(0, users), init);
      PoolKept(Init(0, users), init);
      if e.ThreadStep? {
        assert ThreadOk(m, e.t);
        CallbacksStay(m, e.t);
      }
    }
  }

  lemma AfterJoin(pool: nat, users: nat, es: seq<Event>, s: State, t: Thread)
    requires Exec(Init(pool, users), es) == Some(s) && CanStep(s, t) && s.pcs[t].Joining?
    ensures Inv(Advance(s, t)) && Advance(s, t).sessions == s.sessions && Advance(s, t).callbacks == s.callbacks
    ensures pool > 0 ==> Advance(s, t).stopped
  {
    InitInv(pool, users);
    RunKept(Init(pool, users), es);
    PoolKept(Init(pool, users), es);
    if pool > 0 { assert ThreadOk(s, 0); }
    StepKept(s, t);
  }

  /** When Close returns from joining the pool, the map is empty and every callback has been invoked exactly once;
      unless the client was built with a pool of no threads, and then only if it never had a request. */
  lemma CleanClose(pool: nat, users: nat, es: seq<Event>, s: State, t: Thread)
    requires Exec(Init(pool, users), es) == Some(s) && CanStep(s, t) && s.pcs[t].Joining?
    ensures AllReported(Advance(s, t)) <==> pool > 0 || s.sessions == []
  {
    AfterJoin(pool, users, es, s, t);
    if pool > 0 || s.sessions == [] {
      AllDone(Advance(s, t));
    } else {
      EmptyPoolReportsNothing(users, es, s);
      NotDone(Advance(s, t));
    }
  }

  lemma AllDone(s: State)
    requires Inv(s) && (s.stopped || s.sessions == [])
    ensures AllReported(s)
  {
    forall k: nat | k < |s.sessions| ensures s.place[k].Finished? { StoppedFinished(s, k); }
    NoWorkLeft(s);
  }

  lemma NotDone(s: State)
    requires s.sessions != [] && s.callbacks == []
    ensures !AllReported(s)
  {
    assert !ReportedAt(s, 0);
  }

  lemma {:induction false} PoolKept(s: State, es: seq<Event>)
    requires Exec(s, es).Some?
    ensures Exec(s, es).value.pool == s.pool && |Exec(s, es).value.pcs| == |s.pcs|
  {
    if es != [] {
      PoolKept(s, es[..|es| - 1]);
      EventGrows(Exec(s, es[..|es| - 1]).value, es[|es| - 1], 0);
    }
  }
}
