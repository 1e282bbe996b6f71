/** What every reachable state of the asynchronous client satisfies, whatever the schedule and the errors. */
module ClientInvariant {
  import opened Base
  import opened ClientModel

  /** CancelRequest has found the session but not yet set its flag. */
  predicate AboutToFlag(pc: Pc) { pc.Canceling? && (pc.cancel.LockGuard? || pc.cancel.SetFlag?) }

  predicate OpAborted(op: Op) {
    op.status == Pending(true) || (op.status.Ready? && op.status.code == OperationAborted)
  }

  ghost predicate ReportedAt(s: State, k: SessionId) {
    exists c :: 0 <= c < |s.callbacks| && s.callbacks[c].sid == k
  }

  /** What the callback of a finished session was told. */
  function Report(s: State, k: SessionId): Call
    requires k < |s.sessions|
  {
    Call(k, s.sessions[k].id, s.sessions[k].response, Verdict(s.sessions[k]))
  }

  /** What the position of thread t says about the session it works on. */
  ghost predicate WorksOn(s: State, t: Thread)
    requires Shaped(s) && t < |s.pcs| && HasSession(s.pcs[t]) && s.pcs[t].k < |s.sessions|
  {
    var pc := s.pcs[t];
    var k := pc.k;
    var session := s.sessions[k];
    && (HoldsFlag(pc) ==> session.guard == Some(t))
    && (pc.Starting? ==> s.place[k] == WithCaller(t))
    && (Carries(pc) ==> s.place[k] == OnThread(t))
    && (pc.Handling? ==>
          && session.ec == NoError && session.response == ""
          && (pc.code == OperationAborted ==> session.canceled)
          && (!pc.handler.Enter? ==> !pc.stage.Read?)
          && (pc.handler.StartNext? ==> !session.canceled))
    && (pc.Completing? ==>
          && (pc.held ==> session.canceled && session.ec == NoError)
          && (pc.complete.CallBack? ==> pc.code == Verdict(session)))
    && (pc.Canceling? ==>
          && session.id in s.active && s.active[session.id] == k
          && if AboutToFlag(pc) then s.found[k] >= (if session.canceled then 2 else 1) else session.canceled)
  }

  ghost predicate ThreadOk(s: State, t: Thread)
    requires Shaped(s) && t < |s.pcs|
  {
    var pc := s.pcs[t];
    && (if t < s.pool then IsHandler(pc) || pc.Idle? || pc.Exited? else !IsHandler(pc) && !pc.Exited?)
    && (HoldsMap(pc) <==> s.guard == Some(t))
    && (HasSession(pc) ==> pc.k < |s.sessions| && WorksOn(s, t))
    && (!s.working ==> !pc.Starting?)
    && (pc.Joining? ==> !s.working)
    && (pc.Exited? ==> s.stopped)
    && (s.stopped ==> !IsHandler(pc))
  }

  /** The party that is to carry session k on does so. */
  ghost predicate PlacedOk(s: State, k: SessionId)
    requires Shaped(s) && k < |s.sessions|
  {
    match s.place[k]
    case WithCaller(t) =>
      && t < |s.pcs| && s.pcs[t].Starting? && s.pcs[t].k == k
      && s.sessions[k].ec == NoError && s.sessions[k].response == ""
    case InOp(i) =>
      i < |s.ops| && s.ops[i].sid == k && Live(s.ops[i]) && s.sessions[k].ec == NoError && s.sessions[k].response == ""
    case OnThread(t) => t < |s.pcs| && Carries(s.pcs[t]) && s.pcs[t].k == k
    case Finished => ReportedAt(s, k)
  }

  ghost predicate SessionOk(s: State, k: SessionId)
    requires Shaped(s) && k < |s.sessions|
  {
    var session := s.sessions[k];
    && PlacedOk(s, k)
    && (session.guard.Some? ==>
          var t := session.guard.value; t < |s.pcs| && HoldsFlag(s.pcs[t]) && s.pcs[t].k == k)
    && (session.ec == OperationAborted ==> session.canceled)
    // The flag is set by, and only by, a CancelRequest that found the session.
    && (session.canceled ==> s.found[k] > 0)
    && (s.found[k] > 0 && !session.canceled ==>
          s.guard.Some? && s.guard.value < |s.pcs| && AboutToFlag(s.pcs[s.guard.value]) && s.pcs[s.guard.value].k == k)
  }

  /** An operation that Asio still has carries its session; operations follow each other by decreasing rank. */
  ghost predicate OpOk(s: State, i: nat)
    requires Shaped(s) && i < |s.ops|
  {
    var op := s.ops[i];
    && op.sid < |s.sessions|
    && (Live(op) ==> s.place[op.sid] == InOp(i) && !s.stopped)
    && (OpAborted(op) ==> s.sessions[op.sid].canceled)
    && match s.place[op.sid]
       case WithCaller(_) => false
       case InOp(j) => j < |s.ops| && Rank(op.stage) >= Rank(s.ops[j].stage)
       case OnThread(t) => t < |s.pcs| && (s.pcs[t].Handling? ==> Rank(op.stage) >= Rank(s.pcs[t].stage))
       case Finished => true
  }

  /** The map names a session under the session's own id, from its insertion to its own completion at most. */
  ghost predicate EntryOk(s: State, id: int)
    requires Shaped(s) && id in s.active
  {
    var k := s.active[id];
    k < |s.sessions| && s.sessions[k].id == id && Inserted(s, k) && !Erased(s, k)
  }

  ghost predicate CallOk(s: State, c: nat)
    requires Shaped(s) && c < |s.callbacks|
  {
    var k := s.callbacks[c].sid;
    k < |s.sessions| && s.place[k].Finished? && s.callbacks[c] == Report(s, k)
  }

  ghost predicate OpsOrdered(s: State, i: nat, j: nat)
    requires i < j < |s.ops|
  {
    s.ops[i].sid == s.ops[j].sid ==> Rank(s.ops[i].stage) > Rank(s.ops[j].stage)
  }

  ghost predicate CallsDiffer(s: State, c: nat, d: nat)
    requires c < d < |s.callbacks|
  {
    s.callbacks[c].sid != s.callbacks[d].sid
  }

  /** The operations and the callbacks so far. */
  ghost predicate LedgerOk(s: State)
    requires Shaped(s)
  {
    && (forall i: nat | i < |s.ops| :: OpOk(s, i))
    && (forall i: nat, j: nat | i < j < |s.ops| :: OpsOrdered(s, i, j))
    && (forall c: nat | c < |s.callbacks| :: CallOk(s, c))
    && (forall c: nat, d: nat | c < d < |s.callbacks| :: CallsDiffer(s, c, d))
  }

  ghost predicate Inv(s: State) {
    && Shaped(s)
    && (s.guard.Some? ==> s.guard.value < |s.pcs|)
    && (s.stopped ==> !s.working)
    && (forall t: nat | t < |s.pcs| :: ThreadOk(s, t))
    && (forall k: nat | k < |s.sessions| :: SessionOk(s, k))
    && (forall id | id in s.active :: EntryOk(s, id))
    && LedgerOk(s)
  }

  lemma InitInv(pool: nat, users: nat)
    ensures Inv(Init(pool, users))
  {
  }

  /** A step of thread t that starts, completes and reports nothing leaves operations and callbacks in order. */
  lemma LedgerKept(s: State, s': State, t: Thread)
    requires Inv(s) && Shaped(s') && t < |s.pcs| == |s'.pcs| && |s.sessions| <= |s'.sessions|
    requires s'.ops == s.ops && s'.callbacks == s.callbacks && s'.stopped == s.stopped
    requires forall u: nat | u < |s.pcs| && u != t :: s'.pcs[u] == s.pcs[u]
    requires s'.pcs[t].Handling? ==> s.pcs[t].Handling? && s'.pcs[t].stage == s.pcs[t].stage
    requires forall k: nat | k < |s.sessions| ::
               s'.place[k] == s.place[k] && (s.sessions[k].canceled ==> s'.sessions[k].canceled)
    requires forall k: nat | k < |s.sessions| && s.place[k].Finished? :: Report(s', k) == Report(s, k)
    ensures LedgerOk(s')
  {
    forall i: nat | i < |s'.ops| ensures OpOk(s', i) { assert OpOk(s, i); }
    forall i: nat, j: nat | i < j < |s'.ops| ensures OpsOrdered(s', i, j) { assert OpsOrdered(s, i, j); }
    forall c: nat | c < |s'.callbacks| ensures CallOk(s', c) { assert CallOk(s, c); }
    forall c: nat, d: nat | c < d < |s'.callbacks| ensures CallsDiffer(s', c, d) { assert CallsDiffer(s, c, d); }
  }

  /** A step of thread t that neither inserts nor erases leaves the map in order. */
  lemma EntriesKept(s: State, s': State, t: Thread)
    requires Inv(s) && Shaped(s') && t < |s.pcs| == |s'.pcs| && |s.sessions| == |s'.sessions|
    requires s'.active == s.active && s'.place == s.place
    requires forall u: nat | u < |s.pcs| && u != t :: s'.pcs[u] == s.pcs[u]
    requires forall k: nat | k < |s.sessions| :: s'.sessions[k].id == s.sessions[k].id
    requires !s.pcs[t].Starting?
    requires PastErase(s'.pcs[t]) ==> PastErase(s.pcs[t])
    ensures forall id | id in s'.active :: EntryOk(s', id)
  {
    forall id | id in s'.active ensures EntryOk(s', id) { assert EntryOk(s, id); }
  }

  ghost predicate SessionsOk(s: State) { Shaped(s) && forall k: nat | k < |s.sessions| :: SessionOk(s, k) }

  lemma KeptStartLockMap(s: State, t: Thread)
    requires Inv(s) && CanStep(s, t) && s.pcs[t].Starting? && s.pcs[t].start.LockMap?
    ensures Inv(Advance(s, t))
  {
    var s' := Advance(s, t);
    assert ThreadOk(s, t) && SessionOk(s, s.pcs[t].k);
    forall u: nat | u < |s'.pcs| ensures ThreadOk(s', u) { assert ThreadOk(s, u); }
    forall k: nat | k < |s'.sessions| ensures SessionOk(s', k) { assert SessionOk(s, k); }
    forall id | id in s'.active ensures EntryOk(s', id) { assert EntryOk(s, id); }
    LedgerKept(s, s', t);
  }

  lemma KeptStartInsert(s: State, t: Thread)
    requires Inv(s) && CanStep(s, t) && s.pcs[t].Starting? && s.pcs[t].start.Insert?
    ensures Inv(Advance(s, t))
  {
    var s' := Advance(s, t);
    assert ThreadOk(s, t) && SessionOk(s, s.pcs[t].k);
    forall u: nat | u < |s'.pcs| ensures ThreadOk(s', u) { assert ThreadOk(s, u); }
    forall k: nat | k < |s'.sessions| ensures SessionOk(s', k) { assert SessionOk(s, k); }
    forall id | id in s'.active ensures EntryOk(s', id) { assert id in s.active ==> EntryOk(s, id); }
    LedgerKept(s, s', t);
  }

  lemma KeptStartUnlockMap(s: State, t: Thread)
    requires Inv(s) && CanStep(s, t) && s.pcs[t].Starting? && s.pcs[t].start.UnlockMap?
    ensures Inv(Advance(s, t))
  {
    var s' := Advance(s, t);
    assert ThreadOk(s, t) && SessionOk(s, s.pcs[t].k);
    forall u: nat | u < |s'.pcs| ensures ThreadOk(s', u) { assert ThreadOk(s, u); }
    forall k: nat | k < |s'.sessions| ensures SessionOk(s', k) { assert SessionOk(s, k); }
    forall id | id in s'.active ensures EntryOk(s', id) { assert EntryOk(s, id); }
    LedgerKept(s, s', t);
  }

  lemma SessionsStartConnect(s: State, t: Thread, s': State)
    requires Inv(s) && CanStep(s, t) && s.pcs[t].Starting? && s.pcs[t].start.StartConnect? && s' == Advance(s, t)
    ensures SessionsOk(s')
  {
    assert ThreadOk(s, t) && SessionOk(s, s.pcs[t].k);
    forall k: nat | k < |s'.sessions| ensures SessionOk(s', k) { assert SessionOk(s, k); }
  }

  lemma KeptStartConnect(s: State, t: Thread)
    requires Inv(s) && CanStep(s, t) && s.pcs[t].Starting? && s.pcs[t].start.StartConnect?
    ensures Inv(Advance(s, t))
  {
    var s' := Advance(s, t);
    assert ThreadOk(s, t) && SessionOk(s, s.pcs[t].k);
    forall u: nat | u < |s'.pcs| ensures ThreadOk(s', u) { assert ThreadOk(s, u); }
    SessionsStartConnect(s, t, s');
    forall i: nat | i < |s'.ops| ensures OpOk(s', i) { assert i < |s.ops| ==> OpOk(s, i); }
    forall i: nat, j: nat | i < j < |s'.ops| ensures OpsOrdered(s', i, j) {
      assert OpOk(s, i) && (j < |s.ops| ==> OpsOrdered(s, i, j));
    }
    forall id | id in s'.active ensures EntryOk(s', id) { assert EntryOk(s, id) && SessionOk(s, s.active[id]); }
    forall c: nat | c < |s'.callbacks| ensures CallOk(s', c) { assert CallOk(s, c); }
    forall c: nat, d: nat | c < d < |s'.callbacks| ensures CallsDiffer(s', c, d) { assert CallsDiffer(s, c, d); }
  }

  lemma KeptLockGuard(s: State, t: Thread)
    requires Inv(s) && CanStep(s, t) && s.pcs[t].Canceling? && s.pcs[t].cancel.LockGuard?
    ensures Inv(Advance(s, t))
  {
    var s' := Advance(s, t);
    assert ThreadOk(s, t) && SessionOk(s, s.pcs[t].k);
    forall u: nat | u < |s'.pcs| ensures ThreadOk(s', u) { assert ThreadOk(s, u); }
    forall k: nat | k < |s'.sessions| ensures SessionOk(s', k) { assert SessionOk(s, k); }
    LedgerKept(s, s', t);
    EntriesKept(s, s', t);
  }

  lemma KeptSetFlag(s: State, t: Thread)
    requires Inv(s) && CanStep(s, t) && s.pcs[t].Canceling? && s.pcs[t].cancel.SetFlag?
    ensures Inv(Advance(s, t))
  {
    var s' := Advance(s, t);
    assert ThreadOk(s, t) && SessionOk(s, s.pcs[t].k);
    forall u: nat | u < |s'.pcs| ensures ThreadOk(s', u) { assert ThreadOk(s, u); }
    forall k: nat | k < |s'.sessions| ensures SessionOk(s', k) { assert SessionOk(s, k); }
    LedgerKept(s, s', t);
    EntriesKept(s, s', t);
  }

  lemma SessionsCancelSocket(s: State, t: Thread, s': State)
    requires Inv(s) && CanStep(s, t) && s.pcs[t].Canceling? && s.pcs[t].cancel.CancelSocket? && s' == Advance(s, t)
    ensures SessionsOk(s')
  {
    assert ThreadOk(s, t) && SessionOk(s, s.pcs[t].k);
    forall k: nat | k < |s'.sessions| ensures SessionOk(s', k) { assert SessionOk(s, k); }
  }

  lemma KeptCancelSocket(s: State, t: Thread)
    requires Inv(s) && CanStep(s, t) && s.pcs[t].Canceling? && s.pcs[t].cancel.CancelSocket?
    ensures Inv(Advance(s, t))
  {
    var s' := Advance(s, t);
    assert ThreadOk(s, t) && SessionOk(s, s.pcs[t].k);
    forall u: nat | u < |s'.pcs| ensures ThreadOk(s', u) { assert ThreadOk(s, u); }
    SessionsCancelSocket(s, t, s');
    forall i: nat | i < |s'.ops| ensures OpOk(s', i) { assert OpOk(s, i); }
    forall i: nat, j: nat | i < j < |s'.ops| ensures OpsOrdered(s', i, j) { assert OpsOrdered(s, i, j); }
    forall c: nat | c < |s'.callbacks| ensures CallOk(s', c) { assert CallOk(s, c); }
    forall c: nat, d: nat | c < d < |s'.callbacks| ensures CallsDiffer(s', c, d) { assert CallsDiffer(s, c, d); }
    EntriesKept(s, s', t);
  }

  lemma KeptUnlockGuard(s: State, t: Thread)
    requires Inv(s) && CanStep(s, t) && s.pcs[t].Canceling? && s.pcs[t].cancel.UnlockGuard?
    ensures Inv(Advance(s, t))
  {
    var s' := Advance(s, t);
    assert ThreadOk(s, t) && SessionOk(s, s.pcs[t].k);
    forall u: nat | u < |s'.pcs| ensures ThreadOk(s', u) { assert ThreadOk(s, u); }
    forall k: nat | k < |s'.sessions| ensures SessionOk(s', k) { assert SessionOk(s, k); }
    LedgerKept(s, s', t);
    EntriesKept(s, s', t);
  }

  lemma SessionsEnterFailed(s: State, t: Thread, s': State)
    requires Inv(s) && CanStep(s, t) && s.pcs[t].Handling? && s.pcs[t].handler.Enter?
    requires s.pcs[t].code != NoError && s' == Advance(s, t)
    ensures SessionsOk(s')
  {
    assert ThreadOk(s, t) && SessionOk(s, s.pcs[t].k);
    forall k: nat | k < |s'.sessions| ensures SessionOk(s', k) { assert SessionOk(s, k); }
  }

  lemma KeptEnterFailed(s: State, t: Thread)
    requires Inv(s) && CanStep(s, t) && s.pcs[t].Handling? && s.pcs[t].handler.Enter?
    requires s.pcs[t].code != NoError
    ensures Inv(Advance(s, t))
  {
    var s' := Advance(s, t);
    assert ThreadOk(s, t) && SessionOk(s, s.pcs[t].k);
    forall u: nat | u < |s'.pcs| ensures ThreadOk(s', u) { assert ThreadOk(s, u); }
    SessionsEnterFailed(s, t, s');
    LedgerKept(s, s', t);
    EntriesKept(s, s', t);
  }

  lemma SessionsEnterRead(s: State, t: Thread, s': State)
    requires Inv(s) && CanStep(s, t) && s.pcs[t].Handling? && s.pcs[t].handler.Enter?
    requires s.pcs[t].code == NoError && s.pcs[t].stage.Read? && s' == Advance(s, t)
    ensures SessionsOk(s')
  {
    assert ThreadOk(s, t) && SessionOk(s, s.pcs[t].k);
    forall k: nat | k < |s'.sessions| ensures SessionOk(s', k) { assert SessionOk(s, k); }
  }

  lemma KeptEnterRead(s: State, t: Thread)
    requires Inv(s) && CanStep(s, t) && s.pcs[t].Handling? && s.pcs[t].handler.Enter?
    requires s.pcs[t].code == NoError && s.pcs[t].stage.Read?
    ensures Inv(Advance(s, t))
  {
    var s' := Advance(s, t);
    assert ThreadOk(s, t) && SessionOk(s, s.pcs[t].k);
    forall u: nat | u < |s'.pcs| ensures ThreadOk(s', u) { assert ThreadOk(s, u); }
    SessionsEnterRead(s, t, s');
    LedgerKept(s, s', t);
    EntriesKept(s, s', t);
  }

  lemma KeptEnterDone(s: State, t: Thread)
    requires Inv(s) && CanStep(s, t) && s.pcs[t].Handling? && s.pcs[t].handler.Enter?
    requires s.pcs[t].code == NoError && !s.pcs[t].stage.Read?
    ensures Inv(Advance(s, t))
  {
    var s' := Advance(s, t);
    assert ThreadOk(s, t) && SessionOk(s, s.pcs[t].k);
    forall u: nat | u < |s'.pcs| ensures ThreadOk(s', u) { assert ThreadOk(s, u); }
    forall k: nat | k < |s'.sessions| ensures SessionOk(s', k) { assert SessionOk(s, k); }
    LedgerKept(s, s', t);
    EntriesKept(s, s', t);
  }

  lemma SessionsLockFlag(s: State, t: Thread, s': State)
    requires Inv(s) && CanStep(s, t) && s.pcs[t].Handling? && s.pcs[t].handler.LockFlag? && s' == Advance(s, t)
    ensures SessionsOk(s')
  {
    assert ThreadOk(s, t) && SessionOk(s, s.pcs[t].k);
    forall k: nat | k < |s'.sessions| ensures SessionOk(s', k) { assert SessionOk(s, k); }
  }

  lemma KeptLockFlag(s: State, t: Thread)
    requires Inv(s) && CanStep(s, t) && s.pcs[t].Handling? && s.pcs[t].handler.LockFlag?
    ensures Inv(Advance(s, t))
  {
    var s' := Advance(s, t);
    assert ThreadOk(s, t) && SessionOk(s, s.pcs[t].k);
    forall u: nat | u < |s'.pcs| ensures ThreadOk(s', u) { assert ThreadOk(s, u); }
    SessionsLockFlag(s, t, s');
    LedgerKept(s, s', t);
    EntriesKept(s, s', t);
  }

  lemma KeptCheckCanceled(s: State, t: Thread)
    requires Inv(s) && CanStep(s, t) && s.pcs[t].Handling? && s.pcs[t].handler.Check?
    requires s.pcs[t].k < |s.sessions| && s.sessions[s.pcs[t].k].canceled
    ensures Inv(Advance(s, t))
  {
    var s' := Advance(s, t);
    assert ThreadOk(s, t) && SessionOk(s, s.pcs[t].k);
    forall u: nat | u < |s'.pcs| ensures ThreadOk(s', u) { assert ThreadOk(s, u); }
    forall k: nat | k < |s'.sessions| ensures SessionOk(s', k) { assert SessionOk(s, k); }
    LedgerKept(s, s', t);
    EntriesKept(s, s', t);
  }

  lemma KeptCheckClear(s: State, t: Thread)
    requires Inv(s) && CanStep(s, t) && s.pcs[t].Handling? && s.pcs[t].handler.Check?
    requires s.pcs[t].k < |s.sessions| && !s.sessions[s.pcs[t].k].canceled
    ensures Inv(Advance(s, t))
  {
    var s' := Advance(s, t);
    assert ThreadOk(s, t) && SessionOk(s, s.pcs[t].k);
    forall u: nat | u < |s'.pcs| ensures ThreadOk(s', u) { assert ThreadOk(s, u); }
    forall k: nat | k < |s'.sessions| ensures SessionOk(s', k) { assert SessionOk(s, k); }
    LedgerKept(s, s', t);
    EntriesKept(s, s', t);
  }

  lemma LedgerStartNext(s: State, t: Thread)
    requires Inv(s) && CanStep(s, t) && s.pcs[t].Handling? && s.pcs[t].handler.StartNext?
    ensures Shaped(Advance(s, t)) && LedgerOk(Advance(s, t))
  {
    var s' := Advance(s, t);
    assert ThreadOk(s, t) && SessionOk(s, s.pcs[t].k);
    forall i: nat | i < |s'.ops| ensures OpOk(s', i) { assert i < |s.ops| ==> OpOk(s, i); }
    forall i: nat, j: nat | i < j < |s'.ops| ensures OpsOrdered(s', i, j) {
      assert OpOk(s, i) && (j < |s.ops| ==> OpsOrdered(s, i, j));
    }
    forall c: nat | c < |s'.callbacks| ensures CallOk(s', c) { assert CallOk(s, c); }
    forall c: nat, d: nat | c < d < |s'.callbacks| ensures CallsDiffer(s', c, d) { assert CallsDiffer(s, c, d); }
  }

  lemma SessionsStartNext(s: State, t: Thread, s': State)
    requires Inv(s) && CanStep(s, t) && s.pcs[t].Handling? && s.pcs[t].handler.StartNext? && s' == Advance(s, t)
    ensures SessionsOk(s')
  {
    assert ThreadOk(s, t) && SessionOk(s, s.pcs[t].k);
    forall k: nat | k < |s'.sessions| ensures SessionOk(s', k) { assert SessionOk(s, k); }
  }

  lemma KeptStartNext(s: State, t: Thread)
    requires Inv(s) && CanStep(s, t) && s.pcs[t].Handling? && s.pcs[t].handler.StartNext?
    ensures Inv(Advance(s, t))
  {
    LedgerStartNext(s, t);
    var s' := Advance(s, t);
    assert ThreadOk(s, t) && SessionOk(s, s.pcs[t].k);
    forall u: nat | u < |s'.pcs| ensures ThreadOk(s', u) { assert ThreadOk(s, u); }
    SessionsStartNext(s, t, s');
    forall id | id in s'.active ensures EntryOk(s', id) { assert EntryOk(s, id) && SessionOk(s, s.active[id]); }
  }

  lemma KeptLockErase(s: State, t: Thread)
    requires Inv(s) && CanStep(s, t) && s.pcs[t].Completing? && s.pcs[t].complete.LockErase?
    ensures Inv(Advance(s, t))
  {
    var s' := Advance(s, t);
    assert ThreadOk(s, t) && SessionOk(s, s.pcs[t].k);
    forall u: nat | u < |s'.pcs| ensures ThreadOk(s', u) { assert ThreadOk(s, u); }
    forall k: nat | k < |s'.sessions| ensures SessionOk(s', k) { assert SessionOk(s, k); }
    LedgerKept(s, s', t);
    EntriesKept(s, s', t);
  }

  lemma KeptErase(s: State, t: Thread)
    requires Inv(s) && CanStep(s, t) && s.pcs[t].Completing? && s.pcs[t].complete.Erase?
    ensures Inv(Advance(s, t))
  {
    var s' := Advance(s, t);
    assert ThreadOk(s, t) && SessionOk(s, s.pcs[t].k);
    forall u: nat | u < |s'.pcs| ensures ThreadOk(s', u) { assert ThreadOk(s, u); }
    forall k: nat | k < |s'.sessions| ensures SessionOk(s', k) { assert SessionOk(s, k); }
    forall id | id in s'.active ensures EntryOk(s', id) { assert EntryOk(s, id) && SessionOk(s, s.active[id]); }
    LedgerKept(s, s', t);
  }

  lemma KeptUnlockErase(s: State, t: Thread)
    requires Inv(s) && CanStep(s, t) && s.pcs[t].Completing? && s.pcs[t].complete.UnlockErase?
    ensures Inv(Advance(s, t))
  {
    var s' := Advance(s, t);
    assert ThreadOk(s, t) && SessionOk(s, s.pcs[t].k);
    forall u: nat | u < |s'.pcs| ensures ThreadOk(s', u) { assert ThreadOk(s, u); }
    forall k: nat | k < |s'.sessions| ensures SessionOk(s', k) { assert SessionOk(s, k); }
    LedgerKept(s, s', t);
    EntriesKept(s, s', t);
  }

  lemma KeptReadFlag(s: State, t: Thread)
    requires Inv(s) && CanStep(s, t) && s.pcs[t].Completing? && s.pcs[t].complete.ReadFlag?
    ensures Inv(Advance(s, t))
  {
    var s' := Advance(s, t);
    assert ThreadOk(s, t) && SessionOk(s, s.pcs[t].k);
    forall u: nat | u < |s'.pcs| ensures ThreadOk(s', u) { assert ThreadOk(s, u); }
    forall k: nat | k < |s'.sessions| ensures SessionOk(s', k) { assert SessionOk(s, k); }
    LedgerKept(s, s', t);
    EntriesKept(s, s', t);
  }

  lemma LedgerCallBack(s: State, t: Thread)
    requires Inv(s) && CanStep(s, t) && s.pcs[t].Completing? && s.pcs[t].complete.CallBack?
    ensures Shaped(Advance(s, t)) && LedgerOk(Advance(s, t))
  {
    var s' := Advance(s, t);
    assert ThreadOk(s, t) && SessionOk(s, s.pcs[t].k);
    assert s'.callbacks[|s.callbacks|].sid == s.pcs[t].k;
    forall i: nat | i < |s'.ops| ensures OpOk(s', i) { assert OpOk(s, i); }
    forall i: nat, j: nat | i < j < |s'.ops| ensures OpsOrdered(s', i, j) { assert OpsOrdered(s, i, j); }
    forall c: nat | c < |s'.callbacks| ensures CallOk(s', c) { assert c < |s.callbacks| ==> CallOk(s, c); }
    forall c: nat, d: nat | c < d < |s'.callbacks| ensures CallsDiffer(s', c, d) {
      assert CallOk(s, c) && (d < |s.callbacks| ==> CallsDiffer(s, c, d));
    }
  }

  lemma SessionsCallBack(s: State, t: Thread)
    requires Inv(s) && CanStep(s, t) && s.pcs[t].Completing? && s.pcs[t].complete.CallBack?
    ensures SessionsOk(Advance(s, t))
  {
    var s' := Advance(s, t);
    assert ThreadOk(s, t) && SessionOk(s, s.pcs[t].k);
    assert s'.callbacks[|s.callbacks|].sid == s.pcs[t].k;
    assert forall k | ReportedAt(s, k) :: ReportedAt(s', k) by {
      assert forall c | 0 <= c < |s.callbacks| :: s'.callbacks[c] == s.callbacks[c];
    }
    forall k: nat | k < |s'.sessions| ensures SessionOk(s', k) { assert SessionOk(s, k); }
  }

  lemma KeptCallBack(s: State, t: Thread)
    requires Inv(s) && CanStep(s, t) && s.pcs[t].Completing? && s.pcs[t].complete.CallBack?
    ensures Inv(Advance(s, t))
  {
    LedgerCallBack(s, t);
    SessionsCallBack(s, t);
    var s' := Advance(s, t);
    assert ThreadOk(s, t) && SessionOk(s, s.pcs[t].k);
    forall u: nat | u < |s'.pcs| ensures ThreadOk(s', u) { assert ThreadOk(s, u); }
    forall id | id in s'.active ensures EntryOk(s', id) { assert EntryOk(s, id) && SessionOk(s, s.active[id]); }
  }

  lemma KeptAsking(s: State, t: Thread)
    requires Inv(s) && CanStep(s, t) && s.pcs[t].Asking?
    ensures Inv(Advance(s, t))
  {
    var s' := Advance(s, t);
    assert ThreadOk(s, t);
    forall u: nat | u < |s'.pcs| ensures ThreadOk(s', u) { assert ThreadOk(s, u); }
    forall k: nat | k < |s'.sessions| ensures SessionOk(s', k) { assert SessionOk(s, k); }
    LedgerKept(s, s', t);
    EntriesKept(s, s', t);
  }

  lemma SessionsSeeking(s: State, t: Thread, s': State)
    requires Inv(s) && CanStep(s, t) && s.pcs[t].Seeking? && s' == Advance(s, t)
    ensures SessionsOk(s')
  {
    assert ThreadOk(s, t);
    assert s.pcs[t].id in s.active ==> EntryOk(s, s.pcs[t].id) && SessionOk(s, s.active[s.pcs[t].id]);
    forall k: nat | k < |s'.sessions| ensures SessionOk(s', k) { assert SessionOk(s, k); }
  }

  lemma KeptSeeking(s: State, t: Thread)
    requires Inv(s) && CanStep(s, t) && s.pcs[t].Seeking?
    ensures Inv(Advance(s, t))
  {
    var s' := Advance(s, t);
    assert ThreadOk(s, t);
    assert s.pcs[t].id in s.active ==> EntryOk(s, s.pcs[t].id) && SessionOk(s, s.active[s.pcs[t].id]);
    forall u: nat | u < |s'.pcs| ensures ThreadOk(s', u) { assert ThreadOk(s, u); }
    SessionsSeeking(s, t, s');
    LedgerKept(s, s', t);
    EntriesKept(s, s', t);
  }

  lemma KeptLeaving(s: State, t: Thread)
    requires Inv(s) && CanStep(s, t) && s.pcs[t].Leaving?
    ensures Inv(Advance(s, t))
  {
    var s' := Advance(s, t);
    assert ThreadOk(s, t);
    forall u: nat | u < |s'.pcs| ensures ThreadOk(s', u) { assert ThreadOk(s, u); }
    forall k: nat | k < |s'.sessions| ensures SessionOk(s', k) { assert SessionOk(s, k); }
    LedgerKept(s, s', t);
    EntriesKept(s, s', t);
  }

  lemma KeptJoining(s: State, t: Thread)
    requires Inv(s) && CanStep(s, t) && s.pcs[t].Joining?
    ensures Inv(Advance(s, t))
  {
    var s' := Advance(s, t);
    assert ThreadOk(s, t);
    forall u: nat | u < |s'.pcs| ensures ThreadOk(s', u) { assert ThreadOk(s, u); }
    forall k: nat | k < |s'.sessions| ensures SessionOk(s', k) { assert SessionOk(s, k); }
    LedgerKept(s, s', t);
    EntriesKept(s, s', t);
  }

  lemma SessionsReleasing(s: State, t: Thread)
    requires Inv(s) && CanStep(s, t) && s.pcs[t].Releasing?
    ensures SessionsOk(Advance(s, t))
  {
    var s' := Advance(s, t);
    assert ThreadOk(s, t) && SessionOk(s, s.pcs[t].k);
    forall k: nat | k < |s'.sessions| ensures SessionOk(s', k) { assert SessionOk(s, k); }
  }

  lemma KeptReleasing(s: State, t: Thread)
    requires Inv(s) && CanStep(s, t) && s.pcs[t].Releasing?
    ensures Inv(Advance(s, t))
  {
    var s' := Advance(s, t);
    SessionsReleasing(s, t);
    assert ThreadOk(s, t) && SessionOk(s, s.pcs[t].k);
    forall u: nat | u < |s'.pcs| ensures ThreadOk(s', u) { assert ThreadOk(s, u); }
    LedgerKept(s, s', t);
    EntriesKept(s, s', t);
  }

  lemma KeptCallStart(s: State, t: Thread, id: int)
    requires Inv(s) && Enabled(s, CallStart(t, id))
    ensures Inv(Apply(s, CallStart(t, id)))
  {
    var s' := Apply(s, CallStart(t, id));
    assert ThreadOk(s, t);
    forall u: nat | u < |s'.pcs| ensures ThreadOk(s', u) { assert ThreadOk(s, u); }
    forall k: nat | k < |s'.sessions| ensures SessionOk(s', k) { assert k < |s.sessions| ==> SessionOk(s, k); }
    forall r | r in s'.active ensures EntryOk(s', r) { assert EntryOk(s, r); }
    LedgerKept(s, s', t);
  }

  lemma KeptCallCancel(s: State, t: Thread, id: int)
    requires Inv(s) && Enabled(s, CallCancel(t, id))
    ensures Inv(Apply(s, CallCancel(t, id)))
  {
    var s' := Apply(s, CallCancel(t, id));
    assert ThreadOk(s, t);
    forall u: nat | u < |s'.pcs| ensures ThreadOk(s', u) { assert ThreadOk(s, u); }
    forall k: nat | k < |s'.sessions| ensures SessionOk(s', k) { assert SessionOk(s, k); }
    LedgerKept(s, s', t);
    EntriesKept(s, s', t);
  }

  lemma KeptCallClose(s: State, t: Thread)
    requires Inv(s) && Enabled(s, CallClose(t))
    ensures Inv(Apply(s, CallClose(t)))
  {
    var s' := Apply(s, CallClose(t));
    assert ThreadOk(s, t);
    forall u: nat | u < |s'.pcs| ensures ThreadOk(s', u) { assert ThreadOk(s, u); }
    forall k: nat | k < |s'.sessions| ensures SessionOk(s', k) { assert SessionOk(s, k); }
    LedgerKept(s, s', t);
    EntriesKept(s, s', t);
  }

  lemma KeptOpCompletes(s: State, i: nat, code: Code, line: string)
    requires Inv(s) && Enabled(s, OpCompletes(i, code, line))
    ensures Inv(Apply(s, OpCompletes(i, code, line)))
  {
    var s' := Apply(s, OpCompletes(i, code, line));
    assert OpOk(s, i);
    forall u: nat | u < |s'.pcs| ensures ThreadOk(s', u) { assert ThreadOk(s, u); }
    forall k: nat | k < |s'.sessions| ensures SessionOk(s', k) { assert SessionOk(s, k); }
    forall j: nat | j < |s'.ops| ensures OpOk(s', j) { assert OpOk(s, j); }
    forall j: nat, l: nat | j < l < |s'.ops| ensures OpsOrdered(s', j, l) { assert OpsOrdered(s, j, l); }
    forall r | r in s'.active ensures EntryOk(s', r) { assert EntryOk(s, r); }
    forall c: nat | c < |s'.callbacks| ensures CallOk(s', c) { assert CallOk(s, c); }
    forall c: nat, d: nat | c < d < |s'.callbacks| ensures CallsDiffer(s', c, d) { assert CallsDiffer(s, c, d); }
  }

  lemma LedgerDispatch(s: State, t: Thread, i: nat)
    requires Inv(s) && Enabled(s, Dispatch(t, i))
    ensures Shaped(Apply(s, Dispatch(t, i))) && LedgerOk(Apply(s, Dispatch(t, i)))
  {
    var s' := Apply(s, Dispatch(t, i));
    assert ThreadOk(s, t) && OpOk(s, i) && SessionOk(s, s.ops[i].sid);
    forall j: nat | j < |s'.ops| ensures OpOk(s', j) { assert OpOk(s, j) && SessionOk(s, s.ops[j].sid); }
    forall j: nat, l: nat | j < l < |s'.ops| ensures OpsOrdered(s', j, l) { assert OpsOrdered(s, j, l); }
    forall c: nat | c < |s'.callbacks| ensures CallOk(s', c) { assert CallOk(s, c); }
    forall c: nat, d: nat | c < d < |s'.callbacks| ensures CallsDiffer(s', c, d) { assert CallsDiffer(s, c, d); }
  }

  lemma SessionsDispatch(s: State, t: Thread, i: nat, s': State)
    requires Inv(s) && Enabled(s, Dispatch(t, i)) && s' == Apply(s, Dispatch(t, i))
    ensures SessionsOk(s')
  {
    assert ThreadOk(s, t) && OpOk(s, i) && SessionOk(s, s.ops[i].sid);
    forall k: nat | k < |s'.sessions| ensures SessionOk(s', k) { assert SessionOk(s, k); }
  }

  lemma KeptDispatch(s: State, t: Thread, i: nat)
    requires Inv(s) && Enabled(s, Dispatch(t, i))
    ensures Inv(Apply(s, Dispatch(t, i)))
  {
    LedgerDispatch(s, t, i);
    var s' := Apply(s, Dispatch(t, i));
    assert ThreadOk(s, t) && OpOk(s, i) && SessionOk(s, s.ops[i].sid);
    forall u: nat | u < |s'.pcs| ensures ThreadOk(s', u) { assert ThreadOk(s, u); }
    SessionsDispatch(s, t, i, s');
    forall r | r in s'.active ensures EntryOk(s', r) { assert EntryOk(s, r); }
  }

  lemma KeptRunOut(s: State)
    requires Inv(s) && Enabled(s, RunOutOfWork)
    ensures Inv(Apply(s, RunOutOfWork))
  {
    var s' := Apply(s, RunOutOfWork);
    
    forall u: nat | u < |s'.pcs| ensures ThreadOk(s', u) { assert ThreadOk(s, u); }
    forall k: nat | k < |s'.sessions| ensures SessionOk(s', k) { assert SessionOk(s, k); }
    forall j: nat | j < |s'.ops| ensures OpOk(s', j) { assert OpOk(s, j); }
    forall j: nat, l: nat | j < l < |s'.ops| ensures OpsOrdered(s', j, l) { assert OpsOrdered(s, j, l); }
    forall r | r in s'.active ensures EntryOk(s', r) { assert EntryOk(s, r); }
    forall c: nat | c < |s'.callbacks| ensures CallOk(s', c) { assert CallOk(s, c); }
    forall c: nat, d: nat | c < d < |s'.callbacks| ensures CallsDiffer(s', c, d) { assert CallsDiffer(s, c, d); }
  }

  lemma KeptThreadExit(s: State, t: Thread)
    requires Inv(s) && Enabled(s, ThreadExit(t))
    ensures Inv(Apply(s, ThreadExit(t)))
  {
    var s' := Apply(s, ThreadExit(t));
    assert ThreadOk(s, t);
    forall u: nat | u < |s'.pcs| ensures ThreadOk(s', u) { assert ThreadOk(s, u); }
    forall k: nat | k < |s'.sessions| ensures SessionOk(s', k) { assert SessionOk(s, k); }
    LedgerKept(s, s', t);
    EntriesKept(s, s', t);
  }

  lemma StepKept(s: State, t: Thread)
    requires Inv(s) && CanStep(s, t)
    ensures Inv(Advance(s, t))
  {
    match s.pcs[t]
    case Starting(_, start) =>
      match start {
        case LockMap => KeptStartLockMap(s, t);
        case Insert => KeptStartInsert(s, t);
        case UnlockMap => KeptStartUnlockMap(s, t);
        case StartConnect => KeptStartConnect(s, t);
      }
    case Canceling(_, cancel) =>
      match cancel {
        case LockGuard => KeptLockGuard(s, t);
        case SetFlag => KeptSetFlag(s, t);
        case CancelSocket => KeptCancelSocket(s, t);
        case UnlockGuard => KeptUnlockGuard(s, t);
      }
    case Handling(_, stage, code, _, handler) =>
      match handler {
        case Enter =>
          if code != NoError { KeptEnterFailed(s, t); }
          else if stage.Read? { KeptEnterRead(s, t); }
          else { KeptEnterDone(s, t); }
        case LockFlag => KeptLockFlag(s, t);
        case Check =>
          if s.sessions[s.pcs[t].k].canceled { KeptCheckCanceled(s, t); } else { KeptCheckClear(s, t); }
        case StartNext => KeptStartNext(s, t);
      }
    case Completing(_, _, _, complete) =>
      match complete {
        case LockErase => KeptLockErase(s, t);
        case Erase => KeptErase(s, t);
        case UnlockErase => KeptUnlockErase(s, t);
        case ReadFlag => KeptReadFlag(s, t);
        case CallBack => KeptCallBack(s, t);
      }
    case Asking(_) => KeptAsking(s, t);
    case Seeking(_) => KeptSeeking(s, t);
    case Leaving => KeptLeaving(s, t);
    case Joining => KeptJoining(s, t);
    case Releasing(_) => KeptReleasing(s, t);
  }

  /** Every event keeps the invariant. */
  lemma EventKept(s: State, e: Event)
    requires Inv(s) && Enabled(s, e)
    ensures Inv(Apply(s, e))
  {
    match e
    case CallStart(t, id) => KeptCallStart(s, t, id);
    case CallCancel(t, id) => KeptCallCancel(s, t, id);
    case CallClose(t) => KeptCallClose(s, t);
    case OpCompletes(i, code, line) => KeptOpCompletes(s, i, code, line);
    case Dispatch(t, i) => KeptDispatch(s, t, i);
    case RunOutOfWork => KeptRunOut(s);
    case ThreadExit(t) => KeptThreadExit(s, t);
    case ThreadStep(t) => StepKept(s, t);
  }

  /** Every state that a run can reach from an invariant state satisfies the invariant. */
  lemma {:induction false} RunKept(s: State, es: seq<Event>)
    requires Inv(s)
    ensures Exec(s, es).Some? ==> Inv(Exec(s, es).value)
  {
    if es != [] && Exec(s, es).Some? {
      RunKept(s, es[..|es| - 1]);
      EventKept(Exec(s, es[..|es| - 1]).value, es[|es| - 1]);
    }
  }
}
