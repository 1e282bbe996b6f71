/** The map of active sessions against the requests under way, and what a successful callback is told. */
module ClientRequests {
  import opened Base
  import opened ClientModel
  import opened ClientInvariant
  import opened ClientTheorems

  // ----- The map and the unfinished requests

  /** Session k has been put into the map and not been taken out by its own completion. */
  predicate Unfinished(s: State, k: SessionId)
    requires k < |s.place|
  {
    Inserted(s, k) && !Erased(s, k)
  }

  /** CancelRequest can find session k. */
  ghost predicate InMap(s: State, k: SessionId) { exists id :: id in s.active && s.active[id] == k }

  ghost predicate FoundByOwnId(s: State, k: SessionId)
    requires Shaped(s) && k < |s.sessions|
  {
    Unfinished(s, k) ==> s.sessions[k].id in s.active && s.active[s.sessions[k].id] == k
  }

  ghost predicate IdsDiffer(s: State, j: SessionId, k: SessionId)
    requires Shaped(s) && j < |s.sessions| && k < |s.sessions|
  {
    j != k && !Erased(s, j) && !Erased(s, k) ==> s.sessions[j].id != s.sessions[k].id
  }

  ghost predicate Complete(s: State)
    requires Shaped(s)
  {
    && (forall k: nat | k < |s.sessions| :: FoundByOwnId(s, k))
    && (forall j: nat, k: nat | j < |s.sessions| && k < |s.sessions| :: IdsDiffer(s, j, k))
  }

  /** No request that is still under way has this id. */
  ghost predicate IdFree(s: State, id: int)
    requires Shaped(s)
  {
    forall k: nat | k < |s.sessions| && !Erased(s, k) :: s.sessions[k].id != id
  }

  /** Every request of the run is started with an id that no request still under way has. */
  ghost predicate FreshIds(s: State, es: seq<Event>) {
    es != [] ==>
      var init, e := es[..|es| - 1], es[|es| - 1];
      && FreshIds(s, init)
      && (Exec(s, init).Some? && Shaped(Exec(s, init).value) && e.CallStart? ==> IdFree(Exec(s, init).value, e.id))
  }

  /** Session k keeps its id; it is inserted by one step only, and never comes back once erased. */
  ghost predicate Onward(s: State, s': State, t: Thread, k: SessionId)
    requires Shaped(s) && t < |s.pcs| && k < |s.sessions|
  {
    && Shaped(s') && |s'.sessions| == |s.sessions|
    && s'.sessions[k].id == s.sessions[k].id
    && (Erased(s, k) ==> Erased(s', k))
    && (Inserted(s, k) ==> Inserted(s', k))
    && (Inserted(s', k) ==> Inserted(s, k) || (Inserts(s.pcs[t]) && s.pcs[t].k == k))
    && (!Inserts(s.pcs[t]) && !Erases(s.pcs[t]) ==> s'.active == s.active)
  }

  predicate Inserts(pc: Pc) { pc.Starting? && pc.start.Insert? }

  predicate Erases(pc: Pc) { pc.Completing? && pc.complete.Erase? }

  predicate Listed(pc: Pc) { pc.Starting? && (pc.start.UnlockMap? || pc.start.StartConnect?) }

  /** How a step moves its thread, and the place of the session it works on; only handlers change results. */
  ghost predicate Shift(s: State, s': State, t: Thread, k: SessionId)
    requires Shaped(s) && t < |s.pcs| && k < |s.sessions|
  {
    && Shaped(s') && |s'.sessions| == |s.sessions| && |s'.pcs| == |s.pcs|
    && s'.sessions[k].id == s.sessions[k].id
    && (s.sessions[k].canceled ==> s'.sessions[k].canceled)
    && (!s.pcs[t].Handling? ==>
          s'.sessions[k].ec == s.sessions[k].ec && s'.sessions[k].response == s.sessions[k].response)
    && (!Inserts(s.pcs[t]) && !Erases(s.pcs[t]) ==> s'.active == s.active)
    && (forall u | 0 <= u < |s.pcs| && u != t :: s'.pcs[u] == s.pcs[u])
    && (s'.pcs[t].Handling? ==> s.pcs[t].Handling? && s'.pcs[t].(handler := Enter) == s.pcs[t].(handler := Enter))
    && (s'.pcs[t].Completing? ==> s.pcs[t].Completing? || s.pcs[t].Handling?)
    && if s'.place[k] == s.place[k] then
         && (PastErase(s.pcs[t]) && s.pcs[t].k == k ==> PastErase(s'.pcs[t]))
         && (Listed(s.pcs[t]) && s.pcs[t].k == k ==> Listed(s'.pcs[t]))
         && (Listed(s'.pcs[t]) && s'.pcs[t].k == k && !Listed(s.pcs[t]) ==> Inserts(s.pcs[t]) && s.pcs[t].k == k)
       else
         && HasSession(s.pcs[t]) && s.pcs[t].k == k
         && (s'.place[k].InOp? || (s'.place[k].Finished? && s.pcs[t].Completing?))
         && (PastErase(s.pcs[t]) ==> s'.place[k].Finished?)
         && (s.pcs[t].Starting? ==> Listed(s.pcs[t]))
  }

  lemma StartShift(s: State, t: Thread, k: SessionId)
    requires CanStep(s, t) && k < |s.sessions| && s.pcs[t].Starting? && ThreadOk(s, t)
    ensures Shift(s, Advance(s, t), t, k)
  {
  }

  lemma CompleteShift(s: State, t: Thread, k: SessionId)
    requires CanStep(s, t) && k < |s.sessions| && s.pcs[t].Completing? && ThreadOk(s, t)
    ensures Shift(s, Advance(s, t), t, k)
  {
  }

  lemma HandlerShift(s: State, t: Thread, k: SessionId)
    requires CanStep(s, t) && k < |s.sessions| && s.pcs[t].Handling?
    ensures Shift(s, Advance(s, t), t, k)
  {
    if s.pcs[t].handler.Enter? { EnterShift(s, t, k); }
    else if s.pcs[t].handler.StartNext? { InitiateShift(s, t, k); }
  }

  lemma EnterShift(s: State, t: Thread, k: SessionId)
    requires CanStep(s, t) && k < |s.sessions| && s.pcs[t].Handling? && s.pcs[t].handler.Enter?
    ensures Shift(s, Advance(s, t), t, k)
  {
  }

  lemma InitiateShift(s: State, t: Thread, k: SessionId)
    requires CanStep(s, t) && k < |s.sessions| && s.pcs[t].Handling? && s.pcs[t].handler.StartNext?
    ensures Shift(s, Advance(s, t), t, k)
  {
  }

  lemma CancelShift(s: State, t: Thread, k: SessionId)
    requires CanStep(s, t) && k < |s.sessions| && s.pcs[t].Canceling?
    ensures Shift(s, Advance(s, t), t, k)
  {
  }

  lemma ReleaseShift(s: State, t: Thread, k: SessionId)
    requires CanStep(s, t) && k < |s.sessions| && s.pcs[t].Releasing?
    ensures Shift(s, Advance(s, t), t, k)
  {
  }

  lemma OtherShift(s: State, t: Thread, k: SessionId)
    requires CanStep(s, t) && k < |s.sessions| && !HasSession(s.pcs[t])
    ensures Shift(s, Advance(s, t), t, k)
  {
    if s.pcs[t].Seeking? { SeekShift(s, t, k); }
  }

  lemma SeekShift(s: State, t: Thread, k: SessionId)
    requires CanStep(s, t) && k < |s.sessions| && s.pcs[t].Seeking?
    ensures Shift(s, Advance(s, t), t, k)
  {
  }

  lemma StepShift(s: State, t: Thread, k: SessionId)
    requires CanStep(s, t) && k < |s.sessions| && ThreadOk(s, t)
    ensures Shift(s, Advance(s, t), t, k)
  {
    if s.pcs[t].Starting? { StartShift(s, t, k); }
    else if s.pcs[t].Completing? { CompleteShift(s, t, k); }
    else if s.pcs[t].Handling? { HandlerShift(s, t, k); }
    else if s.pcs[t].Canceling? { CancelShift(s, t, k); }
    else if s.pcs[t].Releasing? { ReleaseShift(s, t, k); }
    else { OtherShift(s, t, k); }
  }

  lemma StepOnward(s: State, t: Thread, k: SessionId)
    requires CanStep(s, t) && k < |s.sessions| && ThreadOk(s, t) && SessionOk(s, k)
    ensures Onward(s, Advance(s, t), t, k)
  {
    StepShift(s, t, k);
  }

  lemma StepComplete(s: State, t: Thread)
    requires Inv(s) && Complete(s) && CanStep(s, t)
    ensures Shaped(Advance(s, t)) && Complete(Advance(s, t))
  {
    var s' := Advance(s, t);
    StepKept(s, t);
    assert ThreadOk(s, t);
    forall k: nat | k < |s'.sessions| ensures |s'.sessions| == |s.sessions| && FoundByOwnId(s', k) {
      StepGrows(s, t, k);
      assert SessionOk(s, k) && FoundByOwnId(s, k);
      StepOnward(s, t, k);
      if HasSession(s.pcs[t]) { assert IdsDiffer(s, s.pcs[t].k, k); }
    }
    forall j: nat, k: nat | j < |s'.sessions| && k < |s'.sessions| ensures IdsDiffer(s', j, k) {
      assert SessionOk(s, j) && SessionOk(s, k) && IdsDiffer(s, j, k);
      StepOnward(s, t, j);
      StepOnward(s, t, k);
    }
  }

  lemma EventComplete(s: State, e: Event)
    requires Inv(s) && Complete(s) && Enabled(s, e)
    requires e.CallStart? ==> IdFree(s, e.id)
    ensures Shaped(Apply(s, e)) && Complete(Apply(s, e))
  {
    if e.ThreadStep? {
      StepComplete(s, e.t);
    } else if e.CallStart? {
      StartComplete(s, e, Apply(s, e));
    } else {
      OtherComplete(s, e, Apply(s, e));
    }
  }

  lemma StartComplete(s: State, e: Event, s': State)
    requires Inv(s) && Complete(s) && Enabled(s, e) && e.CallStart? && IdFree(s, e.id) && s' == Apply(s, e)
    ensures Shaped(s') && Complete(s')
  {
    forall k: nat | k < |s'.sessions| ensures FoundByOwnId(s', k) {
      assert k < |s.sessions| ==> FoundByOwnId(s, k) && SessionOk(s, k);
    }
    forall j: nat, k: nat | j < |s'.sessions| && k < |s'.sessions| ensures IdsDiffer(s', j, k) {
      assert j < |s.sessions| ==> SessionOk(s, j);
      assert k < |s.sessions| ==> SessionOk(s, k);
      assert j < |s.sessions| && k < |s.sessions| ==> IdsDiffer(s, j, k);
    }
  }

  lemma OtherComplete(s: State, e: Event, s': State)
    requires Inv(s) && Complete(s) && Enabled(s, e) && !e.ThreadStep? && !e.CallStart? && s' == Apply(s, e)
    ensures Shaped(s') && Complete(s')
  {
    if e.Dispatch? { assert OpOk(s, e.i) && ThreadOk(s, e.t); }
    forall k: nat | k < |s'.sessions| ensures FoundByOwnId(s', k) { assert FoundByOwnId(s, k) && SessionOk(s, k); }
    forall j: nat, k: nat | j < |s'.sessions| && k < |s'.sessions| ensures IdsDiffer(s', j, k) {
      assert SessionOk(s, j) && SessionOk(s, k) && IdsDiffer(s, j, k);
    }
  }

  /** With fresh ids the map and the unfinished requests correspond one to one: it holds each of them under its own
      id, and nothing else. */
  lemma {:induction false} MapIsUnfinished(pool: nat, users: nat, es: seq<Event>, s: State)
    requires Exec(Init(pool, users), es) == Some(s) && FreshIds(Init(pool, users), es)
    ensures Inv(s) && Complete(s)
    ensures forall k: nat | k < |s.sessions| :: Unfinished(s, k) <==> InMap(s, k)
    ensures forall id | id in s.active :: s.active[id] < |s.sessions| && s.sessions[s.active[id]].id == id
  {
    InitInv(pool, users);
    RunKept(Init(pool, users), es);
    if es != [] {
      var init, e := es[..|es| - 1], es[|es| - 1];
      RunKept(Init(pool, users), init);
      MapIsUnfinished(pool, users, init, Exec(Init(pool, users), init).value);
      EventComplete(Exec(Init(pool, users), init).value, e);
    }
    forall k: nat | k < |s.sessions| ensures Unfinished(s, k) <==> InMap(s, k) {
      assert FoundByOwnId(s, k);
      if id :| id in s.active && s.active[id] == k { assert EntryOk(s, id); }
    }
    forall id | id in s.active ensures s.active[id] < |s.sessions| && s.sessions[s.active[id]].id == id {
      assert EntryOk(s, id);
    }
  }

  /** Inserting session k pushes an unfinished session out of the map exactly when that session has the same id; it can
      then not be cancelled any more, although its work goes on. */
  lemma InsertOverwrites(s: State, t: Thread, j: SessionId)
    requires Inv(s) && CanStep(s, t) && Inserts(s.pcs[t]) && s.pcs[t].k != j
    requires j < |s.sessions| && Unfinished(s, j) && FoundByOwnId(s, j)
    ensures var s' := Advance(s, t);
            && Shaped(s') && j < |s'.place| && Unfinished(s', j)
            && (!InMap(s', j) <==> s.sessions[j].id == s.sessions[s.pcs[t].k].id)
  {
    var s' := Advance(s, t);
    StepKept(s, t);
    assert ThreadOk(s, t) && SessionOk(s, j);
    StepOnward(s, t, j);
    StartShift(s, t, j);
    if s.sessions[j].id != s.sessions[s.pcs[t].k].id {
      assert s.sessions[j].id in s'.active && s'.active[s.sessions[j].id] == j;
    } else {
      forall id | id in s'.active ensures s'.active[id] != j { assert EntryOk(s', id); }
    }
  }

  /** The other way in which two requests with one id get into each other's way: when session k completes, the erase
      takes an unfinished session out of the map exactly when that session has the same id. */
  lemma EraseTakesOther(s: State, t: Thread, j: SessionId)
    requires Inv(s) && CanStep(s, t) && Erases(s.pcs[t]) && s.pcs[t].k != j
    requires j < |s.sessions| && Unfinished(s, j) && FoundByOwnId(s, j)
    ensures var s' := Advance(s, t);
            && Shaped(s') && j < |s'.place| && Unfinished(s', j)
            && (!InMap(s', j) <==> s.sessions[j].id == s.sessions[s.pcs[t].k].id)
  {
    var s' := Advance(s, t);
    StepKept(s, t);
    assert ThreadOk(s, t) && SessionOk(s, j);
    StepOnward(s, t, j);
    CompleteShift(s, t, j);
    if s.sessions[j].id != s.sessions[s.pcs[t].k].id {
      assert s.sessions[j].id in s'.active && s'.active[s.sessions[j].id] == j;
    } else {
      forall id | id in s'.active ensures s'.active[id] != j { assert EntryOk(s', id); }
    }
  }

  // ----- What a successful callback is told

  /** An async_read_until of session k delivered this line. */
  predicate Delivered(s: State, k: SessionId, line: string) { Op(k, Read, Taken(NoError, line)) in s.ops }

  /** A handler works on what its operation delivered. */
  predicate FromOp(s: State, pc: Pc) { pc.Handling? ==> Op(pc.k, pc.stage, Taken(pc.code, pc.line)) in s.ops }

  predicate PastHandlers(s: State, k: SessionId)
    requires k < |s.place|
  {
    s.place[k].Finished? || (s.place[k].OnThread? && s.place[k].t < |s.pcs| && s.pcs[s.place[k].t].Completing?)
  }

  /** The response of a session that met no error and no cancel is a line that was read. */
  ghost predicate Answered(s: State, k: SessionId)
    requires Shaped(s) && k < |s.sessions|
  {
    s.sessions[k].ec == NoError && !s.sessions[k].canceled && PastHandlers(s, k)
    ==> Delivered(s, k, s.sessions[k].response)
  }

  ghost predicate AllAnswered(s: State) {
    && Shaped(s)
    && (forall t: nat | t < |s.pcs| :: FromOp(s, s.pcs[t]))
    && (forall k: nat | k < |s.sessions| :: Answered(s, k))
  }

  lemma OpsStay(s: State, s': State, op: Op)
    requires |s.ops| <= |s'.ops|
    requires forall i | 0 <= i < |s.ops| && s.ops[i].status.Taken? :: s'.ops[i] == s.ops[i]
    ensures op.status.Taken? && op in s.ops ==> op in s'.ops
  {
    if i :| 0 <= i < |s.ops| && s.ops[i] == op { assert op.status.Taken? ==> s'.ops[i] == op; }
  }

  lemma StepOps(s: State, t: Thread)
    requires CanStep(s, t)
    ensures var s' := Advance(s, t);
            && |s.ops| <= |s'.ops|
            && forall i | 0 <= i < |s.ops| && s.ops[i].status.Taken? :: s'.ops[i] == s.ops[i]
  {
    match s.pcs[t]
    case Starting(_, _) =>
    case Canceling(_, _) =>
    case Handling(_, _, _, _, _) =>
    case Completing(_, _, _, _) =>
    case _ =>
  }

  lemma EnterAnswers(s: State, t: Thread, k: SessionId)
    requires CanStep(s, t) && k < |s.sessions| && ThreadOk(s, t) && SessionOk(s, k)
    requires s.pcs[t].Handling? && s.pcs[t].handler.Enter?
    requires FromOp(s, s.pcs[t]) && Answered(s, k)
    ensures Answered(Advance(s, t), k)
  {
  }

  lemma HandlerKeepsResults(s: State, t: Thread, k: SessionId)
    requires CanStep(s, t) && k < |s.sessions| && s.pcs[t].Handling? && !s.pcs[t].handler.Enter?
    ensures var s' := Advance(s, t);
            && |s'.sessions| == |s.sessions|
            && s'.sessions[k].ec == s.sessions[k].ec && s'.sessions[k].response == s.sessions[k].response
            && (t < |s'.pcs| && s'.pcs[t].Completing? && s.pcs[t].k == k ==> s.sessions[k].canceled)
  {
  }

  lemma StepAnswers(s: State, t: Thread)
    requires Inv(s) && AllAnswered(s) && CanStep(s, t)
    ensures AllAnswered(Advance(s, t))
  {
    var s' := Advance(s, t);
    StepKept(s, t);
    StepOps(s, t);
    StepGrows(s, t, 0);
    assert ThreadOk(s, t) && FromOp(s, s.pcs[t]);
    forall k: nat | k < |s'.sessions| ensures Answered(s', k) {
      assert SessionOk(s, k) && Answered(s, k);
      StepAnswersOne(s, t, k);
    }
    forall u: nat | u < |s'.pcs| ensures FromOp(s', s'.pcs[u]) {
      assert FromOp(s, s.pcs[u]);
      if |s.sessions| > 0 { StepShift(s, t, 0); }
      if s.pcs[u].Handling? {
        assert ThreadOk(s, u);
        StepShift(s, t, s.pcs[u].k);
        OpsStay(s, s', Op(s.pcs[u].k, s.pcs[u].stage, Taken(s.pcs[u].code, s.pcs[u].line)));
      }
    }
  }

  lemma StepAnswersOne(s: State, t: Thread, k: SessionId)
    requires CanStep(s, t) && k < |s.sessions| && ThreadOk(s, t) && SessionOk(s, k)
    requires FromOp(s, s.pcs[t]) && Answered(s, k)
    ensures Shaped(Advance(s, t)) && k < |Advance(s, t).sessions| && Answered(Advance(s, t), k)
  {
    var s' := Advance(s, t);
    StepShift(s, t, k);
    StepOps(s, t);
    OpsStay(s, s', Op(k, Read, Taken(NoError, s.sessions[k].response)));
    if s.pcs[t].Handling? {
      if s.pcs[t].handler.Enter? { EnterAnswers(s, t, k); } else { HandlerKeepsResults(s, t, k); }
    }
  }

  lemma EventAnswers(s: State, e: Event)
    requires Inv(s) && AllAnswered(s) && Enabled(s, e)
    ensures AllAnswered(Apply(s, e))
  {
    if e.ThreadStep? {
      StepAnswers(s, e.t);
    } else {
      var s' := Apply(s, e);
      if e.Dispatch? { assert OpOk(s, e.i) && ThreadOk(s, e.t); assert s'.ops[e.i] in s'.ops; }
      forall k: nat | k < |s'.sessions| ensures Answered(s', k) {
        if k < |s.sessions| {
          assert Answered(s, k) && SessionOk(s, k);
          OpsStay(s, s', Op(k, Read, Taken(NoError, s.sessions[k].response)));
        }
      }
      forall u: nat | u < |s'.pcs| ensures FromOp(s', s'.pcs[u]) {
        assert FromOp(s, s.pcs[u]);
        if s.pcs[u].Handling? { OpsStay(s, s', Op(s.pcs[u].k, s.pcs[u].stage, Taken(s.pcs[u].code, s.pcs[u].line))); }
      }
    }
  }

  lemma {:induction false} RunAnswers(pool: nat, users: nat, es: seq<Event>, s: State)
    requires Exec(Init(pool, users), es) == Some(s)
    ensures Inv(s) && AllAnswered(s)
  {
    InitInv(pool, users);
    RunKept(Init(pool, users), es);
    if es != [] {
      RunAnswers(pool, users, es[..|es| - 1], Exec(Init(pool, users), es[..|es| - 1]).value);
      EventAnswers(Exec(Init(pool, users), es[..|es| - 1]).value, es[|es| - 1]);
    }
  }

  /** A callback that reports success was given, as its response, a line that async_read_until delivered for its own
      session. */
  lemma SuccessIsAnswered(pool: nat, users: nat, es: seq<Event>, s: State, c: nat)
    requires Exec(Init(pool, users), es) == Some(s) && c < |s.callbacks| && s.callbacks[c].code == NoError
    ensures Delivered(s, s.callbacks[c].sid, s.callbacks[c].response)
  {
    RunAnswers(pool, users, es, s);
    assert CallOk(s, c) && Answered(s, s.callbacks[c].sid);
  }
}
