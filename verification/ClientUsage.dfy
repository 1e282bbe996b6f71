/** The usage that keeps the asynchronous client safe: no id is passed to CancelRequest twice. */
module ClientUsage {
  import opened Base
  import opened ClientModel
  import opened ClientInvariant
  import opened ClientTheorems
  import opened ClientDeadlock
  import opened ClientLiveness
  import opened ClientRequests

  /** The number of calls CancelRequest(id) in a run. */
  function Cancels(es: seq<Event>, id: int): nat {
    if es == [] then 0 else Cancels(es[..|es| - 1], id) + Asked(es[|es| - 1], id)
  }

  function Asked(e: Event, id: int): nat { if e.CallCancel? && e.id == id then 1 else 0 }

  /** The thread is in CancelRequest(id) and has not looked the id up yet. */
  function Asks(pc: Pc, id: int): nat { if pc == Asking(id) || pc == Seeking(id) then 1 else 0 }

  function AllAsks(s: State, id: int): seq<nat> { seq(|s.pcs|, i requires 0 <= i < |s.pcs| => Asks(s.pcs[i], id)) }

  lemma AsksMoved(s: State, s': State, t: Thread, id: int)
    requires t < |s.pcs| == |s'.pcs| && s'.pcs == s.pcs[t := s'.pcs[t]]
    ensures Sum(AllAsks(s', id)) == Sum(AllAsks(s, id)) - Asks(s.pcs[t], id) + Asks(s'.pcs[t], id)
  {
    SumUpdate(AllAsks(s, id), t, Asks(s'.pcs[t], id));
    assert AllAsks(s', id) == AllAsks(s, id)[t := Asks(s'.pcs[t], id)];
  }

  lemma StepAsks(s: State, t: Thread, id: int)
    requires CanStep(s, t)
    ensures var s' := Advance(s, t);
            && |s'.pcs| == |s.pcs| && s'.pcs == s.pcs[t := s'.pcs[t]]
            && Asks(s'.pcs[t], id) == (if s.pcs[t] == Asking(id) then 1 else 0)
  {
    match s.pcs[t]
    case Starting(_, _) =>
    case Canceling(_, _) => CancelAsks(s, t, id);
    case Handling(_, _, _, _, _) => HandlerAsks(s, t, id);
    case Completing(_, _, _, _) =>
    case _ =>
  }

  lemma CancelAsks(s: State, t: Thread, id: int)
    requires CanStep(s, t) && s.pcs[t].Canceling?
    ensures var s' := Advance(s, t); s'.pcs == s.pcs[t := s'.pcs[t]] && Asks(s'.pcs[t], id) == 0
  {
  }

  lemma HandlerAsks(s: State, t: Thread, id: int)
    requires CanStep(s, t) && s.pcs[t].Handling?
    ensures var s' := Advance(s, t); s'.pcs == s.pcs[t := s'.pcs[t]] && Asks(s'.pcs[t], id) == 0
  {
  }

  /** Each lookup that finds a session of this id is paid for by a call with this id. */
  lemma EventPays(s: State, e: Event, id: int, k: SessionId)
    requires Inv(s) && Enabled(s, e) && k < |s.sessions| && s.sessions[k].id == id
    ensures var s' := Apply(s, e);
            && k < |s'.found| && k < |s'.sessions| && s'.sessions[k].id == id
            && s'.found[k] + Sum(AllAsks(s', id)) <= s.found[k] + Sum(AllAsks(s, id)) + Asked(e, id)
  {
    var s' := Apply(s, e);
    EventGrows(s, e, k);
    match e
    case ThreadStep(t) =>
      assert ThreadOk(s, t) && SessionOk(s, k);
      StepShift(s, t, k);
      StepAsks(s, t, id);
      AsksMoved(s, s', t, id);
      if FindsNow(s, e, k) { assert EntryOk(s, s.pcs[t].id); }
    case CallStart(t, _) => AsksMoved(s, s', t, id);
    case CallCancel(t, _) => AsksMoved(s, s', t, id);
    case CallClose(t) => AsksMoved(s, s', t, id);
    case Dispatch(t, _) => AsksMoved(s, s', t, id);
    case ThreadExit(t) => AsksMoved(s, s', t, id);
    case RunOutOfWork => assert AllAsks(s', id) == AllAsks(s, id);
    case OpCompletes(_, _, _) => assert AllAsks(s', id) == AllAsks(s, id);
  }

  /** A CancelRequest looks this id up. */
  predicate LooksUp(s: State, e: Event, id: int) { e.ThreadStep? && e.t < |s.pcs| && s.pcs[e.t] == Seeking(id) }

  /** A call of CancelRequest is pending until it looks its id up. */
  lemma EventAsks(s: State, e: Event, id: int)
    requires Inv(s) && Enabled(s, e)
    ensures Sum(AllAsks(Apply(s, e), id)) + (if LooksUp(s, e, id) then 1 else 0) ==
            Sum(AllAsks(s, id)) + Asked(e, id)
  {
    var s' := Apply(s, e);
    match e
    case ThreadStep(t) =>
      StepAsks(s, t, id);
      AsksMoved(s, s', t, id);
    case CallStart(t, _) => AsksMoved(s, s', t, id);
    case CallCancel(t, _) => AsksMoved(s, s', t, id);
    case CallClose(t) => AsksMoved(s, s', t, id);
    case Dispatch(t, _) => AsksMoved(s, s', t, id);
    case ThreadExit(t) => AsksMoved(s, s', t, id);
    case RunOutOfWork => assert AllAsks(s', id) == AllAsks(s, id);
    case OpCompletes(_, _, _) => assert AllAsks(s', id) == AllAsks(s, id);
  }

  lemma NobodyAsks(s: seq<nat>)
    requires forall i | 0 <= i < |s| :: s[i] == 0
    ensures Sum(s) == 0
  {
  }

  /** Session k has been found at most as often as CancelRequest was called with its id. */
  lemma {:induction false} FoundIsPaid(pool: nat, users: nat, es: seq<Event>, s: State, id: int, k: SessionId)
    requires Exec(Init(pool, users), es) == Some(s)
    ensures Sum(AllAsks(s, id)) <= Cancels(es, id)
    ensures k < |s.found| && k < |s.sessions| && s.sessions[k].id == id ==>
              s.found[k] + Sum(AllAsks(s, id)) <= Cancels(es, id)
  {
    if es == [] {
      NobodyAsks(AllAsks(s, id));
    } else {
      var init, e := es[..|es| - 1], es[|es| - 1];
      var m := Exec(Init(pool, users), init).value;
      FoundIsPaid(pool, users, init, m, id, k);
      InitInv(pool, users);
      RunKept(Init(pool, users), init);
      EventAsks(m, e, id);
      EventGrows(m, e, k);
      if k < |m.sessions| {
        assert SessionOk(m, k);
        EventPays(m, e, m.sessions[k].id, k);
      }
    }
  }

  /** The number of lookups of this id in a run. */
  ghost function Lookups(s: State, es: seq<Event>, id: int): nat {
    if es == [] then 0
    else
      var init, e := es[..|es| - 1], es[|es| - 1];
      Lookups(s, init, id) + if Exec(s, init).Some? && LooksUp(Exec(s, init).value, e, id) then 1 else 0
  }

  /** Every call of CancelRequest looks up the id it was given, once, or is still about to. */
  lemma {:induction false} CallsLookUp(pool: nat, users: nat, es: seq<Event>, s: State, id: int)
    requires Exec(Init(pool, users), es) == Some(s)
    ensures Lookups(Init(pool, users), es, id) + Sum(AllAsks(s, id)) == Cancels(es, id)
  {
    if es == [] {
      NobodyAsks(AllAsks(s, id));
    } else {
      var init := es[..|es| - 1];
      var m := Exec(Init(pool, users), init).value;
      CallsLookUp(pool, users, init, m, id);
      InitInv(pool, users);
      RunKept(Init(pool, users), init);
      EventAsks(m, es[|es| - 1], id);
    }
  }

  /** ... and a lookup finds the session that the map has under the id, and goes on to cancel that one. */
  lemma LookupFinds(s: State, e: Event, id: int)
    requires Inv(s) && Enabled(s, e) && LooksUp(s, e, id)
    ensures var s' := Apply(s, e);
            if id in s.active
            then FindsNow(s, e, s.active[id]) && s'.pcs == s.pcs[e.t := Canceling(s.active[id], LockGuard)]
            else s' == s.(pcs := s.pcs[e.t := Leaving])
  {
  }

  lemma CalledOnceFoundOnce(pool: nat, users: nat, es: seq<Event>, s: State)
    requires Exec(Init(pool, users), es) == Some(s) && forall id :: Cancels(es, id) <= 1
    ensures FoundOnce(s)
  {
    InitInv(pool, users);
    RunKept(Init(pool, users), es);
    forall k: nat | k < |s.found| ensures s.found[k] <= 1 {
      FoundIsPaid(pool, users, es, s, s.sessions[k].id, k);
    }
  }

  /** A client that passes each id to CancelRequest at most once never runs into a wait cycle, and when it has come to
      rest every request has been reported exactly once, exactly if its pool has a thread or it made none. */
  lemma CancelOncePerId(pool: nat, users: nat, es: seq<Event>, s: State)
    requires Exec(Init(pool, users), es) == Some(s) && forall id :: Cancels(es, id) <= 1
    ensures forall c :: !WaitCycle(s, c)
    ensures Quiescent(s) ==> (AllReported(s) <==> 0 < pool || s.sessions == [])
  {
    CalledOnceFoundOnce(pool, users, es, s);
    forall c ensures !WaitCycle(s, c) { NoDeadlock(pool, users, es, s, c); }
    if Quiescent(s) { EveryRequestReported(pool, users, es, s, [], s); }
  }
}
