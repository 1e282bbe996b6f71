/**
 Requests with the id of an unfinished one.  The map holds the unfinished requests, no more and no less, until a
 request is inserted whose id an unfinished one has, and from no step on but such an insertion it fails to.
 */
module ClientIds {
  import opened Base
  import opened ClientModel
  import opened ClientInvariant
  import opened ClientTheorems
  import opened ClientRequests
  import opened ClientTwoCancels

  /** The map holds exactly the requests that have been inserted and have not completed. */
  ghost predicate MapRight(s: State) {
    Shaped(s) && forall k: nat | k < |s.sessions| :: Unfinished(s, k) <==> InMap(s, k)
  }

  ghost predicate AllFound(s: State) { Shaped(s) && forall k: nat | k < |s.sessions| :: FoundByOwnId(s, k) }

  lemma RightIsFound(s: State)
    requires Inv(s)
    ensures MapRight(s) <==> AllFound(s)
  {
    forall k: nat | k < |s.sessions| ensures InMap(s, k) <==> OwnEntry(s, k) { OwnEntryOnly(s, k); }
    forall k: nat | k < |s.sessions| && InMap(s, k) ensures Unfinished(s, k) {
      var id :| id in s.active && s.active[id] == k;
      assert EntryOk(s, id);
    }
    if AllFound(s) {
      forall k: nat | k < |s.sessions| ensures Unfinished(s, k) <==> InMap(s, k) { assert FoundByOwnId(s, k); }
    }
  }

  predicate OwnEntry(s: State, k: SessionId)
    requires k < |s.sessions|
  {
    s.sessions[k].id in s.active && s.active[s.sessions[k].id] == k
  }

  lemma OwnEntryOnly(s: State, k: SessionId)
    requires Inv(s) && k < |s.sessions|
    ensures InMap(s, k) <==> OwnEntry(s, k)
  {
    if id :| id in s.active && s.active[id] == k { assert EntryOk(s, id); }
  }

  /** Session j is unfinished and has the id under which thread t is about to insert another one. */
  predicate Hides(s: State, t: Thread, j: SessionId)
    requires Shaped(s) && t < |s.pcs| && Inserts(s.pcs[t]) && s.pcs[t].k < |s.sessions|
  {
    && j < |s.sessions| && j != s.pcs[t].k && Unfinished(s, j)
    && s.sessions[j].id == s.sessions[s.pcs[t].k].id
  }

  /** The event inserts a request with the id of an unfinished one. */
  ghost predicate Overwrites(s: State, e: Event) {
    && Shaped(s) && e.ThreadStep? && e.t < |s.pcs| && Inserts(s.pcs[e.t]) && s.pcs[e.t].k < |s.sessions|
    && exists j: SessionId :: Hides(s, e.t, j)
  }

  // ----- Each step

  lemma InsertRight(s: State, t: Thread)
    requires Inv(s) && AllFound(s) && CanStep(s, t) && Inserts(s.pcs[t])
    ensures AllFound(Advance(s, t)) <==> !Overwrites(s, ThreadStep(t))
  {
    var s' := Advance(s, t);
    StepKept(s, t);
    assert ThreadOk(s, t);
    forall j: nat | j < |s.sessions|
      ensures |s'.sessions| == |s.sessions| && (FoundByOwnId(s', j) <==> !Hides(s, t, j))
    {
      InsertAt(s, t, j);
    }
    assert AllFound(s') <==> forall j: nat | j < |s.sessions| :: !Hides(s, t, j);
  }

  lemma InsertAt(s: State, t: Thread, j: SessionId)
    requires Inv(s) && AllFound(s) && CanStep(s, t) && Inserts(s.pcs[t]) && j < |s.sessions|
    ensures var s' := Advance(s, t);
            Shaped(s') && |s'.sessions| == |s.sessions| && (FoundByOwnId(s', j) <==> !Hides(s, t, j))
  {
    assert ThreadOk(s, t) && SessionOk(s, j) && FoundByOwnId(s, j);
    StepOnward(s, t, j);
  }

  /** Any other step of a thread takes nothing out of the map but what completes. */
  lemma OtherRight(s: State, t: Thread)
    requires Inv(s) && AllFound(s) && CanStep(s, t) && !Inserts(s.pcs[t])
    ensures AllFound(Advance(s, t))
  {
    var s' := Advance(s, t);
    assert ThreadOk(s, t);
    forall j: nat | j < |s.sessions| ensures Shaped(s') && |s'.sessions| == |s.sessions| && FoundByOwnId(s', j) {
      OtherAt(s, t, j);
    }
    StepKept(s, t);
    StepGrows(s, t, 0);
  }

  lemma OtherAt(s: State, t: Thread, j: SessionId)
    requires Inv(s) && AllFound(s) && CanStep(s, t) && !Inserts(s.pcs[t]) && j < |s.sessions|
    ensures var s' := Advance(s, t); Shaped(s') && |s'.sessions| == |s.sessions| && FoundByOwnId(s', j)
  {
    assert ThreadOk(s, t) && SessionOk(s, j) && FoundByOwnId(s, j);
    StepOnward(s, t, j);
    if Erases(s.pcs[t]) { assert FoundByOwnId(s, s.pcs[t].k) && SessionOk(s, s.pcs[t].k); }
  }

  /** The events that are no step of a thread leave the map alone, and what is unfinished too. */
  lemma CallRight(s: State, e: Event, s': State)
    requires Inv(s) && AllFound(s) && Enabled(s, e) && !e.ThreadStep? && s' == Apply(s, e)
    ensures AllFound(s')
  {
    if e.Dispatch? { assert OpOk(s, e.i) && ThreadOk(s, e.t); }
    forall k: nat | k < |s'.sessions| ensures Shaped(s') && FoundByOwnId(s', k) {
      assert k < |s.sessions| ==> FoundByOwnId(s, k) && SessionOk(s, k);
    }
  }

  /** From a state whose map is right, an event leads to one whose map is right exactly when it is not an insertion
      with the id of an unfinished request. */
  lemma EventRight(s: State, e: Event)
    requires Inv(s) && MapRight(s) && Enabled(s, e)
    ensures MapRight(Apply(s, e)) <==> !Overwrites(s, e)
  {
    EventKept(s, e);
    RightIsFound(s);
    RightIsFound(Apply(s, e));
    if !e.ThreadStep? { CallRight(s, e, Apply(s, e)); }
    else if Inserts(s.pcs[e.t]) { InsertRight(s, e.t); }
    else { OtherRight(s, e.t); }
  }

  // ----- Whole runs

  /** The state after the first n events of a run. */
  ghost function After(s: State, es: seq<Event>, n: nat): State
    requires n <= |es|
  {
    match Exec(s, es[..n])
    case Some(m) => m
    case None => s
  }

  ghost predicate AlwaysRight(s: State, es: seq<Event>) { forall n: nat | n <= |es| :: MapRight(After(s, es, n)) }

  ghost predicate NeverOverwrites(s: State, es: seq<Event>) {
    forall n: nat | n < |es| :: !Overwrites(After(s, es, n), es[n])
  }

  lemma AfterInit(s: State, es: seq<Event>)
    requires es != [] && Exec(s, es).Some?
    ensures var init := es[..|es| - 1]; forall n: nat | n <= |init| :: After(s, init, n) == After(s, es, n)
    ensures var init := es[..|es| - 1]; Exec(s, init) == Some(After(s, es, |init|))
  {
    var init := es[..|es| - 1];
    forall n: nat | n <= |init| ensures init[..n] == es[..n] {}
  }

  /** The map is right throughout a run if and only if no step of the run inserts a request with the id of an unfinished
      one. */
  lemma {:induction false} AlwaysRightIff(pool: nat, users: nat, es: seq<Event>)
    requires Exec(Init(pool, users), es).Some?
    ensures AlwaysRight(Init(pool, users), es) <==> NeverOverwrites(Init(pool, users), es)
  {
    var s := Init(pool, users);
    InitInv(pool, users);
    if es == [] {
      assert es[..0] == [];
    } else {
      var init, e := es[..|es| - 1], es[|es| - 1];
      AfterInit(s, es);
      AlwaysRightIff(pool, users, init);
      var m := After(s, es, |init|);
      RunKept(s, init);
      assert es[..|es|] == es;
      assert After(s, es, |es|) == Apply(m, e);
      if AlwaysRight(s, init) { EventRight(m, e); }
      RightInit(s, es);
    }
  }

  lemma RightInit(s: State, es: seq<Event>)
    requires es != [] && Exec(s, es).Some?
    ensures var init := es[..|es| - 1];
            && (AlwaysRight(s, es) <==> AlwaysRight(s, init) && MapRight(After(s, es, |es|)))
            && (NeverOverwrites(s, es) <==>
                  NeverOverwrites(s, init) && !Overwrites(After(s, es, |init|), es[|init|]))
            && (AlwaysRight(s, init) ==> MapRight(After(s, es, |init|)))
  {
    var init := es[..|es| - 1];
    AfterInit(s, es);
    if AlwaysRight(s, init) && MapRight(After(s, es, |es|)) {
      forall n: nat | n <= |es| ensures MapRight(After(s, es, n)) {
        if n <= |init| { assert MapRight(After(s, init, n)); }
      }
    }
    if AlwaysRight(s, es) {
      forall n: nat | n <= |init| ensures MapRight(After(s, init, n)) { assert MapRight(After(s, es, n)); }
    }
    if NeverOverwrites(s, init) && !Overwrites(After(s, es, |init|), es[|init|]) {
      forall n: nat | n < |es| ensures !Overwrites(After(s, es, n), es[n]) {
        if n < |init| { assert !Overwrites(After(s, init, n), init[n]); }
      }
    }
    if NeverOverwrites(s, es) {
      forall n: nat | n < |init| ensures !Overwrites(After(s, init, n), init[n]) {
        assert !Overwrites(After(s, es, n), es[n]);
      }
    }
    if AlwaysRight(s, init) { assert MapRight(After(s, init, |init|)); }
  }

  // ----- A run that reuses an id

  /** A second request with the same id has been started, and is at this point of being put into the map. */
  function Reuses(pool: nat, users: nat, id: int, start: StartAt, k: SessionId, guard: Option<Thread>): State
    requires users > 0
  {
    State(pool, Pcs(pool, users, Starting(1, start)),
          [Session(id, NoError, "", false, None), Session(id, NoError, "", false, None)], map[id := k], guard,
          [Op(0, Connect, Pending(false))], true, false, [], [InOp(0), WithCaller(pool)], [0, 0])
  }

  lemma ReuseCalls(pool: nat, users: nat, id: int) returns (es: seq<Event>)
    requires users > 0
    ensures Exec(Init(pool, users), es) == Some(Reuses(pool, users, id, LockMap, 0, None))
    ensures OnlyCancels(es, id, 0)
  {
    var s0 := Scene(pool, users, id, Idle, false, None, None, Pending(false), 0);
    es := Connecting(pool, users, id);
    PcsMove(pool, users, Idle, Starting(1, LockMap));
    es := Go(Init(pool, users), es, s0, CallStart(pool, id), Reuses(pool, users, id, LockMap, 0, None), id, 0);
  }

  lemma ReuseInserts(pool: nat, users: nat, id: int) returns (es: seq<Event>)
    requires users > 0
    ensures Exec(Init(pool, users), es) == Some(Reuses(pool, users, id, UnlockMap, 1, Some(pool)))
  {
    var i := Init(pool, users);
    var s1 := Reuses(pool, users, id, LockMap, 0, None);
    var s2 := Reuses(pool, users, id, Insert, 0, Some(pool));
    es := ReuseCalls(pool, users, id);
    PcsMove(pool, users, Starting(1, LockMap), Starting(1, Insert));
    es := GoStep(i, es, s1, s2, id, 0);
    PcsMove(pool, users, Starting(1, Insert), Starting(1, UnlockMap));
    es := GoStep(i, es, s2, Reuses(pool, users, id, UnlockMap, 1, Some(pool)), id, 0);
  }

  /** For every pool, every number of users and every id: the first request with this id has been connecting when a
      second one with it is inserted. The first is unfinished, and no CancelRequest can find it any more. */
  lemma ReuseLosesRequest(pool: nat, users: nat, id: int) returns (es: seq<Event>, s: State)
    requires users > 0
    ensures Exec(Init(pool, users), es) == Some(s)
    ensures |s.sessions| == |s.place| == 2 && s.sessions[0].id == s.sessions[1].id == id
    ensures Unfinished(s, 0) && !InMap(s, 0) && s.callbacks == []
  {
    es := ReuseInserts(pool, users, id);
    s := Reuses(pool, users, id, UnlockMap, 1, Some(pool));
  }

  // ----- The ids of the requests that were started

  function StartedBy(e: Event): seq<int> { if e.CallStart? then [e.id] else [] }

  /** The ids passed to EmulateLongComputationOp in a run, in order. */
  function StartedIds(es: seq<Event>): seq<int> {
    if es == [] then [] else StartedIds(es[..|es| - 1]) + StartedBy(es[|es| - 1])
  }

  function IdsOf(s: State): seq<int> { seq(|s.sessions|, k requires 0 <= k < |s.sessions| => s.sessions[k].id) }

  lemma EventIds(s: State, e: Event, s': State)
    requires Inv(s) && Enabled(s, e) && s' == Apply(s, e)
    ensures IdsOf(s') == IdsOf(s) + StartedBy(e)
  {
    if e.ThreadStep? {
      StepKept(s, e.t);
      StepGrows(s, e.t, 0);
      assert ThreadOk(s, e.t);
      forall k: nat | k < |s.sessions| ensures IdsOf(s')[k] == IdsOf(s)[k] {
        StepShift(s, e.t, k);
      }
    }
  }

  lemma {:induction false} RunIds(pool: nat, users: nat, es: seq<Event>, s: State)
    requires Exec(Init(pool, users), es) == Some(s)
    ensures StartedIds(es) == IdsOf(s)
  {
    if es != [] {
      var init := es[..|es| - 1];
      var m := Exec(Init(pool, users), init).value;
      RunIds(pool, users, init, m);
      InitInv(pool, users);
      RunKept(Init(pool, users), init);
      EventIds(m, es[|es| - 1], s);
    }
  }

  lemma {:induction false} NoUserNoId(pool: nat, es: seq<Event>)
    requires Exec(Init(pool, 0), es).Some?
    ensures StartedIds(es) == []
  {
    if es != [] {
      NoUserNoId(pool, es[..|es| - 1]);
      PoolKept(Init(pool, 0), es[..|es| - 1]);
    }
  }

  lemma {:induction false} FewerBefore(es: seq<Event>, n: nat, id: int)
    requires n <= |es|
    ensures multiset(StartedIds(es[..n]))[id] <= multiset(StartedIds(es))[id]
  {
    if n < |es| {
      FewerBefore(es[..|es| - 1], n, id);
      assert es[..|es| - 1][..n] == es[..n];
    } else {
      assert es[..n] == es;
    }
  }

  lemma TwiceInBag(ids: seq<int>, j: nat, k: nat)
    requires j < k < |ids| && ids[j] == ids[k]
    ensures multiset(ids)[ids[k]] >= 2
  {
    assert ids == ids[..k] + [ids[k]] + ids[k + 1..];
    assert ids[..k][j] in multiset(ids[..k]);
  }

  /** Without two requests of one id nothing is ever overwritten. */
  lemma DifferentIds(pool: nat, users: nat, es: seq<Event>, n: nat)
    requires Exec(Init(pool, users), es).Some? && n < |es|
    requires forall id :: multiset(StartedIds(es))[id] <= 1
    ensures !Overwrites(After(Init(pool, users), es, n), es[n])
  {
    var s := Init(pool, users);
    BeforeRuns(s, es, n);
    var m := After(s, es, n);
    RunIds(pool, users, es[..n], m);
    if Overwrites(m, es[n]) {
      var t := es[n].t;
      var j: SessionId :| Hides(m, t, j);
      var k, ids := m.pcs[t].k, IdsOf(m);
      assert ids[j] == ids[k];
      FewerBefore(es, n, ids[k]);
      if j < k { TwiceInBag(ids, j, k); } else { TwiceInBag(ids, k, j); }
      assert false;
    }
  }

  lemma {:induction false} BeforeRuns(s: State, es: seq<Event>, n: nat)
    requires Exec(s, es).Some? && n <= |es|
    ensures Exec(s, es[..n]) == Some(After(s, es, n))
  {
    if n < |es| {
      BeforeRuns(s, es[..|es| - 1], n);
      assert es[..|es| - 1][..n] == es[..n];
    } else {
      assert es[..n] == es;
    }
  }

  /** The users start at most n(id) requests with each id. */
  ghost predicate StartsWithin(es: seq<Event>, n: int -> nat) {
    forall id :: multiset(StartedIds(es))[id] <= n(id)
  }

  /** In no run of the client within these limits does the map lose an unfinished request or keep a finished one. */
  ghost predicate NeverLoses(pool: nat, users: nat, n: int -> nat) {
    forall es, s | Exec(Init(pool, users), es) == Some(s) && StartsWithin(es, n) :: MapRight(s)
  }

  lemma OnceIsRight(pool: nat, users: nat, es: seq<Event>, s: State)
    requires Exec(Init(pool, users), es) == Some(s) && forall id :: multiset(StartedIds(es))[id] <= 1
    ensures MapRight(s)
  {
    forall n: nat | n < |es| ensures !Overwrites(After(Init(pool, users), es, n), es[n]) {
      DifferentIds(pool, users, es, n);
    }
    AlwaysRightIff(pool, users, es);
    BeforeRuns(Init(pool, users), es, |es|);
    assert es[..|es|] == es;
    assert MapRight(After(Init(pool, users), es, |es|));
  }

  lemma OnceNeverLoses(pool: nat, users: nat, n: int -> nat)
    requires users == 0 || forall id :: n(id) <= 1
    ensures NeverLoses(pool, users, n)
  {
    forall es, s | Exec(Init(pool, users), es) == Some(s) && StartsWithin(es, n) ensures MapRight(s) {
      if users == 0 { NoUserNoId(pool, es); }
      forall id ensures multiset(StartedIds(es))[id] <= 1 { if users > 0 { assert n(id) <= 1; } }
      OnceIsRight(pool, users, es, s);
    }
  }

  lemma PairWithin(es: seq<Event>, id: int, n: int -> nat)
    requires |StartedIds(es)| == 2 && StartedIds(es)[0] == StartedIds(es)[1] == id && n(id) > 1
    ensures StartsWithin(es, n)
  {
    assert StartedIds(es) == [id] + [id];
  }

  lemma TwiceCanLose(pool: nat, users: nat, n: int -> nat, id: int)
    requires users > 0 && n(id) > 1
    ensures !NeverLoses(pool, users, n)
  {
    var es, s := ReuseLosesRequest(pool, users, id);
    RunIds(pool, users, es, s);
    PairWithin(es, id, n);
    assert !MapRight(s);
  }

  /** What the users can promise: with a limit for each id, the map is right in every run within the limits if and only
      if no id may be used twice, or there is no user. */
  lemma NeverLosesIff(pool: nat, users: nat, n: int -> nat)
    ensures NeverLoses(pool, users, n) <==> users == 0 || forall id :: n(id) <= 1
  {
    if users == 0 || forall id :: n(id) <= 1 { OnceNeverLoses(pool, users, n); }
    else if id :| n(id) > 1 { TwiceCanLose(pool, users, n, id); }
  }
}
