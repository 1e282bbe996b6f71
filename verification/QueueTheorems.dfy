/** What the queue guarantees: locks that cannot deadlock, order and conservation, and what a wakeup is worth. */
module QueueTheorems {
  import opened Base
  import opened QueueModel

  /** The items thread t has put into the queue, in order. */
  function PushedBy(log: seq<Entry>, t: Thread): seq<Item> {
    if log == [] then []
    else
      var init, last := log[..|log| - 1], log[|log| - 1];
      PushedBy(init, t) + if last.t == t then [last.item] else []
  }

  /** The item of a push that has not taken effect yet. */
  function NotYetPushed(pc: Pc): seq<Item> {
    if pc.Pushing? && (pc.push.LockQueue? || pc.push.Emplace?) then [pc.item] else []
  }

  /** Each mutex is owned by exactly the thread whose position says so. */
  ghost predicate LocksOk(s: State, t: Thread)
    requires Shaped(s) && t < |s.pcs|
  {
    && (HoldsQueue(s.pcs[t]) <==> s.muxQueue == Some(t))
    && (HoldsBlocking(s.pcs[t]) <==> s.muxBlocking == Some(t))
  }

  /** A thread's pushes take effect in the order it was asked for them. */
  ghost predicate OrderOk(s: State, t: Thread)
    requires Shaped(s) && t < |s.pcs|
  {
    s.asked[t] == PushedBy(s.log, t) + NotYetPushed(s.pcs[t])
  }

  ghost predicate ThreadOk(s: State, t: Thread)
    requires Shaped(s) && t < |s.pcs|
  {
    LocksOk(s, t) && OrderOk(s, t)
  }

  /** What holds however many threads call Update. */
  ghost predicate Inv(s: State) {
    && Shaped(s)
    && (s.muxQueue.Some? ==> s.muxQueue.value < |s.pcs|)
    && (s.muxBlocking.Some? ==> s.muxBlocking.value < |s.pcs|)
    && (forall t: nat | t < |s.pcs| :: ThreadOk(s, t))
  }

  lemma PushedBySnoc(log: seq<Entry>, e: Entry, t: Thread)
    ensures PushedBy(log + [e], t) == PushedBy(log, t) + if e.t == t then [e.item] else []
  {
    assert (log + [e])[..|log|] == log;
  }

  lemma StepLocks(s: State, t: Thread, u: Thread)
    requires CanStep(s, t) && u < |s.pcs| && LocksOk(s, t) && LocksOk(s, u)
    ensures Shaped(Advance(s, t)) && u < |Advance(s, t).pcs| && LocksOk(Advance(s, t), u)
    ensures Advance(s, t).muxQueue in {s.muxQueue, None, Some(t)}
    ensures Advance(s, t).muxBlocking in {s.muxBlocking, None, Some(t)}
  {
    match s.pcs[t]
    case Pushing(_, _) => PushLocks(s, t, u);
    case Waiting(_, _) => WaitLocks(s, t, u);
    case Looping(_, _) =>
    case _ =>
  }

  lemma PushLocks(s: State, t: Thread, u: Thread)
    requires CanStep(s, t) && u < |s.pcs| && LocksOk(s, t) && LocksOk(s, u) && s.pcs[t].Pushing?
    ensures Shaped(Advance(s, t)) && u < |Advance(s, t).pcs| && LocksOk(Advance(s, t), u)
    ensures Advance(s, t).muxQueue in {s.muxQueue, None, Some(t)}
    ensures Advance(s, t).muxBlocking in {s.muxBlocking, None, Some(t)}
  {
  }

  lemma WaitLocks(s: State, t: Thread, u: Thread)
    requires CanStep(s, t) && u < |s.pcs| && LocksOk(s, t) && LocksOk(s, u) && s.pcs[t].Waiting?
    ensures Shaped(Advance(s, t)) && u < |Advance(s, t).pcs| && LocksOk(Advance(s, t), u)
    ensures Advance(s, t).muxQueue in {s.muxQueue, None, Some(t)}
    ensures Advance(s, t).muxBlocking in {s.muxBlocking, None, Some(t)}
  {
  }

  lemma PushOrder(s: State, t: Thread, u: Thread)
    requires CanStep(s, t) && u < |s.pcs| && OrderOk(s, u) && s.pcs[t].Pushing?
    ensures Shaped(Advance(s, t)) && |Advance(s, t).pcs| == |s.pcs| && OrderOk(Advance(s, t), u)
  {
    if s.pcs[t].push.Emplace? { EmplaceOrder(s, t, u); } else { PushRest(s, t, Advance(s, t)); }
  }

  /** The steps of a push that take or release a mutex. */
  lemma PushRest(s: State, t: Thread, s': State)
    requires CanStep(s, t) && s.pcs[t].Pushing? && !s.pcs[t].push.Emplace? && s' == Advance(s, t)
    ensures Shaped(s') && |s'.pcs| == |s.pcs| && s'.log == s.log && s'.asked == s.asked
    ensures NotYetPushed(s'.pcs[t]) == NotYetPushed(s.pcs[t])
    ensures forall u | 0 <= u < |s.pcs| && u != t :: s'.pcs[u] == s.pcs[u]
  {
  }

  lemma EmplaceOrder(s: State, t: Thread, u: Thread)
    requires CanStep(s, t) && u < |s.pcs| && OrderOk(s, u) && s.pcs[t].Pushing? && s.pcs[t].push.Emplace?
    ensures Shaped(Advance(s, t)) && |Advance(s, t).pcs| == |s.pcs| && OrderOk(Advance(s, t), u)
  {
    PushedBySnoc(s.log, Entry(t, s.pcs[t].item), u);
  }

  lemma ConsumeOrder(s: State, t: Thread)
    requires CanStep(s, t) && !s.pcs[t].Pushing?
    ensures var s' := Advance(s, t);
            Shaped(s') && |s'.pcs| == |s.pcs| && s'.asked == s.asked && s'.log == s.log && !s'.pcs[t].Pushing?
            && forall u | 0 <= u < |s.pcs| && u != t :: s'.pcs[u] == s.pcs[u]
  {
    match s.pcs[t]
    case Waiting(_, _) => WaitOrder(s, t);
    case Looping(_, _) =>
    case _ =>
  }

  lemma WaitOrder(s: State, t: Thread)
    requires CanStep(s, t) && s.pcs[t].Waiting?
    ensures var s' := Advance(s, t);
            Shaped(s') && |s'.pcs| == |s.pcs| && s'.asked == s.asked && s'.log == s.log && !s'.pcs[t].Pushing?
            && forall u | 0 <= u < |s.pcs| && u != t :: s'.pcs[u] == s.pcs[u]
  {
  }

  lemma StepOrder(s: State, t: Thread, u: Thread)
    requires CanStep(s, t) && u < |s.pcs| && OrderOk(s, u)
    ensures Shaped(Advance(s, t)) && |Advance(s, t).pcs| == |s.pcs| && OrderOk(Advance(s, t), u)
  {
    if s.pcs[t].Pushing? { PushOrder(s, t, u); } else { ConsumeOrder(s, t); }
  }

  lemma StepKept(s: State, t: Thread)
    requires Inv(s) && CanStep(s, t)
    ensures Inv(Advance(s, t))
  {
    var s' := Advance(s, t);
    StepOrderAll(s, t);
    forall u: nat | u < |s'.pcs| ensures ThreadOk(s', u) {
      assert ThreadOk(s, t) && ThreadOk(s, u);
      StepLocks(s, t, u);
    }
    assert ThreadOk(s, t);
    StepLocks(s, t, t);
  }

  lemma StepOrderAll(s: State, t: Thread)
    requires Inv(s) && CanStep(s, t)
    ensures var s' := Advance(s, t); Shaped(s') && |s'.pcs| == |s.pcs| && forall u: nat | u < |s'.pcs| :: OrderOk(s', u)
  {
    assert ThreadOk(s, t);
    StepOrder(s, t, t);
    forall u: nat | u < |Advance(s, t).pcs| ensures OrderOk(Advance(s, t), u) {
      assert ThreadOk(s, u);
      StepOrder(s, t, u);
    }
  }

  lemma EventKept(s: State, e: Event)
    requires Inv(s) && Enabled(s, e)
    ensures Inv(Apply(s, e))
  {
    if e.Step? {
      StepKept(s, e.t);
    } else if e.NotifyOne? {
      NotifyInv(s, e, Apply(s, e));
    } else {
      var s' := Apply(s, e);
      assert ThreadOk(s, e.t);
      forall u: nat | u < |s'.pcs| ensures ThreadOk(s', u) { assert ThreadOk(s, u); }
    }
  }

  lemma NotifyInv(s: State, e: Event, s': State)
    requires Inv(s) && Enabled(s, e) && e.NotifyOne? && s' == Apply(s, e)
    ensures Inv(s')
  {
    assert ThreadOk(s, e.t);
    if e.woken.Some? { assert ThreadOk(s, e.woken.value); }
    forall u: nat | u < |s'.pcs| ensures ThreadOk(s', u) { assert ThreadOk(s, u); }
  }

  lemma {:induction false} RunKept(threads: nat, es: seq<Event>, s: State)
    requires Exec(Init(threads), es) == Some(s)
    ensures Inv(s)
  {
    if es != [] {
      var m := Exec(Init(threads), es[..|es| - 1]).value;
      RunKept(threads, es[..|es| - 1], m);
      EventKept(m, es[|es| - 1]);
    }
  }

  // ----- Locks

  /** A step of some thread's code, as opposed to a new call or a spurious wakeup. */
  predicate OwnStep(e: Event) { e.Step? || e.NotifyOne? }

  /** push and wait cannot deadlock: in every reachable state, if some thread is in the middle of a call and not asleep,
      some thread can go on. */
  lemma NoDeadlock(threads: nat, es: seq<Event>, s: State, t: Thread)
    requires Exec(Init(threads), es) == Some(s)
    requires t < |s.pcs| && !s.pcs[t].Idle? && !IsAsleep(s.pcs[t])
    ensures exists e: Event :: OwnStep(e) && Enabled(s, e)
  {
    RunKept(threads, es, s);
    if !Moves(s, t) {
      assert ThreadOk(s, t);
      var u := if WantsQueue(s.pcs[t]) then s.muxQueue.value else s.muxBlocking.value;
      assert ThreadOk(s, u);
      if !Moves(s, u) {
        var v := s.muxBlocking.value;
        assert ThreadOk(s, v);
        SomebodyMoves(s, v);
      } else {
        SomebodyMoves(s, u);
      }
    } else {
      SomebodyMoves(s, t);
    }
  }

  /** Thread t is in the middle of something and not kept from it by a lock. */
  predicate Moves(s: State, t: Thread)
    requires t < |s.pcs|
  {
    !s.pcs[t].Idle? && !IsAsleep(s.pcs[t]) && !Blocked(s, t)
  }

  lemma SomebodyMoves(s: State, t: Thread)
    requires Inv(s) && t < |s.pcs| && Moves(s, t)
    ensures exists e: Event :: OwnStep(e) && Enabled(s, e)
  {
    if s.pcs[t].Pushing? && s.pcs[t].push.Notify? {
      if u :| 0 <= u < |s.pcs| && IsAsleep(s.pcs[u]) {
        assert Enabled(s, NotifyOne(t, Some(u)));
      } else {
        assert Enabled(s, NotifyOne(t, None));
      }
    } else {
      assert Enabled(s, Step(t));
    }
  }

  /** Thread t waits for a mutex that thread u owns. */
  predicate WaitsFor(s: State, t: Thread, u: Thread) {
    && t < |s.pcs|
    && ((WantsQueue(s.pcs[t]) && s.muxQueue == Some(u)) || (WantsBlocking(s.pcs[t]) && s.muxBlocking == Some(u)))
  }

  /** Every thread of `c` waits for the next one, the last for the first. */
  ghost predicate WaitCycle(s: State, c: seq<Thread>) {
    |c| > 0 && forall i: nat | i < |c| :: WaitsFor(s, c[i], c[NextIn(c, i)])
  }

  /** Whoever is waited for waits for muxBlocking at most, and the owner of that waits for nothing. */
  lemma NoChain(s: State, a: Thread, b: Thread, c: Thread, d: Thread)
    requires Inv(s) && WaitsFor(s, a, b) && WaitsFor(s, b, c)
    ensures !WaitsFor(s, c, d)
  {
    assert ThreadOk(s, b);
    if c < |s.pcs| { assert ThreadOk(s, c); }
  }

  /** Deadlock freedom: no group of threads, whatever the others do, waits for each other in a cycle. */
  lemma NoWaitCycle(threads: nat, es: seq<Event>, s: State, c: seq<Thread>)
    requires Exec(Init(threads), es) == Some(s)
    ensures !WaitCycle(s, c)
  {
    RunKept(threads, es, s);
    if WaitCycle(s, c) {
      var i1 := NextIn(c, 0);
      var i2 := NextIn(c, i1);
      NoChain(s, c[0], c[i1], c[i2], c[NextIn(c, i2)]);
      assert false;
    }
  }

  // ----- One consumer

  /** Only these threads call Update. */
  predicate OnlyCallers(es: seq<Event>, cs: set<Thread>) {
    forall i | 0 <= i < |es| :: es[i].CallUpdate? ==> es[i].t in cs
  }

  predicate OnlyConsumer(es: seq<Event>, c: Thread) { OnlyCallers(es, {c}) }

  /** A push has taken effect and is about to notify. */
  predicate NotifyComing(s: State) {
    && s.muxQueue.Some? && s.muxQueue.value < |s.pcs|
    && s.pcs[s.muxQueue.value].Pushing?
    && (s.pcs[s.muxQueue.value].push.LockBlocking? || s.pcs[s.muxQueue.value].push.Notify?)
  }

  function Items(log: seq<Entry>): seq<Item> { seq(|log|, i requires 0 <= i < |log| => log[i].item) }

  function InHand(pc: Pc): seq<Item> { if pc.Popped? || pc.Handling? then [pc.item] else [] }

  /** Update has found the queue non-empty, or its call of wait has returned, and it has not popped since. */
  predicate SawItem(pc: Pc) {
    || (pc.WaitTested? && !pc.empty)
    || (pc.Looping? && (pc.loop.LockPop? || pc.loop.Pop?)) || (pc.LoopTested? && !pc.empty)
    || ((pc.Looping? || pc.LoopTested?) && pc.call.wait && pc.call.count == 0)
  }

  ghost predicate ConsumerOk(s: State, c: Thread) {
    Shaped(s) && c < |s.pcs| &&
    var pc := s.pcs[c];
    && !s.fault
    && Items(s.log) == s.handled + InHand(pc) + s.queue
    && (Consuming(pc) ==> |s.handled| == s.began[c] + pc.call.count && pc.call.count <= pc.call.max)
    && (pc.Looping? || pc.LoopTested? || pc.Popped? || pc.Handling? ==> pc.call.count < pc.call.max)
    && (pc.Waiting? || pc.WaitTested? ==> pc.call.wait && pc.call.count == 0)
    && (SawItem(pc) ==> s.queue != [])
    && (InWindow(pc) || IsAsleep(pc) ==> (s.queue != [] <==> s.missed[c] || NotifyComing(s)))
    && (forall t | 0 <= t < |s.pcs| && t != c :: !Consuming(s.pcs[t]))
  }

  lemma OtherStepKept(s: State, c: Thread, t: Thread)
    requires Inv(s) && c < |s.pcs| && ConsumerOk(s, c) && CanStep(s, t) && t != c
    ensures ConsumerOk(Advance(s, t), c)
  {
    assert ThreadOk(s, t) && ThreadOk(s, c);
    if s.pcs[t].push.Emplace? { OtherEmplaceKept(s, c, t); }
  }

  lemma OtherEmplaceKept(s: State, c: Thread, t: Thread)
    requires Inv(s) && c < |s.pcs| && ConsumerOk(s, c) && CanStep(s, t) && t != c
    requires s.pcs[t].Pushing? && s.pcs[t].push.Emplace?
    ensures ConsumerOk(Advance(s, t), c)
  {
    assert ThreadOk(s, t) && ThreadOk(s, c);
    var e := Entry(t, s.pcs[t].item);
    assert Items(s.log + [e]) == Items(s.log) + [e.item];
  }

  lemma OwnPushKept(s: State, c: Thread)
    requires Inv(s) && CanStep(s, c) && ConsumerOk(s, c) && s.pcs[c].Pushing?
    ensures ConsumerOk(Advance(s, c), c)
  {
    assert ThreadOk(s, c);
    if s.pcs[c].push.Emplace? {
      var e := Entry(c, s.pcs[c].item);
      assert Items(s.log + [e]) == Items(s.log) + [e.item];
    }
  }

  lemma OwnWaitKept(s: State, c: Thread)
    requires Inv(s) && CanStep(s, c) && ConsumerOk(s, c) && s.pcs[c].Waiting?
    ensures ConsumerOk(Advance(s, c), c)
  {
    assert ThreadOk(s, c);
  }

  lemma OwnLoopKept(s: State, c: Thread)
    requires Inv(s) && CanStep(s, c) && ConsumerOk(s, c) && s.pcs[c].Looping?
    ensures ConsumerOk(Advance(s, c), c)
  {
    assert ThreadOk(s, c);
    if s.pcs[c].loop.Pop? { assert [s.queue[0]] + s.queue[1..] == s.queue; }
  }

  lemma OwnReleaseKept(s: State, c: Thread)
    requires Inv(s) && CanStep(s, c) && ConsumerOk(s, c)
    requires !s.pcs[c].Pushing? && !s.pcs[c].Waiting? && !s.pcs[c].Looping?
    ensures ConsumerOk(Advance(s, c), c)
  {
    assert ThreadOk(s, c);
    if s.pcs[c].Handling? { assert s.handled + [s.pcs[c].item] + [] == s.handled + [s.pcs[c].item]; }
  }

  lemma ConsumerKept(s: State, e: Event, c: Thread)
    requires Inv(s) && c < |s.pcs| && ConsumerOk(s, c) && Enabled(s, e) && (e.CallUpdate? ==> e.t == c)
    ensures ConsumerOk(Apply(s, e), c)
  {
    if e.Step? {
      if e.t != c { OtherStepKept(s, c, e.t); }
      else if s.pcs[c].Pushing? { OwnPushKept(s, c); }
      else if s.pcs[c].Waiting? { OwnWaitKept(s, c); }
      else if s.pcs[c].Looping? { OwnLoopKept(s, c); }
      else { OwnReleaseKept(s, c); }
    } else {
      CallKept(s, e, c);
    }
  }

  lemma CallKept(s: State, e: Event, c: Thread)
    requires Inv(s) && c < |s.pcs| && ConsumerOk(s, c) && Enabled(s, e) && (e.CallUpdate? ==> e.t == c) && !e.Step?
    ensures ConsumerOk(Apply(s, e), c)
  {
    assert ThreadOk(s, e.t) && ThreadOk(s, c);
    assert s.muxQueue.Some? ==> ThreadOk(s, s.muxQueue.value);
    if e.NotifyOne? { NotifyKept(s, e, c, Apply(s, e)); }
  }

  lemma NotifyKept(s: State, e: Event, c: Thread, s': State)
    requires ThreadsOk(s, e, c) && ConsumerOk(s, c) && Enabled(s, e) && e.NotifyOne? && s' == Apply(s, e)
    ensures Shaped(s') && c < |s'.pcs| && ConsumerOk(s', c)
  {
  }

  /** What the invariant says of the threads that a notification concerns. */
  ghost predicate ThreadsOk(s: State, e: Event, c: Thread) {
    && Shaped(s) && e.t < |s.pcs| && c < |s.pcs| && LocksOk(s, e.t) && LocksOk(s, c)
    && (s.muxQueue.Some? ==> s.muxQueue.value < |s.pcs| && LocksOk(s, s.muxQueue.value))
  }

  lemma {:induction false} RunConsumer(threads: nat, es: seq<Event>, s: State, c: Thread)
    requires Exec(Init(threads), es) == Some(s) && c < threads && OnlyConsumer(es, c)
    ensures Inv(s) && c < |s.pcs| && ConsumerOk(s, c)
  {
    RunKept(threads, es, s);
    if es != [] {
      var m := Exec(Init(threads), es[..|es| - 1]).value;
      RunConsumer(threads, es[..|es| - 1], m, c);
      ConsumerKept(m, es[|es| - 1], c);
    }
  }

  /** Producer and consumer: with one thread in Update and any number of others pushing, nothing is ever popped from an
      empty queue, and the messages handled, followed by the one in hand and those queued, are the messages pushed in
      the order the pushes took effect, each producer's in the order it asked for. */
  lemma NothingLostOrReordered(threads: nat, es: seq<Event>, s: State, c: Thread, t: Thread)
    requires Exec(Init(threads), es) == Some(s) && c < threads && OnlyConsumer(es, c) && t < |s.pcs|
    ensures c < |s.pcs| && |s.asked| == |s.pcs| && !s.fault
    ensures Items(s.log) == s.handled + InHand(s.pcs[c]) + s.queue
    ensures s.asked[t] == PushedBy(s.log, t) + NotYetPushed(s.pcs[t])
  {
    RunConsumer(threads, es, s, c);
    assert ThreadOk(s, t);
  }

  /** A call of Update handles at most as many messages as it was allowed, counting those handled since it began. */
  lemma BudgetKept(threads: nat, es: seq<Event>, s: State, c: Thread)
    requires Exec(Init(threads), es) == Some(s) && c < threads && OnlyConsumer(es, c)
    ensures c < |s.pcs| && |s.began| == |s.pcs|
    ensures Consuming(s.pcs[c]) ==>
              |s.handled| == s.began[c] + s.pcs[c].call.count <= s.began[c] + s.pcs[c].call.max
    ensures s.pcs[c].Handling? ==> |s.handled| + 1 <= s.began[c] + s.pcs[c].call.max
  {
    RunConsumer(threads, es, s, c);
  }

  /** A thread that has found the queue empty still holds muxQueue, so the queue is still empty. */
  ghost predicate EmptyOk(s: State) {
    forall t: nat | t < |s.pcs| && s.pcs[t].LoopTested? && s.pcs[t].empty :: s.queue == []
  }

  lemma EmptyStep(s: State, t: Thread, s': State)
    requires Inv(s) && EmptyOk(s) && CanStep(s, t) && s' == Advance(s, t)
    ensures EmptyOk(s')
  {
    assert ThreadOk(s, t);
    ChangesQueue(s, t, s');
    forall u: nat | u < |s'.pcs| && s'.pcs[u].LoopTested? && s'.pcs[u].empty ensures s'.queue == [] {
      if u != t { assert ThreadOk(s, u) && s.pcs[u].empty; }
    }
  }

  /** Only the owner of muxQueue changes the queue, and a test for emptiness tells the truth. */
  lemma ChangesQueue(s: State, t: Thread, s': State)
    requires CanStep(s, t) && s' == Advance(s, t)
    ensures |s'.pcs| == |s.pcs| && forall u | 0 <= u < |s.pcs| && u != t :: s'.pcs[u] == s.pcs[u]
    ensures s'.queue != s.queue ==> HoldsQueue(s.pcs[t])
    ensures s'.pcs[t].LoopTested? ==> s'.queue == s.queue && (s'.pcs[t].empty <==> s.queue == [])
  {
    match s.pcs[t]
    case Pushing(_, _) => PushRestQueue(s, t, s');
    case Waiting(_, _) => WaitOrder(s, t); WaitQueue(s, t);
    case Looping(_, _) =>
    case _ =>
  }

  lemma PushRestQueue(s: State, t: Thread, s': State)
    requires CanStep(s, t) && s.pcs[t].Pushing? && s' == Advance(s, t)
    ensures s'.pcs == s.pcs[t := s'.pcs[t]] && !s'.pcs[t].LoopTested?
    ensures s'.queue != s.queue ==> s.pcs[t].push.Emplace?
  {
  }

  lemma WaitQueue(s: State, t: Thread)
    requires CanStep(s, t) && s.pcs[t].Waiting?
    ensures Advance(s, t).queue == s.queue && !Advance(s, t).pcs[t].LoopTested?
  {
  }

  lemma {:induction false} RunEmpty(threads: nat, es: seq<Event>, s: State)
    requires Exec(Init(threads), es) == Some(s)
    ensures Inv(s) && EmptyOk(s)
  {
    RunKept(threads, es, s);
    if es != [] {
      var m, e := Exec(Init(threads), es[..|es| - 1]).value, es[|es| - 1];
      RunEmpty(threads, es[..|es| - 1], m);
      if e.Step? { EmptyStep(m, e.t, s); }
    }
  }

  /** The other half of the budget: when Update returns, it has used the budget up or found the queue empty. */
  lemma ReturnsWhenDone(threads: nat, es: seq<Event>, s: State, c: Thread)
    requires Exec(Init(threads), es) == Some(s) && c < threads && OnlyConsumer(es, c)
    requires CanStep(s, c) && Consuming(s.pcs[c]) && Advance(s, c).pcs[c].Idle?
    ensures c < |s.began|
    ensures s.queue == [] || |Advance(s, c).handled| == s.began[c] + s.pcs[c].call.max
  {
    RunConsumer(threads, es, s, c);
    RunEmpty(threads, es, s);
    LastStep(s, c);
  }

  lemma LastStep(s: State, c: Thread)
    requires CanStep(s, c) && Consuming(s.pcs[c]) && Advance(s, c).pcs[c].Idle?
    ensures var pc := s.pcs[c];
            || (pc.LoopTested? && pc.empty)
            || (pc.WaitTested? && pc.call.count >= pc.call.max && Advance(s, c).handled == s.handled)
            || (pc.Handling? && pc.call.count + 1 >= pc.call.max && |Advance(s, c).handled| == |s.handled| + 1)
  {
    match s.pcs[c]
    case Waiting(_, _) => WaitNeverReturns(s, c);
    case Looping(_, _) =>
    case _ =>
  }

  lemma WaitNeverReturns(s: State, c: Thread)
    requires CanStep(s, c) && s.pcs[c].Waiting?
    ensures !Advance(s, c).pcs[c].Idle?
  {
  }

  /** Once wait has returned, and as long as the consumer has not popped, the queue is not empty; an Update that saw an
      item finds one when it pops. */
  lemma WaitReturnsNonEmpty(threads: nat, es: seq<Event>, s: State, c: Thread)
    requires Exec(Init(threads), es) == Some(s) && c < threads && OnlyConsumer(es, c)
    ensures c < |s.pcs| && (SawItem(s.pcs[c]) ==> s.queue != [])
  {
    RunConsumer(threads, es, s, c);
  }

  // ----- Lost wakeups

  /** Thread c tests in wait whether the queue is empty. */
  predicate Tests(s: State, e: Event, c: Thread) {
    e == Step(c) && c < |s.pcs| && s.pcs[c].Waiting? && s.pcs[c].wait.Test?
  }

  /** A notification falls between a test of thread c, which found the queue empty, and its going to sleep. */
  predicate Misses(s: State, e: Event, c: Thread) { e.NotifyOne? && c < |s.pcs| && InWindow(s.pcs[c]) }

  /** Which events of a run are such tests. */
  function TestsOf(threads: nat, es: seq<Event>, c: Thread): (r: seq<bool>)
    ensures |r| == |es|
  {
    if es == [] then []
    else
      var init, e := es[..|es| - 1], es[|es| - 1];
      TestsOf(threads, init, c) + [Exec(Init(threads), init).Some? && Tests(Exec(Init(threads), init).value, e, c)]
  }

  /** Which events of a run are such notifications. */
  function MissesOf(threads: nat, es: seq<Event>, c: Thread): (r: seq<bool>)
    ensures |r| == |es|
  {
    if es == [] then []
    else
      var init, e := es[..|es| - 1], es[|es| - 1];
      MissesOf(threads, init, c) + [Exec(Init(threads), init).Some? && Misses(Exec(Init(threads), init).value, e, c)]
  }

  /** At some place something is missed, and there is no test after it. */
  ghost predicate MissedForGood(misses: seq<bool>, tests: seq<bool>) {
    exists i :: 0 <= i < |misses| && misses[i] && forall j | i < j < |tests| :: !tests[j]
  }

  /** Some notification of the run fell between a test of thread c and its going to sleep, and c has not tested
      again. */
  ghost predicate WakeupLost(threads: nat, es: seq<Event>, c: Thread) {
    MissedForGood(MissesOf(threads, es, c), TestsOf(threads, es, c))
  }

  lemma MissedSnoc(misses: seq<bool>, tests: seq<bool>, miss: bool, test: bool)
    requires |misses| == |tests|
    ensures MissedForGood(misses + [miss], tests + [test]) <==> (MissedForGood(misses, tests) && !test) || miss
  {
    var n := |misses|;
    if i :| 0 <= i < n && misses[i] && forall j | i < j < n :: !tests[j] {
      assert (misses + [miss])[i];
      assert !test ==> forall j | i < j < n + 1 :: !(tests + [test])[j];
    }
    if miss { assert (misses + [miss])[n]; }
    if i :| 0 <= i < n + 1 && (misses + [miss])[i] && forall j | i < j < n + 1 :: !(tests + [test])[j] {
      if i < n {
        assert misses[i];
        forall j | i < j < n ensures !tests[j] { assert !(tests + [test])[j]; }
        assert !(tests + [test])[n];
      }
    }
  }

  lemma EventMisses(s: State, e: Event, c: Thread)
    requires Enabled(s, e) && c < |s.pcs|
    ensures var s' := Apply(s, e);
            && Shaped(s') && |s'.pcs| == |s.pcs|
            && s'.missed[c] == ((s.missed[c] && !Tests(s, e, c)) || Misses(s, e, c))
  {
    if e.Step? { StepMisses(s, e.t, c); }
  }

  lemma StepMisses(s: State, t: Thread, c: Thread)
    requires CanStep(s, t) && c < |s.pcs|
    ensures var s' := Advance(s, t);
            && Shaped(s') && |s'.pcs| == |s.pcs| && s'.missed[c] == (s.missed[c] && !Tests(s, Step(t), c))
  {
    match s.pcs[t]
    case Pushing(_, _) => PushMisses(s, t);
    case Waiting(_, _) => WaitMisses(s, t, c);
    case Looping(_, _) =>
    case _ =>
  }

  lemma PushMisses(s: State, t: Thread)
    requires CanStep(s, t) && s.pcs[t].Pushing?
    ensures var s' := Advance(s, t); Shaped(s') && |s'.pcs| == |s.pcs| && s'.missed == s.missed
  {
  }

  lemma WaitMisses(s: State, t: Thread, c: Thread)
    requires CanStep(s, t) && c < |s.pcs| && s.pcs[t].Waiting?
    ensures var s' := Advance(s, t);
            && Shaped(s') && |s'.pcs| == |s.pcs| && s'.missed[c] == (s.missed[c] && !(t == c && s.pcs[t].wait.Test?))
  {
  }

  /** The history is what the run says it is. */
  lemma {:induction false} MissedIsLost(threads: nat, es: seq<Event>, s: State, c: Thread)
    requires Exec(Init(threads), es) == Some(s) && c < threads
    ensures |s.pcs| == threads && Shaped(s) && (s.missed[c] <==> WakeupLost(threads, es, c))
  {
    if es != [] {
      var init, e := es[..|es| - 1], es[|es| - 1];
      var m := Exec(Init(threads), init).value;
      MissedIsLost(threads, init, m, c);
      EventMisses(m, e, c);
      MissedSnoc(MissesOf(threads, init, c), TestsOf(threads, init, c), Misses(m, e, c), Tests(m, e, c));
    }
  }

  /** A consumer asleep on a non-empty queue, with no notification on its way, is exactly one whose wakeup fell between
      its last test for emptiness and its going to sleep. */
  lemma SleepingOnItems(threads: nat, es: seq<Event>, s: State, c: Thread)
    requires Exec(Init(threads), es) == Some(s) && c < threads && OnlyConsumer(es, c)
    requires c < |s.pcs| && IsAsleep(s.pcs[c]) && !NotifyComing(s)
    ensures s.queue != [] <==> WakeupLost(threads, es, c)
  {
    RunConsumer(threads, es, s, c);
    MissedIsLost(threads, es, s, c);
  }

  /** Any later push wakes the sleeping consumer: its notification has nobody else to go to. */
  lemma NotifyWakes(threads: nat, es: seq<Event>, s: State, c: Thread, t: Thread, woken: Option<Thread>)
    requires Exec(Init(threads), es) == Some(s) && c < threads && OnlyConsumer(es, c)
    requires c < |s.pcs| && IsAsleep(s.pcs[c]) && Enabled(s, NotifyOne(t, woken))
    ensures woken == Some(c) && !IsAsleep(Apply(s, NotifyOne(t, woken)).pcs[c])
  {
    RunConsumer(threads, es, s, c);
  }
}
