/** Runs that show where the guarantees of the queue end: a lost wakeup, and two consumers popping one item. */
module QueueTraces {
  import opened Base
  import opened QueueModel
  import opened QueueTheorems

  lemma Go(s: State, es: seq<Event>, m: State, e: Event, m': State, cs: set<Thread>) returns (fs: seq<Event>)
    requires Exec(s, es) == Some(m) && Enabled(m, e) && Apply(m, e) == m'
    requires OnlyCallers(es, cs) && (e.CallUpdate? ==> e.t in cs)
    ensures Exec(s, fs) == Some(m') && OnlyCallers(fs, cs)
  {
    fs := es + [e];
    assert fs[..|es|] == es;
  }

  // ----- A push without interruption

  /** No mutex is held, nobody sleeps, and thread p is idle. */
  predicate Quiet(s: State, p: Thread) {
    && Shaped(s) && p < |s.pcs| && s.pcs[p].Idle? && s.muxQueue.None? && s.muxBlocking.None?
    && forall t | 0 <= t < |s.pcs| :: !IsAsleep(s.pcs[t])
  }

  /** Thread p is pushing x and has put it into the queue. */
  function Emplaced(s: State, p: Thread, x: Item, at: PushAt, b: Option<Thread>, missed: seq<bool>): State
    requires Shaped(s) && p < |s.pcs|
  {
    s.(pcs := s.pcs[p := Pushing(x, at)], queue := s.queue + [x], muxQueue := Some(p), muxBlocking := b,
       log := s.log + [Entry(p, x)], asked := s.asked[p := s.asked[p] + [x]], missed := missed)
  }

  /** Thread p has pushed x and is idle again; those about to go to sleep have missed it. */
  function Pushed(s: State, p: Thread, x: Item): State
    requires Shaped(s) && p < |s.pcs|
  {
    s.(queue := s.queue + [x], log := s.log + [Entry(p, x)], asked := s.asked[p := s.asked[p] + [x]],
       missed := Miss(s))
  }

  lemma PushStarts(i: State, es0: seq<Event>, s: State, p: Thread, x: Item, cs: set<Thread>) returns (es: seq<Event>)
    requires Exec(i, es0) == Some(s) && OnlyCallers(es0, cs) && Quiet(s, p)
    ensures Exec(i, es) == Some(Emplaced(s, p, x, LockBlocking, None, s.missed)) && OnlyCallers(es, cs)
  {
    var s1 := s.(pcs := s.pcs[p := Pushing(x, LockQueue)], asked := s.asked[p := s.asked[p] + [x]]);
    var s2 := s1.(pcs := s.pcs[p := Pushing(x, Emplace)], muxQueue := Some(p));
    var s3 := Emplaced(s, p, x, LockBlocking, None, s.missed);
    es := Go(i, es0, s, CallPush(p, x), s1, cs);
    assert s1.pcs[p := Pushing(x, Emplace)] == s2.pcs && s2.pcs[p := Pushing(x, LockBlocking)] == s3.pcs;
    es := Go(i, es, s1, Step(p), s2, cs);
    es := Go(i, es, s2, Step(p), s3, cs);
  }

  lemma PushNotifies(i: State, es0: seq<Event>, s: State, p: Thread, x: Item, cs: set<Thread>) returns (es: seq<Event>)
    requires Exec(i, es0) == Some(s) && OnlyCallers(es0, cs) && Quiet(s, p)
    ensures Exec(i, es) == Some(Emplaced(s, p, x, UnlockBlocking, Some(p), Miss(s))) && OnlyCallers(es, cs)
  {
    var s3 := Emplaced(s, p, x, LockBlocking, None, s.missed);
    var s4 := Emplaced(s, p, x, Notify, Some(p), s.missed);
    var s5 := Emplaced(s, p, x, UnlockBlocking, Some(p), Miss(s));
    es := PushStarts(i, es0, s, p, x, cs);
    assert s3.pcs[p := Pushing(x, Notify)] == s4.pcs && s4.pcs[p := Pushing(x, UnlockBlocking)] == s5.pcs;
    es := Go(i, es, s3, Step(p), s4, cs);
    assert Miss(s4) == Miss(s);
    es := Go(i, es, s4, NotifyOne(p, None), s5, cs);
  }

  lemma PushEnds(i: State, es0: seq<Event>, s: State, p: Thread, x: Item, cs: set<Thread>) returns (es: seq<Event>)
    requires Exec(i, es0) == Some(s) && OnlyCallers(es0, cs) && Quiet(s, p)
    ensures Exec(i, es) == Some(Pushed(s, p, x)) && OnlyCallers(es, cs)
  {
    var s5 := Emplaced(s, p, x, UnlockBlocking, Some(p), Miss(s));
    var s6 := Emplaced(s, p, x, UnlockQueue, None, Miss(s));
    var s7 := Pushed(s, p, x);
    es := PushNotifies(i, es0, s, p, x, cs);
    assert s5.pcs[p := Pushing(x, UnlockQueue)] == s6.pcs && s6.pcs[p := Idle] == s7.pcs;
    es := Go(i, es, s5, Step(p), s6, cs);
    es := Go(i, es, s6, Step(p), s7, cs);
  }

  // ----- A lost wakeup

  /** Nothing has been pushed; all threads are idle but thread c. */
  function Alone(threads: nat, c: Thread, pc: Pc, q: Option<Thread>): State
    requires c < threads
  {
    Init(threads).(pcs := Init(threads).pcs[c := pc], muxQueue := q)
  }

  lemma AloneMove(threads: nat, c: Thread, pc: Pc, q: Option<Thread>, next: Pc)
    requires c < threads
    ensures var s := Alone(threads, c, pc, q);
            s.pcs[c := next] == Alone(threads, c, next, q).pcs && s.began[c := 0] == s.began
            && s.missed[c := false] == s.missed
  {
  }

  lemma StartsWaiting(threads: nat, c: Thread, call: Call) returns (es: seq<Event>)
    requires c < threads && call.wait && call.count == 0
    ensures Exec(Init(threads), es) == Some(Alone(threads, c, Waiting(call, Test), Some(c))) && OnlyConsumer(es, c)
  {
    var i := Init(threads);
    var s1 := Alone(threads, c, Waiting(call, LockTest), None);
    assert i.began[c := 0] == i.began;
    es := Go(i, [], i, CallUpdate(c, call.max, true), s1, {c});
    AloneMove(threads, c, Waiting(call, LockTest), None, Waiting(call, Test));
    es := Go(i, es, s1, Step(c), Alone(threads, c, Waiting(call, Test), Some(c)), {c});
  }

  /** Thread c has found the queue empty in wait, and is about to take muxBlocking. */
  lemma TestedEmpty(threads: nat, c: Thread, call: Call) returns (es: seq<Event>)
    requires c < threads && call.wait && call.count == 0
    ensures Exec(Init(threads), es) == Some(Alone(threads, c, Waiting(call, Block), None)) && OnlyConsumer(es, c)
  {
    var i := Init(threads);
    var s2 := Alone(threads, c, Waiting(call, Test), Some(c));
    var s3 := Alone(threads, c, WaitTested(call, true), Some(c));
    es := StartsWaiting(threads, c, call);
    AloneMove(threads, c, Waiting(call, Test), Some(c), WaitTested(call, true));
    es := Go(i, es, s2, Step(c), s3, {c});
    AloneMove(threads, c, WaitTested(call, true), Some(c), Waiting(call, Block));
    es := Go(i, es, s3, Step(c), Alone(threads, c, Waiting(call, Block), None), {c});
  }

  lemma FallsAsleep(i: State, es0: seq<Event>, s: State, c: Thread, cs: set<Thread>) returns (es: seq<Event>)
    requires Exec(i, es0) == Some(s) && OnlyCallers(es0, cs) && Shaped(s) && s.muxBlocking.None?
    requires c < |s.pcs| && s.pcs[c].Waiting? && s.pcs[c].wait.Block?
    ensures Exec(i, es) == Some(s.(pcs := s.pcs[c := Waiting(s.pcs[c].call, Asleep)])) && OnlyCallers(es, cs)
  {
    var call := s.pcs[c].call;
    var s1 := s.(pcs := s.pcs[c := Waiting(call, Sleep)], muxBlocking := Some(c));
    var s2 := s.(pcs := s.pcs[c := Waiting(call, Asleep)]);
    assert s1.pcs[c := Waiting(call, Asleep)] == s2.pcs;
    es := Go(i, es0, s, Step(c), s1, cs);
    es := Go(i, es, s1, Step(c), s2, cs);
  }

  /** A wakeup can be lost, whichever thread c consumes and whichever other thread p pushes whatever item: the only
      consumer sleeps on a non-empty queue, and no thread's code has a step left to take. */
  lemma WakeupCanBeLost(threads: nat, c: Thread, p: Thread, x: Item, max: nat) returns (es: seq<Event>, s: State)
    requires c < threads && p < threads && p != c
    ensures Exec(Init(threads), es) == Some(s) && OnlyConsumer(es, c)
    ensures s.queue == [x] && |s.pcs| == threads && IsAsleep(s.pcs[c])
    ensures forall e: Event :: OwnStep(e) ==> !Enabled(s, e)
  {
    var call := Call(max, true, 0);
    var m := Alone(threads, c, Waiting(call, Block), None);
    es := TestedEmpty(threads, c, call);
    es := PushEnds(Init(threads), es, m, p, x, {c});
    es := FallsAsleep(Init(threads), es, Pushed(m, p, x), c, {c});
    s := Pushed(m, p, x).(pcs := m.pcs[c := Waiting(call, Asleep)]);
  }

  // ----- Two consumers

  const X := Item(7, 42)

  const ONE_CALL := Call(5, false, 0)

  /** X is all there is in the queue, and nobody holds muxQueue. */
  predicate HoldsX(s: State) { Shaped(s) && s.queue == [X] && s.handled == [] && s.muxQueue.None? }

  /** Thread t, which was idle, has found X in Update. */
  function Found(s: State, t: Thread): State
    requires Shaped(s) && t < |s.pcs|
  {
    s.(pcs := s.pcs[t := Looping(ONE_CALL, LockPop)], began := s.began[t := 0])
  }

  /** Thread t calls Update and tests the queue. */
  lemma TestX(i: State, es0: seq<Event>, s: State, t: Thread, cs: set<Thread>) returns (es: seq<Event>)
    requires Exec(i, es0) == Some(s) && OnlyCallers(es0, cs) && t in cs
    requires HoldsX(s) && t < |s.pcs| && s.pcs[t].Idle?
    ensures Exec(i, es) ==
            Some(s.(pcs := s.pcs[t := LoopTested(ONE_CALL, false)], muxQueue := Some(t), began := s.began[t := 0]))
    ensures OnlyCallers(es, cs)
  {
    var s1 := s.(pcs := s.pcs[t := Looping(ONE_CALL, LockLoop)], began := s.began[t := 0]);
    var s2 := s1.(pcs := s.pcs[t := Looping(ONE_CALL, LoopTest)], muxQueue := Some(t));
    es := Go(i, es0, s, CallUpdate(t, 5, false), s1, cs);
    assert s1.pcs[t := Looping(ONE_CALL, LoopTest)] == s2.pcs;
    es := Go(i, es, s1, Step(t), s2, cs);
    var s3 := s2.(pcs := s.pcs[t := LoopTested(ONE_CALL, false)]);
    assert s2.pcs[t := LoopTested(ONE_CALL, false)] == s3.pcs;
    es := Go(i, es, s2, Step(t), s3, cs);
  }

  /** ... and releases muxQueue. */
  lemma FindX(i: State, es0: seq<Event>, s: State, t: Thread, cs: set<Thread>) returns (es: seq<Event>)
    requires Exec(i, es0) == Some(s) && OnlyCallers(es0, cs) && t in cs
    requires HoldsX(s) && t < |s.pcs| && s.pcs[t].Idle?
    ensures Exec(i, es) == Some(Found(s, t)) && OnlyCallers(es, cs)
  {
    es := TestX(i, es0, s, t, cs);
    var s3 := s.(pcs := s.pcs[t := LoopTested(ONE_CALL, false)], muxQueue := Some(t), began := s.began[t := 0]);
    assert s3.pcs[t := Looping(ONE_CALL, LockPop)] == Found(s, t).pcs;
    es := Go(i, es, s3, Step(t), Found(s, t), cs);
  }

  /** Thread t, having found X, takes it. */
  lemma TakeX(i: State, es0: seq<Event>, s: State, t: Thread, cs: set<Thread>) returns (es: seq<Event>)
    requires Exec(i, es0) == Some(s) && OnlyCallers(es0, cs)
    requires HoldsX(s) && t < |s.pcs| && s.pcs[t] == Looping(ONE_CALL, LockPop)
    ensures Exec(i, es) == Some(s.(pcs := s.pcs[t := Handling(ONE_CALL, X)], queue := [])) && OnlyCallers(es, cs)
  {
    var s1 := s.(pcs := s.pcs[t := Looping(ONE_CALL, Pop)], muxQueue := Some(t));
    var s2 := s.(pcs := s.pcs[t := Popped(ONE_CALL, X)], muxQueue := Some(t), queue := []);
    var s3 := s.(pcs := s.pcs[t := Handling(ONE_CALL, X)], queue := []);
    es := Go(i, es0, s, Step(t), s1, cs);
    assert s1.pcs[t := Popped(ONE_CALL, X)] == s2.pcs && s2.pcs[t := Handling(ONE_CALL, X)] == s3.pcs;
    es := Go(i, es, s1, Step(t), s2, cs);
    es := Go(i, es, s2, Step(t), s3, cs);
  }

  /** The pop of thread t, which had found an item, meets an empty queue. */
  lemma PopEmpty(i: State, es0: seq<Event>, s: State, t: Thread, cs: set<Thread>) returns (es: seq<Event>, d: State)
    requires Exec(i, es0) == Some(s) && OnlyCallers(es0, cs)
    requires Shaped(s) && t < |s.pcs| && s.pcs[t] == Looping(ONE_CALL, LockPop)
    requires s.queue == [] && s.muxQueue.None?
    ensures Exec(i, es) == Some(d) && d.fault && OnlyCallers(es, cs)
  {
    var s1 := s.(pcs := s.pcs[t := Looping(ONE_CALL, Pop)], muxQueue := Some(t));
    es := Go(i, es0, s, Step(t), s1, cs);
    d := s1.(fault := true);
    es := Go(i, es, s1, Step(t), d, cs);
  }

  /** With any two threads in Update, out of any number, the test and the pop can be separated: both find the one item,
      and the second pops from an empty queue. */
  lemma TwoConsumersPopEmpty(threads: nat, a: Thread, b: Thread) returns (es: seq<Event>, s: State)
    requires a < threads && b < threads && a != b
    ensures Exec(Init(threads), es) == Some(s) && s.fault && OnlyCallers(es, {a, b})
  {
    var i, cs := Init(threads), {a, b};
    var s0 := Pushed(i, a, X);
    var s1 := Found(s0, a);
    var s2 := Found(s1, b);
    es := PushEnds(i, [], i, a, X, cs);
    es := FindX(i, es, s0, a, cs);
    es := FindX(i, es, s1, b, cs);
    es := TakeX(i, es, s2, a, cs);
    es, s := PopEmpty(i, es, s2.(pcs := s2.pcs[a := Handling(ONE_CALL, X)], queue := []), b, cs);
  }

  /** In no run in which only these threads call Update is anything popped from an empty queue. */
  ghost predicate NeverFaults(threads: nat, cs: set<Thread>) {
    forall es, s | Exec(Init(threads), es) == Some(s) && OnlyCallers(es, cs) :: !s.fault
  }

  lemma {:induction false} NoThreadNoFault(es: seq<Event>, s: State)
    requires Exec(Init(0), es) == Some(s)
    ensures s == Init(0)
  {
    if es != [] { NoThreadNoFault(es[..|es| - 1], Exec(Init(0), es[..|es| - 1]).value); }
  }

  lemma AtMostOneIs(cs: set<Thread>, c: Thread)
    requires |cs| <= 1 && c in cs
    ensures cs == {c}
  {
    assert |cs - {c}| == 0;
  }

  lemma OneNeverFaults(threads: nat, cs: set<Thread>, es: seq<Event>, s: State)
    requires |cs| <= 1 && (forall t | t in cs :: t < threads)
    requires Exec(Init(threads), es) == Some(s) && OnlyCallers(es, cs)
    ensures !s.fault
  {
    if threads == 0 {
      NoThreadNoFault(es, s);
    } else {
      var c: Thread := 0;
      if d :| d in cs {
        AtMostOneIs(cs, d);
        c := d;
      }
      RunConsumer(threads, es, s, c);
    }
  }

  /** One consumer is needed, and is enough: the threads that may call Update can do so safely if and only if there is
      at most one of them. */
  lemma OneConsumerIff(threads: nat, cs: set<Thread>)
    requires forall t | t in cs :: t < threads
    ensures NeverFaults(threads, cs) <==> |cs| <= 1
  {
    if |cs| <= 1 {
      forall es, s | Exec(Init(threads), es) == Some(s) && OnlyCallers(es, cs) ensures !s.fault {
        OneNeverFaults(threads, cs, es, s);
      }
    } else {
      var a :| a in cs;
      assert |cs - {a}| == |cs| - 1;
      var b :| b in cs - {a};
      var es, s := TwoConsumersPopEmpty(threads, a, b);
      assert OnlyCallers(es, cs);
    }
  }
}
