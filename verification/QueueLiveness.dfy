/** Calls of the queue come to an end: every push returns, and every Update returns or goes to sleep. */
module QueueLiveness {
  import opened Base
  import opened QueueModel
  import opened QueueTheorems

  /** More than the steps that handling one message takes. */
  const ITEM: nat := 12

  /** A bound on the steps of a thread's call, but for those of the loop of Update, which the messages pay for. */
  function Rank(pc: Pc): nat {
    match pc
    case Idle => 0
    case Pushing(_, at) => PushRank(at)
    case Waiting(_, at) => WaitRank(at)
    case WaitTested(_, _) => 6
    case Looping(_, at) => LoopRank(at)
    case LoopTested(_, _) => 2
    case Popped(_, _) => 6
    case Handling(_, _) => 5
  }

  function PushRank(at: PushAt): nat {
    match at
    case LockQueue => 16 + ITEM
    case Emplace => 15 + ITEM
    case LockBlocking => 14
    case Notify => 13
    case UnlockBlocking => 2
    case UnlockQueue => 1
  }

  function WaitRank(at: WaitAt): nat {
    match at
    case Relock => 10
    case Leave => 9
    case LockTest => 8
    case Test => 7
    case Block => 3
    case Sleep => 2
    case Asleep => 0
  }

  function LoopRank(at: LoopAt): nat {
    match at
    case LockLoop => 4
    case LoopTest => 3
    case LockPop => 1
    case Pop => 0
  }

  function Ranks(pcs: seq<Pc>): seq<nat> { seq(|pcs|, i requires 0 <= i < |pcs| => Rank(pcs[i])) }

  function Measure(s: State): nat { Sum(Ranks(s.pcs)) + ITEM * |s.queue| }

  lemma RanksMove(pcs: seq<Pc>, t: Thread, pc: Pc)
    requires t < |pcs|
    ensures Sum(Ranks(pcs[t := pc])) == Sum(Ranks(pcs)) - Rank(pcs[t]) + Rank(pc)
  {
    SumUpdate(Ranks(pcs), t, Rank(pc));
    assert Ranks(pcs[t := pc]) == Ranks(pcs)[t := Rank(pc)];
  }

  /** What a step of thread t costs. */
  predicate Costs(s: State, t: Thread, s': State) {
    && t < |s.pcs| == |s'.pcs| && s'.pcs == s.pcs[t := s'.pcs[t]]
    && Rank(s'.pcs[t]) + ITEM * |s'.queue| < Rank(s.pcs[t]) + ITEM * |s.queue|
  }

  lemma PushCosts(s: State, t: Thread)
    requires CanStep(s, t) && s.pcs[t].Pushing?
    ensures Costs(s, t, Advance(s, t))
  {
  }

  lemma WaitCosts(s: State, t: Thread)
    requires CanStep(s, t) && s.pcs[t].Waiting?
    ensures Costs(s, t, Advance(s, t))
  {
  }

  lemma LoopCosts(s: State, t: Thread)
    requires CanStep(s, t) && s.pcs[t].Looping? && (s.pcs[t].loop.Pop? ==> s.queue != [])
    ensures Costs(s, t, Advance(s, t))
  {
  }

  lemma StepCosts(s: State, t: Thread)
    requires CanStep(s, t) && (s.pcs[t].Looping? && s.pcs[t].loop.Pop? ==> s.queue != [])
    ensures Costs(s, t, Advance(s, t))
  {
    match s.pcs[t]
    case Pushing(_, _) => PushCosts(s, t);
    case Waiting(_, _) => WaitCosts(s, t);
    case Looping(_, _) => LoopCosts(s, t);
    case _ =>
  }

  lemma NotifyCosts(s: State, t: Thread, woken: Option<Thread>, s': State)
    requires Enabled(s, NotifyOne(t, woken)) && s' == ApplyNotify(s, t, woken)
    ensures Measure(s') < Measure(s)
  {
    var pcs := s.pcs[t := Pushing(s.pcs[t].item, UnlockBlocking)];
    RanksMove(s.pcs, t, pcs[t]);
    if woken.Some? { RanksMove(pcs, woken.value, Waiting(s.pcs[woken.value].call, Relock)); }
  }

  lemma OwnStepCosts(s: State, e: Event, c: Thread)
    requires ConsumerOk(s, c) && Enabled(s, e) && OwnStep(e)
    ensures Measure(Apply(s, e)) < Measure(s)
  {
    match e
    case Step(t) =>
      StepCosts(s, t);
      RanksMove(s.pcs, t, Advance(s, t).pcs[t]);
    case NotifyOne(t, woken) => NotifyCosts(s, t, woken, Apply(s, e));
  }

  lemma {:induction false} ExecAppend(s: State, es: seq<Event>, fs: seq<Event>)
    ensures Exec(s, es + fs) == match Exec(s, es) case None => None case Some(m) => Exec(m, fs)
  {
    if fs == [] {
      assert es + fs == es;
    } else {
      ExecAppend(s, es, fs[..|fs| - 1]);
      assert (es + fs)[..|es + fs| - 1] == es + fs[..|fs| - 1];
    }
  }

  predicate AllOwn(fs: seq<Event>) { forall i | 0 <= i < |fs| :: OwnStep(fs[i]) }

  /** With one consumer, a run without new calls and spurious wakeups is no longer than the measure of the state it
      starts from: no call goes round for ever. */
  lemma {:induction false} RunsEnd(threads: nat, es: seq<Event>, s: State, c: Thread, fs: seq<Event>, z: State)
    requires Exec(Init(threads), es) == Some(s) && c < threads && OnlyConsumer(es, c)
    requires AllOwn(fs) && Exec(s, fs) == Some(z)
    ensures |fs| + Measure(z) <= Measure(s)
  {
    if fs != [] {
      var init, e := fs[..|fs| - 1], fs[|fs| - 1];
      var m := Exec(s, init).value;
      RunsEnd(threads, es, s, c, init, m);
      ExecAppend(Init(threads), es, init);
      assert forall i | 0 <= i < |init| :: init[i] == fs[i];
      RunConsumer(threads, es + init, m, c);
      OwnStepCosts(m, e, c);
    }
  }

  /** No thread's code has a step left to take. */
  ghost predicate AtRest(s: State) { forall e: Event :: OwnStep(e) ==> !Enabled(s, e) }

  /** The state of rest is reached by letting the threads run, in whatever order. */
  lemma {:induction false} RunToRest(threads: nat, es: seq<Event>, s: State, c: Thread)
    returns (fs: seq<Event>, z: State)
    requires Exec(Init(threads), es) == Some(s) && c < threads && OnlyConsumer(es, c)
    ensures AllOwn(fs) && Exec(s, fs) == Some(z) && AtRest(z)
    decreases Measure(s)
  {
    if AtRest(s) {
      fs, z := [], s;
    } else {
      var e: Event :| OwnStep(e) && Enabled(s, e);
      RunConsumer(threads, es, s, c);
      OwnStepCosts(s, e, c);
      assert (es + [e])[..|es|] == es;
      var gs;
      gs, z := RunToRest(threads, es + [e], Apply(s, e), c);
      assert Exec(s, [e]) == Some(Apply(s, e)) by { assert [e][..0] == []; }
      ExecAppend(s, [e], gs);
      fs := [e] + gs;
    }
  }

  /** At rest every push has taken effect and returned, and the consumer has returned or sleeps. */
  lemma RestIsDone(threads: nat, es: seq<Event>, s: State, c: Thread, t: Thread)
    requires Exec(Init(threads), es) == Some(s) && c < threads && OnlyConsumer(es, c) && AtRest(s) && t < |s.pcs|
    ensures |s.asked| == |s.pcs| && s.asked[t] == PushedBy(s.log, t)
    ensures s.pcs[t].Idle? || (t == c && IsAsleep(s.pcs[t]))
  {
    RunConsumer(threads, es, s, c);
    assert ThreadOk(s, t);
    if !s.pcs[t].Idle? && !IsAsleep(s.pcs[t]) { NoDeadlock(threads, es, s, t); }
  }
}
