/**
 The thread-safe queue of incoming messages and the server's Update loop on it, at the grain of lock acquisitions,
 releases, queue accesses and condition variable operations.  Any thread may push; any thread may call Update.
 */
module QueueModel {
  import opened Base

  type Thread = nat

  /** A message in the queue, with the connection it came from. */
  datatype Item = Item(owner: nat, payload: int)

  /** A push as it took effect: who pushed what. */
  datatype Entry = Entry(t: Thread, item: Item)

  /** The arguments of Update and its local nMessageCount. */
  datatype Call = Call(max: nat, wait: bool, count: nat)

  datatype PushAt = LockQueue | Emplace | LockBlocking | Notify | UnlockBlocking | UnlockQueue
  datatype WaitAt = LockTest | Test | Block | Sleep | Asleep | Relock | Leave
  datatype LoopAt = LockLoop | LoopTest | LockPop | Pop

  datatype Pc =
    | Idle
    | Pushing(item: Item, push: PushAt)
    | Waiting(call: Call, wait: WaitAt)
    | WaitTested(call: Call, empty: bool)   // empty() is about to release muxQueue
    | Looping(call: Call, loop: LoopAt)
    | LoopTested(call: Call, empty: bool)
    | Popped(call: Call, item: Item)        // pop_front() is about to release muxQueue
    | Handling(call: Call, item: Item)      // about to call OnMessage

  /** `fault` records a pop from an empty deque. The rest is history: the pushes in the order they took effect, what
      each thread was asked to push, the number of handled messages when a thread's Update began, and whether a
      notification has fallen into the window between a thread's last test for emptiness and its going to sleep. */
  datatype State = State(
    pcs: seq<Pc>,
    queue: seq<Item>,
    muxQueue: Option<Thread>,
    muxBlocking: Option<Thread>,
    handled: seq<Item>,
    fault: bool,
    log: seq<Entry>,
    asked: seq<seq<Item>>,
    began: seq<nat>,
    missed: seq<bool>)

  datatype Event =
    | CallPush(t: Thread, item: Item)
    | CallUpdate(t: Thread, max: nat, wait: bool)
    | Step(t: Thread)
    | NotifyOne(t: Thread, woken: Option<Thread>)
    | WakeSpuriously(t: Thread)

  function Init(threads: nat): State {
    State(seq(threads, i => Idle), [], None, None, [], false, [], seq(threads, i => []), seq(threads, i => 0),
          seq(threads, i => false))
  }

  predicate HoldsQueue(pc: Pc) {
    || (pc.Pushing? && !pc.push.LockQueue?)
    || (pc.Waiting? && pc.wait.Test?) || pc.WaitTested?
    || (pc.Looping? && (pc.loop.LoopTest? || pc.loop.Pop?)) || pc.LoopTested? || pc.Popped?
  }

  predicate HoldsBlocking(pc: Pc) {
    || (pc.Pushing? && (pc.push.Notify? || pc.push.UnlockBlocking?))
    || (pc.Waiting? && (pc.wait.Sleep? || pc.wait.Leave?))
  }

  predicate WantsQueue(pc: Pc) {
    || (pc.Pushing? && pc.push.LockQueue?) || (pc.Waiting? && pc.wait.LockTest?)
    || (pc.Looping? && (pc.loop.LockLoop? || pc.loop.LockPop?))
  }

  predicate WantsBlocking(pc: Pc) {
    (pc.Pushing? && pc.push.LockBlocking?) || (pc.Waiting? && (pc.wait.Block? || pc.wait.Relock?))
  }

  predicate IsAsleep(pc: Pc) { pc.Waiting? && pc.wait.Asleep? }

  /** Between a test that found the queue empty and the sleep it leads to. */
  predicate InWindow(pc: Pc) { (pc.WaitTested? && pc.empty) || (pc.Waiting? && (pc.wait.Block? || pc.wait.Sleep?)) }

  /** The thread is in Update. */
  predicate Consuming(pc: Pc) { !pc.Idle? && !pc.Pushing? }

  predicate Shaped(s: State) { |s.asked| == |s.began| == |s.missed| == |s.pcs| }

  predicate Blocked(s: State, t: Thread)
    requires t < |s.pcs|
  {
    (WantsQueue(s.pcs[t]) && s.muxQueue.Some?) || (WantsBlocking(s.pcs[t]) && s.muxBlocking.Some?)
  }

  predicate CanStep(s: State, t: Thread) {
    && Shaped(s) && t < |s.pcs|
    && !s.pcs[t].Idle? && !IsAsleep(s.pcs[t]) && !(s.pcs[t].Pushing? && s.pcs[t].push.Notify?)
    && !Blocked(s, t)
  }

  predicate Enabled(s: State, e: Event) {
    && Shaped(s)
    && match e
       case CallPush(t, _) => t < |s.pcs| && s.pcs[t].Idle?
       case CallUpdate(t, _, _) => t < |s.pcs| && s.pcs[t].Idle?
       case Step(t) => CanStep(s, t)
       case NotifyOne(t, woken) =>
         // notify_one wakes one of the threads that wait, if there is any.
         && t < |s.pcs| && s.pcs[t].Pushing? && s.pcs[t].push.Notify?
         && (match woken
             case Some(u) => u < |s.pcs| && IsAsleep(s.pcs[u])
             case None => forall u | 0 <= u < |s.pcs| :: !IsAsleep(s.pcs[u]))
       case WakeSpuriously(t) => t < |s.pcs| && IsAsleep(s.pcs[t])
  }

  function To(s: State, t: Thread, pc: Pc): State
    requires t < |s.pcs|
  {
    s.(pcs := s.pcs[t := pc])
  }

  /** push_back, apart from the notification */
  function AdvancePush(s: State, t: Thread): State
    requires Shaped(s) && t < |s.pcs| && s.pcs[t].Pushing?
  {
    var item := s.pcs[t].item;
    match s.pcs[t].push
    case LockQueue => To(s, t, Pushing(item, Emplace)).(muxQueue := Some(t))
    case Emplace => To(s, t, Pushing(item, LockBlocking)).(queue := s.queue + [item], log := s.log + [Entry(t, item)])
    case LockBlocking => To(s, t, Pushing(item, Notify)).(muxBlocking := Some(t))
    case Notify => s
    case UnlockBlocking => To(s, t, Pushing(item, UnlockQueue)).(muxBlocking := None)
    case UnlockQueue => To(s, t, Idle).(muxQueue := None)
  }

  /** wait() */
  function AdvanceWait(s: State, t: Thread): State
    requires Shaped(s) && t < |s.pcs| && s.pcs[t].Waiting?
  {
    var call := s.pcs[t].call;
    match s.pcs[t].wait
    case LockTest => To(s, t, Waiting(call, Test)).(muxQueue := Some(t))
    case Test => To(s, t, WaitTested(call, s.queue == [])).(missed := s.missed[t := false])
    case Block => To(s, t, Waiting(call, Sleep)).(muxBlocking := Some(t))
    case Sleep => To(s, t, Waiting(call, Asleep)).(muxBlocking := None)
    case Asleep => s
    case Relock => To(s, t, Waiting(call, Leave)).(muxBlocking := Some(t))
    case Leave => To(s, t, Waiting(call, LockTest)).(muxBlocking := None)
  }

  /** The head of Update's loop: return when the budget is used up. */
  function Loop(call: Call): Pc { if call.count < call.max then Looping(call, LockLoop) else Idle }

  /** The loop of Update */
  function AdvanceLoop(s: State, t: Thread): State
    requires Shaped(s) && t < |s.pcs| && s.pcs[t].Looping?
  {
    var call := s.pcs[t].call;
    match s.pcs[t].loop
    case LockLoop => To(s, t, Looping(call, LoopTest)).(muxQueue := Some(t))
    case LoopTest => To(s, t, LoopTested(call, s.queue == []))
    case LockPop => To(s, t, Looping(call, Pop)).(muxQueue := Some(t))
    case Pop =>
      if s.queue == [] then s.(fault := true)
      else To(s, t, Popped(call, s.queue[0])).(queue := s.queue[1..])
  }

  function Advance(s: State, t: Thread): State
    requires Shaped(s) && t < |s.pcs|
  {
    match s.pcs[t]
    case Idle => s
    case Pushing(_, _) => AdvancePush(s, t)
    case Waiting(_, _) => AdvanceWait(s, t)
    case WaitTested(call, empty) => To(s, t, if empty then Waiting(call, Block) else Loop(call)).(muxQueue := None)
    case Looping(_, _) => AdvanceLoop(s, t)
    case LoopTested(call, empty) => To(s, t, if empty then Idle else Looping(call, LockPop)).(muxQueue := None)
    case Popped(call, item) => To(s, t, Handling(call, item)).(muxQueue := None)
    case Handling(call, item) =>
      To(s, t, Loop(call.(count := call.count + 1))).(handled := s.handled + [item])
  }

  /** Every thread that is about to go to sleep misses this notification. */
  function Miss(s: State): seq<bool>
    requires Shaped(s)
  {
    seq(|s.pcs|, i requires 0 <= i < |s.pcs| => s.missed[i] || InWindow(s.pcs[i]))
  }

  function ApplyNotify(s: State, t: Thread, woken: Option<Thread>): State
    requires Shaped(s) && t < |s.pcs| && s.pcs[t].Pushing?
    requires woken.Some? ==> woken.value < |s.pcs| && s.pcs[woken.value].Waiting?
  {
    var s' := s.(pcs := s.pcs[t := Pushing(s.pcs[t].item, UnlockBlocking)], missed := Miss(s));
    match woken
    case None => s'
    case Some(u) => s'.(pcs := s'.pcs[u := Waiting(s.pcs[u].call, Relock)])
  }

  function Apply(s: State, e: Event): State
    requires Enabled(s, e)
  {
    match e
    case CallPush(t, item) => To(s, t, Pushing(item, LockQueue)).(asked := s.asked[t := s.asked[t] + [item]])
    case CallUpdate(t, max, wait) =>
      var call := Call(max, wait, 0);
      To(s, t, if wait then Waiting(call, LockTest) else Loop(call)).(began := s.began[t := |s.handled|])
    case Step(t) => Advance(s, t)
    case NotifyOne(t, woken) => ApplyNotify(s, t, woken)
    case WakeSpuriously(t) => To(s, t, Waiting(s.pcs[t].call, Relock))
  }

  /** The state after a run, or nothing if some event of the run could not happen. */
  function Exec(s: State, es: seq<Event>): Option<State> {
    if es == [] then Some(s)
    else
      match Exec(s, es[..|es| - 1])
      case None => None
      case Some(m) => if Enabled(m, es[|es| - 1]) then Some(Apply(m, es[|es| - 1])) else None
  }
}
