/** The thread-safe queue itself with the threads that use it: its fields, and one method per atomic step. */
module TsQueues {
  import opened Base
  import opened QueueModel
  import opened QueueTheorems

  /** std::mutex: only a thread that owns it may unlock it. */
  class Mutex {
    var owner: Option<Thread>

    constructor ()
      ensures owner == None
    {
      owner := None;
    }

    method Lock(t: Thread)
      requires owner == None
      modifies this
      ensures owner == Some(t)
    {
      owner := Some(t);
    }

    method Unlock(t: Thread)
      requires owner == Some(t)
      modifies this
      ensures owner == None
    {
      owner := None;
    }
  }

  class TsQueue {
    var pcs: seq<Pc>
    var deq: seq<Item>                // deqQueue
    const muxQueue: Mutex
    const muxBlocking: Mutex
    var handled: seq<Item>
    var fault: bool
    ghost var log: seq<Entry>
    ghost var asked: seq<seq<Item>>
    ghost var began: seq<nat>
    ghost var missed: seq<bool>

    /** The state of the model that the fields make up. */
    ghost function View(): State
      reads this, muxQueue, muxBlocking
    {
      State(pcs, deq, muxQueue.owner, muxBlocking.owner, handled, fault, log, asked, began, missed)
    }

    /** Two mutexes, and every unlock to come is by the owner. */
    ghost predicate Valid()
      reads this, muxQueue, muxBlocking
    {
      muxQueue != muxBlocking && Inv(View())
    }

    constructor (threads: nat)
      ensures fresh(muxQueue) && fresh(muxBlocking) && Valid() && View() == Init(threads)
    {
      pcs := seq(threads, i => Idle);
      deq, handled, fault := [], [], false;
      muxQueue := new Mutex();
      muxBlocking := new Mutex();
      log, asked, began, missed := [], seq(threads, i => []), seq(threads, i => 0), seq(threads, i => false);
      new;
      assert Exec(Init(threads), []) == Some(View());
      RunKept(threads, [], View());
    }

    /** push_back */
    method PushStep(t: Thread)
      requires Valid() && CanStep(View(), t) && pcs[t].Pushing?
      modifies this, muxQueue, muxBlocking
      ensures Valid() && View() == Advance(old(View()), t)
    {
      StepKept(View(), t);
      assert ThreadOk(View(), t);
      var item := pcs[t].item;
      match pcs[t].push {
        case LockQueue =>
          muxQueue.Lock(t);
          pcs := pcs[t := Pushing(item, Emplace)];
        case Emplace =>
          deq := deq + [item];
          log := log + [Entry(t, item)];
          pcs := pcs[t := Pushing(item, LockBlocking)];
        case LockBlocking =>
          muxBlocking.Lock(t);
          pcs := pcs[t := Pushing(item, Notify)];
        case UnlockBlocking =>
          muxBlocking.Unlock(t);
          pcs := pcs[t := Pushing(item, UnlockQueue)];
        case UnlockQueue =>
          muxQueue.Unlock(t);
          pcs := pcs[t := Idle];
      }
    }

    /** wait() up to the result of its test */
    method WaitStep(t: Thread)
      requires Valid() && CanStep(View(), t) && pcs[t].Waiting?
      modifies this, muxQueue, muxBlocking
      ensures Valid() && View() == Advance(old(View()), t)
    {
      StepKept(View(), t);
      assert ThreadOk(View(), t);
      var call := pcs[t].call;
      match pcs[t].wait {
        case LockTest =>
          muxQueue.Lock(t);
          pcs := pcs[t := Waiting(call, Test)];
        case Test =>
          missed := missed[t := false];
          pcs := pcs[t := WaitTested(call, deq == [])];
        case Block =>
          muxBlocking.Lock(t);
          pcs := pcs[t := Waiting(call, Sleep)];
        case Sleep =>
          muxBlocking.Unlock(t);
          pcs := pcs[t := Waiting(call, Asleep)];
        case Relock =>
          muxBlocking.Lock(t);
          pcs := pcs[t := Waiting(call, Leave)];
        case Leave =>
          muxBlocking.Unlock(t);
          pcs := pcs[t := Waiting(call, LockTest)];
      }
    }

    /** The loop of Update up to the result of its test, and its pop_front(). */
    method LoopStep(t: Thread)
      requires Valid() && CanStep(View(), t) && pcs[t].Looping?
      modifies this, muxQueue, muxBlocking
      ensures Valid() && View() == Advance(old(View()), t)
    {
      StepKept(View(), t);
      assert ThreadOk(View(), t);
      var call := pcs[t].call;
      match pcs[t].loop {
        case LockLoop =>
          muxQueue.Lock(t);
          pcs := pcs[t := Looping(call, LoopTest)];
        case LoopTest => pcs := pcs[t := LoopTested(call, deq == [])];
        case LockPop =>
          muxQueue.Lock(t);
          pcs := pcs[t := Looping(call, Pop)];
        case Pop =>
          if deq == [] {
            fault := true;
          } else {
            pcs := pcs[t := Popped(call, deq[0])];
            deq := deq[1..];
          }
      }
    }

    /** The releases of muxQueue, and the call of OnMessage. */
    method Step(t: Thread)
      requires Valid() && CanStep(View(), t)
      modifies this, muxQueue, muxBlocking
      ensures Valid() && View() == Advance(old(View()), t)
    {
      StepKept(View(), t);
      assert ThreadOk(View(), t);
      match pcs[t] {
        case Pushing(_, _) => PushStep(t);
        case Waiting(_, _) => WaitStep(t);
        case WaitTested(call, empty) =>
          muxQueue.Unlock(t);
          pcs := pcs[t := if empty then Waiting(call, Block) else Loop(call)];
        case Looping(_, _) => LoopStep(t);
        case LoopTested(call, empty) =>
          muxQueue.Unlock(t);
          pcs := pcs[t := if empty then Idle else Looping(call, LockPop)];
        case Popped(call, item) =>
          muxQueue.Unlock(t);
          pcs := pcs[t := Handling(call, item)];
        case Handling(call, item) =>
          handled := handled + [item];
          pcs := pcs[t := Loop(call.(count := call.count + 1))];
      }
    }

    /** notify_one() */
    method Signal(t: Thread, woken: Option<Thread>)
      requires Valid() && Enabled(View(), NotifyOne(t, woken))
      modifies this, muxQueue, muxBlocking
      ensures Valid() && View() == Apply(old(View()), NotifyOne(t, woken))
    {
      EventKept(View(), NotifyOne(t, woken));
      missed := Miss(View());
      var before := pcs;
      pcs := pcs[t := Pushing(pcs[t].item, UnlockBlocking)];
      if woken.Some? {
        pcs := pcs[woken.value := Waiting(before[woken.value].call, Relock)];
      }
    }

    /** A call by the program or a decision of the environment. */
    method Happen(e: Event)
      requires Valid() && Enabled(View(), e)
      modifies this, muxQueue, muxBlocking
      ensures Valid() && View() == Apply(old(View()), e)
    {
      EventKept(View(), e);
      match e {
        case CallPush(t, item) =>
          pcs := pcs[t := Pushing(item, LockQueue)];
          asked := asked[t := asked[t] + [item]];
        case CallUpdate(t, max, wait) =>
          var call := Call(max, wait, 0);
          pcs := pcs[t := if wait then Waiting(call, LockTest) else Loop(call)];
          began := began[t := |handled|];
        case Step(t) => Step(t);
        case NotifyOne(t, woken) => Signal(t, woken);
        case WakeSpuriously(t) => pcs := pcs[t := Waiting(pcs[t].call, Relock)];
      }
    }

    /** Runs the threads under any schedule; the queue ends where the model does. */
    method Run(schedule: seq<Event>)
      requires Valid() && Exec(View(), schedule).Some?
      modifies this, muxQueue, muxBlocking
      ensures Valid() && Exec(old(View()), schedule) == Some(View())
    {
      if schedule != [] {
        var init := schedule[..|schedule| - 1];
        Run(init);
        Happen(schedule[|schedule| - 1]);
      }
    }
  }
}
