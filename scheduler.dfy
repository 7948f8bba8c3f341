/**
 * The per-environment scheduler (`IsolateEnvironment::Scheduler`) as seen by
 * one thread holding its mutex: a Waiting/Running status flag and four FIFO
 * queues, plus the process-wide dispatch state it shares with every other
 * scheduler (`root_async`, `uv_ref_count`, the thread pool).
 *
 * The mutex itself is not modelled: every method here is the body of a
 * `Scheduler::Lock` member, which the source only calls with the mutex held.
 */
module Scheduling {
  import opened Base

  datatype Status = Waiting | Running

  /** The contents of the four queues, front of each queue first. */
  datatype Queues = Queues(
    tasks: seq<Runnable>,
    handleTasks: seq<Runnable>,
    interrupts: seq<Runnable>,
    syncInterrupts: seq<Runnable>)

  const EmptyQueues := Queues([], [], [], [])

  /** `uv_ref_count` is a `std::atomic<unsigned int>`: arithmetic modulo 2^32. */
  const UINT_MODULUS: nat := 0x1_0000_0000

  /** What the dispatch code asks of libuv and of the thread pool. */
  datatype LoopCall =
    | UvRef
    | UvUnref
    | UvAsyncSend
    | PoolExec(affinity: nat, isolate: IsolateId)

  /**
   * The process-wide statics of the scheduler: the count of outstanding
   * dispatches, the single `root_async.data` slot that hands the root
   * environment to the default thread, and the requests made of libuv and
   * of the thread pool, in order.
   */
  class DefaultLoop {
    var uvRefCount: nat
    var rootAsyncData: Option<IsolateId>
    var calls: seq<LoopCall>

    ghost predicate Valid()
      reads this
    {
      uvRefCount < UINT_MODULUS
    }

    /** `Scheduler::Init`: the async handle starts empty and unreferenced. */
    constructor Init()
      ensures Valid()
      ensures uvRefCount == 0 && rootAsyncData == None && calls == [UvUnref]
    {
      uvRefCount := 0;
      rootAsyncData := None;
      calls := [UvUnref];
    }

    /**
     * `++uv_ref_count`; the 0 -> 1 edge references the async handle so the
     * host loop stays alive. Only the default thread may take that edge.
     */
    method IncrementUvRef(onDefaultThread: bool)
      requires Valid()
      requires uvRefCount == 0 ==> onDefaultThread
      modifies this`uvRefCount, this`calls
      ensures Valid()
      ensures uvRefCount == (old(uvRefCount) + 1) % UINT_MODULUS
      ensures calls == old(calls) + if old(uvRefCount) == 0 then [UvRef] else []
    {
      uvRefCount := (uvRefCount + 1) % UINT_MODULUS;
      if uvRefCount == 1 {
        calls := calls + [UvRef];
      }
    }

    /**
     * `--uv_ref_count`; the 1 -> 0 edge unreferences the handle on the
     * default thread, and from any other thread wakes the default thread so
     * that it can do so itself.
     */
    method DecrementUvRef(onDefaultThread: bool)
      requires Valid()
      modifies this`uvRefCount, this`calls
      ensures Valid()
      ensures uvRefCount == (old(uvRefCount) + UINT_MODULUS - 1) % UINT_MODULUS
      ensures old(uvRefCount) != 1 ==> calls == old(calls)
      ensures old(uvRefCount) == 1 ==> calls == old(calls) + [if onDefaultThread then UvUnref else UvAsyncSend]
    {
      uvRefCount := (uvRefCount + UINT_MODULUS - 1) % UINT_MODULUS;
      if uvRefCount == 0 {
        if onDefaultThread {
          calls := calls + [UvUnref];
        } else {
          calls := calls + [UvAsyncSend];
        }
      }
    }
  }

  class Scheduler {
    var status: Status
    var tasks: seq<Runnable>
    var handleTasks: seq<Runnable>
    var interrupts: seq<Runnable>
    var syncInterrupts: seq<Runnable>
    var asyncWait: AsyncWait?
    const threadAffinity: nat

    function Contents(): Queues
      reads this
    {
      Queues(tasks, handleTasks, interrupts, syncInterrupts)
    }

    constructor (threadAffinity: nat)
      ensures status == Waiting && Contents() == EmptyQueues && asyncWait == null
      ensures this.threadAffinity == threadAffinity
    {
      status := Waiting;
      tasks, handleTasks, interrupts, syncInterrupts := [], [], [], [];
      asyncWait := null;
      this.threadAffinity := threadAffinity;
    }

    /** The end of an execution pass; the scheduler must be running. */
    method DoneRunning()
      requires status == Running
      modifies this`status
      ensures status == Waiting
    {
      status := Waiting;
    }

    method PushTask(task: Runnable)
      modifies this`tasks
      ensures tasks == old(tasks) + [task]
    {
      tasks := tasks + [task];
    }

    method PushHandleTask(handleTask: Runnable)
      modifies this`handleTasks
      ensures handleTasks == old(handleTasks) + [handleTask]
    {
      handleTasks := handleTasks + [handleTask];
    }

    method PushInterrupt(interrupt: Runnable)
      modifies this`interrupts
      ensures interrupts == old(interrupts) + [interrupt]
    {
      interrupts := interrupts + [interrupt];
    }

    method PushSyncInterrupt(interrupt: Runnable)
      modifies this`syncInterrupts
      ensures syncInterrupts == old(syncInterrupts) + [interrupt]
    {
      syncInterrupts := syncInterrupts + [interrupt];
    }

    /** Swaps the task queue out for an empty one and hands back what it held. */
    method TakeTasks() returns (taken: seq<Runnable>)
      modifies this`tasks
      ensures taken == old(tasks) && tasks == []
    {
      taken := tasks;
      tasks := [];
    }

    method TakeHandleTasks() returns (taken: seq<Runnable>)
      modifies this`handleTasks
      ensures taken == old(handleTasks) && handleTasks == []
    {
      taken := handleTasks;
      handleTasks := [];
    }

    method TakeInterrupts() returns (taken: seq<Runnable>)
      modifies this`interrupts
      ensures taken == old(interrupts) && interrupts == []
    {
      taken := interrupts;
      interrupts := [];
    }

    method TakeSyncInterrupts() returns (taken: seq<Runnable>)
      modifies this`syncInterrupts
      ensures taken == old(syncInterrupts) && syncInterrupts == []
    {
      taken := syncInterrupts;
      syncInterrupts := [];
    }

    /**
     * Dispatches the environment if, and only if, it is waiting: flips the
     * status to Running, counts one more outstanding dispatch, and hands the
     * environment either to the default thread (through the single
     * `root_async.data` slot, which must be empty) or to a pool worker.
     * On a running environment nothing changes: the worker already draining
     * the queues will see the new work.
     */
    method WakeIsolate(isRoot: bool, isolate: IsolateId, loop: DefaultLoop, onDefaultThread: bool) returns (woke: bool)
      requires loop.Valid()
      requires status == Waiting && loop.uvRefCount == 0 ==> onDefaultThread
      requires status == Waiting && isRoot ==> loop.rootAsyncData == None
      modifies this`status, loop
      ensures loop.Valid()
      ensures woke <==> old(status) == Waiting
      ensures status == Running
      ensures !woke ==> unchanged(loop)
      ensures woke ==> loop.uvRefCount == (old(loop.uvRefCount) + 1) % UINT_MODULUS
      ensures woke ==> loop.rootAsyncData == if isRoot then Some(isolate) else old(loop.rootAsyncData)
      ensures woke ==> loop.calls == old(loop.calls)
                                     + (if old(loop.uvRefCount) == 0 then [UvRef] else [])
                                     + [if isRoot then UvAsyncSend else PoolExec(threadAffinity, isolate)]
    {
      if status == Waiting {
        status := Running;
        loop.IncrementUvRef(onDefaultThread);
        if isRoot {
          loop.rootAsyncData := Some(isolate);
          loop.calls := loop.calls + [UvAsyncSend];
        } else {
          loop.calls := loop.calls + [PoolExec(threadAffinity, isolate)];
        }
        woke := true;
      } else {
        woke := false;
      }
    }
  }

  /**
   * A rendezvous on two independent signals: `ready` (the awaited resource
   * is available) and `done` (the result has been delivered). The waiter is
   * released only once both have arrived, in either order.
   */
  class AsyncWait {
    const scheduler: Scheduler
    var ready: bool
    var done: bool

    /** Registers itself as the scheduler's pending wait. */
    constructor (scheduler: Scheduler)
      modifies scheduler`asyncWait
      ensures this.scheduler == scheduler && scheduler.asyncWait == this
      ensures !ready && !done && !Released()
    {
      this.scheduler := scheduler;
      ready, done := false, false;
      new;
      scheduler.asyncWait := this;
    }

    /** The condition `Wait` blocks on. */
    predicate Released()
      reads this
    {
      ready && done
    }

    method Ready()
      modifies this`ready
      ensures ready
      ensures Released() <==> done
    {
      ready := true;
    }

    method Wake()
      modifies this`done
      ensures done
      ensures Released() <==> ready
    {
      done := true;
    }

    /** The destructor: the scheduler no longer has a pending wait. */
    method Dismiss()
      modifies scheduler`asyncWait
      ensures scheduler.asyncWait == null
    {
      scheduler.asyncWait := null;
    }
  }
}
