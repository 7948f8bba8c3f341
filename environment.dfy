/**
 * `IsolateEnvironment`: one engine isolate with its scheduler, executor,
 * memory-limit bookkeeping and weak-callback table, as seen by the thread
 * that holds it. Calls into the engine are appended to `calls`; the work
 * items it runs are appended to `trace`, with their effects drawn from an
 * oracle (see module Drain). Heap statistics are parameters.
 */
module Environments {
  import opened Base
  import opened Scheduling
  import opened Memory
  import opened Drain
  import opened Timers

  /** The process-wide map from isolates to their environments (`isolate_map`). */
  class Registry {
    var isolateMap: map<IsolateId, Environment>

    constructor ()
      ensures isolateMap == map[]
    {
      isolateMap := map[];
    }

    /** `std::map::insert`: an isolate already present keeps its environment. */
    method Insert(isolate: IsolateId, env: Environment)
      modifies this
      ensures isolate in old(isolateMap) ==> isolateMap == old(isolateMap)
      ensures isolate !in old(isolateMap) ==> isolateMap == old(isolateMap)[isolate := env]
      ensures LookupIsolate(isolate) == Some(isolateMap[isolate].holder)
    {
      if isolate !in isolateMap {
        isolateMap := isolateMap[isolate := env];
      }
    }

    /** `erase(find(isolate))`: the isolate must be registered. */
    method Erase(isolate: IsolateId)
      requires isolate in isolateMap
      modifies this
      ensures isolateMap == old(isolateMap) - {isolate}
      ensures LookupIsolate(isolate) == None
    {
      isolateMap := isolateMap - {isolate};
    }

    /** `LookupIsolate`: the holder of the isolate's environment, if it is registered. */
    function LookupIsolate(isolate: IsolateId): (holder: Option<HolderId>)
      reads this
      ensures holder == None <==> isolate !in isolateMap
      ensures holder != None ==> holder.value == isolateMap[isolate].holder
    {
      if isolate in isolateMap then Some(isolateMap[isolate].holder) else None
    }
  }

  class Environment {
    const root: bool
    const isolate: IsolateId
    const holder: HolderId
    const scheduler: Scheduler
    const executor: Executor

    var memoryLimit: Size
    var miscMemorySize: Size
    var initialHeapSizeLimit: Size
    var extraAllocatedMemory: Size
    var terminated: bool
    var hitMemoryLimit: bool
    var didAdjustHeapLimit: bool
    var memoryPressure: PressureLevel
    var rejectedPromise: bool              // `rejected_promise_error` is not empty
    var weakPersistents: map<Handle, WeakCallback>
    var trace: seq<Runnable>
    var calls: seq<EngineCall>

    /** The state an execution pass reads and writes. */
    function Snapshot(): PassState
      reads this, scheduler
    {
      PassState(scheduler.status, scheduler.Contents(), hitMemoryLimit, memoryPressure, trace, calls)
    }

    /** The limits the GC callbacks read. */
    function Limits(): HeapLimits
      reads this
    {
      HeapLimits(memoryLimit, miscMemorySize, initialHeapSizeLimit)
    }

    /** The state the GC callbacks read and write. */
    function Gc(): GcState
      reads this
    {
      GcState(extraAllocatedMemory, didAdjustHeapLimit, memoryPressure, terminated, hitMemoryLimit, calls)
    }

    /**
     * The constructor of the default (root) environment: the thread that
     * runs it becomes the default thread, with this environment current.
     */
    constructor Root(isolate: IsolateId, holder: HolderId, threadAffinity: nat,
                     thread: ThreadState, registry: Registry)
      requires thread.currentEnv == None
      modifies thread`currentEnv, registry
      ensures root && this.isolate == isolate && this.holder == holder
      ensures fresh(scheduler) && fresh(executor) && executor.env == isolate
      ensures scheduler.status == Waiting && scheduler.Contents() == EmptyQueues
      ensures scheduler.threadAffinity == threadAffinity
      ensures thread.currentEnv == Some(isolate)
      ensures isolate in old(registry.isolateMap) ==> registry.isolateMap == old(registry.isolateMap)
      ensures isolate !in old(registry.isolateMap) ==> registry.isolateMap == old(registry.isolateMap)[isolate := this]
      ensures weakPersistents == map[] && trace == [] && calls == []
      ensures !terminated && !hitMemoryLimit && !didAdjustHeapLimit && memoryPressure == NoPressure
    {
      root := true;
      this.isolate := isolate;
      this.holder := holder;
      scheduler := new Scheduler(threadAffinity);
      executor := new Executor(isolate);
      memoryLimit, miscMemorySize, initialHeapSizeLimit, extraAllocatedMemory := 0, 0, 0, 0;
      terminated, hitMemoryLimit, didAdjustHeapLimit := false, false, false;
      memoryPressure := NoPressure;
      rejectedPromise := false;
      weakPersistents := map[];
      trace, calls := [], [];
      new;
      thread.currentEnv := Some(isolate);
      registry.Insert(isolate, this);
    }

    /**
     * The constructor of a sandboxed environment with a limit of
     * `memoryLimitInMb` MiB; `heapSizeLimit` is the limit the engine reports
     * for the new isolate. The memory limit and `misc_memory_size` add back
     * up to that engine limit.
     */
    constructor Sandboxed(memoryLimitInMb: Size, heapSizeLimit: Size, isolate: IsolateId, holder: HolderId,
                          threadAffinity: nat, registry: Registry)
      modifies registry
      ensures !root && this.isolate == isolate && this.holder == holder
      ensures fresh(scheduler) && fresh(executor) && executor.env == isolate
      ensures scheduler.status == Waiting && scheduler.Contents() == EmptyQueues
      ensures scheduler.threadAffinity == threadAffinity
      ensures memoryLimit == MemoryLimitBytes(memoryLimitInMb)
      ensures initialHeapSizeLimit == heapSizeLimit
      ensures SizeAdd(memoryLimit, miscMemorySize) == heapSizeLimit
      ensures isolate in old(registry.isolateMap) ==> registry.isolateMap == old(registry.isolateMap)
      ensures isolate !in old(registry.isolateMap) ==> registry.isolateMap == old(registry.isolateMap)[isolate := this]
      ensures weakPersistents == map[] && trace == [] && calls == [DiscardThreadSpecificMetadata]
      ensures !terminated && !hitMemoryLimit && !didAdjustHeapLimit && memoryPressure == NoPressure
    {
      root := false;
      this.isolate := isolate;
      this.holder := holder;
      scheduler := new Scheduler(threadAffinity);
      executor := new Executor(isolate);
      memoryLimit := MemoryLimitBytes(memoryLimitInMb);
      initialHeapSizeLimit := heapSizeLimit;
      miscMemorySize := MiscMemorySize(heapSizeLimit, MemoryLimitBytes(memoryLimitInMb));
      extraAllocatedMemory := 0;
      terminated, hitMemoryLimit, didAdjustHeapLimit := false, false, false;
      memoryPressure := NoPressure;
      rejectedPromise := false;
      weakPersistents := map[];
      trace := [];
      new;
      registry.Insert(isolate, this);
      calls := [DiscardThreadSpecificMetadata];
    }

    /** `Runnable::Run` for a work item whose execution has effect `e`. */
    method RunItem(x: Runnable, e: Effect)
      modifies this`hitMemoryLimit, this`memoryPressure, this`trace
      modifies scheduler`tasks, scheduler`handleTasks, scheduler`interrupts, scheduler`syncInterrupts
      ensures Snapshot() == Execute(old(Snapshot()), x, e)
    {
      scheduler.tasks := scheduler.tasks + e.push.tasks;
      scheduler.handleTasks := scheduler.handleTasks + e.push.handleTasks;
      scheduler.interrupts := scheduler.interrupts + e.push.interrupts;
      scheduler.syncInterrupts := scheduler.syncInterrupts + e.push.syncInterrupts;
      hitMemoryLimit := hitMemoryLimit || e.setsMemoryLimit;
      if e.pressure.Some? {
        memoryPressure := e.pressure.value;
      }
      trace := trace + [x];
    }

    /** `CheckMemoryPressure` (also the body of `MemoryPressureInterrupt`). */
    method CheckMemoryPressure()
      modifies this`memoryPressure, this`calls
      ensures Snapshot() == CheckPressure(old(Snapshot()))
      ensures memoryPressure == NoPressure
      ensures calls == old(calls) + if old(memoryPressure) == NoPressure then [] else [MemoryPressureNotification(old(memoryPressure))]
    {
      var pressure := memoryPressure;
      if pressure != NoPressure {
        memoryPressure := NoPressure;
        calls := calls + [MemoryPressureNotification(pressure)];
      }
    }

    /**
     * `AsyncEntry`: the pass a wake dispatches. Repeatedly takes the tasks,
     * handle tasks and interrupts and runs them, until a take finds all
     * three empty; returns at once, still Running, when a task leaves the
     * memory limit hit.
     */
    method AsyncEntry(effects: seq<Effect>)
      requires scheduler.status == Running
      modifies this`hitMemoryLimit, this`memoryPressure, this`trace, this`calls
      modifies scheduler`status, scheduler`tasks, scheduler`handleTasks, scheduler`interrupts, scheduler`syncInterrupts
      ensures Snapshot() == AsyncEntryPass(old(Snapshot()), NothingTaken, effects)
    {
      ghost var goal := AsyncEntryPass(Snapshot(), NothingTaken, effects);
      var effs := effects;
      while true
        invariant scheduler.status == Running
        invariant AsyncEntryPass(Snapshot(), NothingTaken, effs) == goal
        decreases |effs|, Pending(scheduler.Contents())
      {
        var tasks := scheduler.TakeTasks();
        var handleTasks := scheduler.TakeHandleTasks();
        var interrupts := scheduler.TakeInterrupts();
        if tasks == [] && handleTasks == [] && interrupts == [] {
          scheduler.DoneRunning();
          return;
        }
        var limitHit;
        effs, limitHit := RunRound(interrupts, handleTasks, tasks, effs);
        if limitHit {
          return;
        }
      }
    }

    /**
     * One round of `AsyncEntry`: the taken interrupts, then the handle
     * tasks, then the tasks, stopping after the first task that leaves the
     * memory limit hit and checking memory pressure after every other.
     */
    method RunRound(interrupts: seq<Runnable>, handleTasks: seq<Runnable>, tasks: seq<Runnable>, effects: seq<Effect>)
      returns (effs: seq<Effect>, limitHit: bool)
      requires scheduler.status == Running
      modifies this`hitMemoryLimit, this`memoryPressure, this`trace, this`calls
      modifies scheduler`tasks, scheduler`handleTasks, scheduler`interrupts, scheduler`syncInterrupts
      ensures limitHit ==> Snapshot() == AsyncEntryPass(old(Snapshot()), Taken(interrupts, handleTasks, tasks), effects)
      ensures !limitHit ==> AsyncEntryPass(Snapshot(), NothingTaken, effs)
                            == AsyncEntryPass(old(Snapshot()), Taken(interrupts, handleTasks, tasks), effects)
      ensures |effs| <= |effects|
      ensures |effs| == |effects| ==> Pending(scheduler.Contents()) == Pending(old(scheduler.Contents()))
    {
      ghost var goal := AsyncEntryPass(Snapshot(), Taken(interrupts, handleTasks, tasks), effects);
      ghost var pending := Pending(scheduler.Contents());
      var pendingInterrupts, pendingHandleTasks, pendingTasks := interrupts, handleTasks, tasks;
      effs := effects;
      while pendingInterrupts != []
        invariant AsyncEntryPass(Snapshot(), Taken(pendingInterrupts, pendingHandleTasks, pendingTasks), effs) == goal
        invariant |effs| <= |effects| && (|effs| == |effects| ==> Pending(scheduler.Contents()) == pending)
        decreases |effs|, |pendingInterrupts|
      {
        PassUnfolds(Snapshot(), Taken(pendingInterrupts, pendingHandleTasks, pendingTasks), effs);
        RunItem(pendingInterrupts[0], Next(effs));
        effs := Rest(effs);
        pendingInterrupts := pendingInterrupts[1..];
      }
      while pendingHandleTasks != []
        invariant pendingInterrupts == []
        invariant AsyncEntryPass(Snapshot(), Taken(pendingInterrupts, pendingHandleTasks, pendingTasks), effs) == goal
        invariant |effs| <= |effects| && (|effs| == |effects| ==> Pending(scheduler.Contents()) == pending)
        decreases |effs|, |pendingHandleTasks|
      {
        PassUnfolds(Snapshot(), Taken(pendingInterrupts, pendingHandleTasks, pendingTasks), effs);
        RunItem(pendingHandleTasks[0], Next(effs));
        effs := Rest(effs);
        pendingHandleTasks := pendingHandleTasks[1..];
      }
      while pendingTasks != []
        invariant pendingInterrupts == [] && pendingHandleTasks == []
        invariant AsyncEntryPass(Snapshot(), Taken(pendingInterrupts, pendingHandleTasks, pendingTasks), effs) == goal
        invariant |effs| <= |effects| && (|effs| == |effects| ==> Pending(scheduler.Contents()) == pending)
        decreases |effs|, |pendingTasks|
      {
        PassUnfolds(Snapshot(), Taken(pendingInterrupts, pendingHandleTasks, pendingTasks), effs);
        RunItem(pendingTasks[0], Next(effs));
        effs := Rest(effs);
        pendingTasks := pendingTasks[1..];
        if hitMemoryLimit {
          return effs, true;
        }
        CheckMemoryPressure();
      }
      limitHit := false;
    }

    /**
     * `InterruptEntry<Take>`: runs the selected interrupt queue, taking it
     * again after each batch, until a take comes back empty.
     */
    method InterruptEntry(which: InterruptQueue, effects: seq<Effect>)
      modifies this`hitMemoryLimit, this`memoryPressure, this`trace
      modifies scheduler`tasks, scheduler`handleTasks, scheduler`interrupts, scheduler`syncInterrupts
      ensures Snapshot() == InterruptEntryPass(old(Snapshot()), which, [], effects)
    {
      ghost var goal := InterruptEntryPass(Snapshot(), which, [], effects);
      var effs := effects;
      while true
        invariant InterruptEntryPass(Snapshot(), which, [], effs) == goal
        decreases |effs|, |Selected(scheduler.Contents(), which)|
      {
        ghost var e0 := |effs|;
        var interrupts;
        if which == AsyncInterrupts {
          interrupts := scheduler.TakeInterrupts();
        } else {
          interrupts := scheduler.TakeSyncInterrupts();
        }
        if interrupts == [] {
          return;
        }
        while interrupts != []
          invariant InterruptEntryPass(Snapshot(), which, interrupts, effs) == goal
          invariant |effs| <= e0 && (|effs| == e0 ==> Selected(scheduler.Contents(), which) == [])
          decreases |effs|, |interrupts|
        {
          RunItem(interrupts[0], Next(effs));
          effs := Rest(effs);
          interrupts := interrupts[1..];
        }
      }
    }

    /** `Scheduler::Lock::InterruptIsolate`: only while the environment is running. */
    method InterruptIsolate()
      requires scheduler.status == Running
      modifies this`calls
      ensures calls == old(calls) + [RequestInterrupt(AsyncCallbackInterrupt)]
    {
      calls := calls + [RequestInterrupt(AsyncCallbackInterrupt)];
    }

    /** `Scheduler::Lock::InterruptSyncIsolate`. */
    method InterruptSyncIsolate()
      modifies this`calls
      ensures calls == old(calls) + [RequestInterrupt(SyncCallbackInterrupt)]
    {
      calls := calls + [RequestInterrupt(SyncCallbackInterrupt)];
    }

    /** `Terminate`: stops the engine and releases the holder's reference; never on root. */
    method Terminate()
      requires !root
      modifies this`terminated, this`calls
      ensures Gc() == Terminated(old(Gc()))
      ensures terminated && calls == old(calls) + [TerminateExecution, ReleaseHolderIsolate]
    {
      terminated := true;
      calls := calls + [TerminateExecution, ReleaseHolderIsolate];
    }

    /**
     * `PromiseRejectCallback`: stores the value the engine passes with the
     * event, whatever the event, for `TaskEpilogue`. The value is empty for
     * some events (a handler added after the rejection), and storing it
     * then clears a pending rejection.
     */
    method PromiseRejected(valueIsEmpty: bool)
      modifies this`rejectedPromise
      ensures rejectedPromise == !valueIsEmpty
    {
      rejectedPromise := !valueIsEmpty;
    }

    /**
     * `AddWeakCallback`: registers a weak callback for a handle not yet
     * registered; a no-op on root.
     */
    method AddWeakCallback(handle: Handle, callback: WeakCallback) returns (outcome: Outcome)
      modifies this`weakPersistents
      ensures root ==> outcome == Pass && weakPersistents == old(weakPersistents)
      ensures !root && handle in old(weakPersistents) ==>
        outcome == Fail(LogicError("Weak callback already added")) && weakPersistents == old(weakPersistents)
      ensures !root && handle !in old(weakPersistents) ==>
        outcome == Pass && weakPersistents == old(weakPersistents)[handle := callback]
    {
      if root {
        return Pass;
      }
      if handle in weakPersistents {
        return Fail(LogicError("Weak callback already added"));
      }
      weakPersistents := weakPersistents[handle := callback];
      outcome := Pass;
    }

    /** `RemoveWeakCallback`: unregisters a registered handle; a no-op on root. */
    method RemoveWeakCallback(handle: Handle) returns (outcome: Outcome)
      modifies this`weakPersistents
      ensures root ==> outcome == Pass && weakPersistents == old(weakPersistents)
      ensures !root && handle !in old(weakPersistents) ==>
        outcome == Fail(LogicError("Weak callback doesn't exist")) && weakPersistents == old(weakPersistents)
      ensures !root && handle in old(weakPersistents) ==>
        outcome == Pass && weakPersistents == old(weakPersistents) - {handle}
    {
      if root {
        return Pass;
      }
      if handle !in weakPersistents {
        return Fail(LogicError("Weak callback doesn't exist"));
      }
      weakPersistents := weakPersistents - {handle};
      outcome := Pass;
    }

    /**
     * `TaskEpilogue`: runs the microtasks and delivers pending pressure; a
     * hit memory limit is reported before a rejected promise, which stays
     * pending in that case.
     */
    method TaskEpilogue() returns (outcome: Outcome)
      modifies this`calls, this`memoryPressure, this`rejectedPromise
      ensures memoryPressure == NoPressure && |calls| > |old(calls)|
      ensures var delivered := calls[..|old(calls)| + 1] + if old(memoryPressure) == NoPressure then [] else [MemoryPressureNotification(old(memoryPressure))];
        && calls[..|old(calls)| + 1] == old(calls) + [RunMicrotasks]
        && (hitMemoryLimit ==>
              outcome == Fail(FatalError(MEMORY_LIMIT_MESSAGE)) && calls == delivered && rejectedPromise == old(rejectedPromise))
        && (!hitMemoryLimit && old(rejectedPromise) ==>
              outcome == Fail(RuntimeError) && calls == delivered + [ThrowRejectedPromise] && !rejectedPromise)
        && (!hitMemoryLimit && !old(rejectedPromise) ==>
              outcome == Pass && calls == delivered && !rejectedPromise)
    {
      calls := calls + [RunMicrotasks];
      CheckMemoryPressure();
      if hitMemoryLimit {
        return Fail(FatalError(MEMORY_LIMIT_MESSAGE));
      }
      if rejectedPromise {
        calls := calls + [ThrowRejectedPromise];
        rejectedPromise := false;
        return Fail(RuntimeError);
      }
      outcome := Pass;
    }

    /**
     * `MarkSweepCompactEpilogue`, registered on sandboxed environments
     * only; `r` is what the heap statistics report to it, and `c` the forced
     * collection a critical request runs from inside it.
     */
    method MarkSweepCompactEpilogue(flags: GcFlags, r: GcReading, c: Collection)
      requires !root
      modifies this`extraAllocatedMemory, this`didAdjustHeapLimit, this`memoryPressure, this`terminated, this`hitMemoryLimit, this`calls
      ensures Gc() == GcEpilogue(old(Gc()), Limits(), flags, r, c)
      decreases GcRank(flags), 1
    {
      var totalMemory := SizeAdd(r.usedHeapSize, extraAllocatedMemory);
      var limit := SizeAdd(memoryLimit, miscMemorySize);
      match GcEpilogueAction(totalMemory, limit, flags, didAdjustHeapLimit)
      case TerminateIsolate =>
        Terminate();
        hitMemoryLimit := true;
      case RequestCritical =>
        RequestMemoryPressureNotification(Critical, true, false, c);
      case Relax(ratchet, moderate) =>
        if ratchet {
          calls := calls + [ReinstallNearHeapLimitCallback(memoryLimit)];
          if r.heapSizeLimit == initialHeapSizeLimit {
            didAdjustHeapLimit := false;
          }
        }
        if moderate {
          RequestMemoryPressureNotification(Moderate, true, false, c);
        }
      case NoAction =>
    }

    /**
     * `RequestMemoryPressureNotification`. A critical notification from
     * inside a GC runs the collection `c`: the allocator takes the buffers
     * it frees off `extra_allocated_memory` before the epilogue runs again.
     */
    method RequestMemoryPressureNotification(level: PressureLevel, isReentrantGc: bool, asInterrupt: bool, c: Collection)
      requires !root
      modifies this`extraAllocatedMemory, this`didAdjustHeapLimit, this`memoryPressure, this`terminated, this`hitMemoryLimit, this`calls
      ensures Gc() == PressureRequest(old(Gc()), Limits(), level, isReentrantGc, asInterrupt, c)
      decreases RequestRank(level, isReentrantGc, asInterrupt), 0
    {
      if asInterrupt {
        memoryPressure := level;
        calls := calls + [RequestInterrupt(MemoryPressureInterrupt)];
      } else {
        memoryPressure := NoPressure;
        calls := calls + [MemoryPressureNotification(level)];
        if isReentrantGc && level == Critical {
          extraAllocatedMemory := c.extraAllocatedMemory;
          MarkSweepCompactEpilogue(GcFlags(true, false), c.heap, c);
        }
      }
    }

    /**
     * `NearHeapLimitCallback`, registered on sandboxed environments only:
     * grants the engine another GiB of heap and asks, by interrupt, for a
     * pressure notification.
     */
    method NearHeapLimitCallback(currentHeapLimit: Size, r: GcReading) returns (newLimit: Size)
      requires !root
      modifies this`extraAllocatedMemory, this`didAdjustHeapLimit, this`memoryPressure, this`terminated, this`hitMemoryLimit, this`calls
      ensures Gc() == NearHeapLimit(old(Gc()), Limits(), r)
      ensures newLimit == NearHeapLimitGrant(currentHeapLimit)
    {
      didAdjustHeapLimit := true;
      var level := NearHeapLimitPressure(SizeAdd(r.usedHeapSize, extraAllocatedMemory),
                                         SizeAdd(memoryLimit, miscMemorySize));
      RequestMemoryPressureNotification(level, true, true, Collection(r, extraAllocatedMemory));
      newLimit := SizeAdd(currentHeapLimit, HEAP_GRANT);
    }

    /**
     * The destructor of a sandboxed environment (the root environment is
     * never torn down): invokes every weak callback in ascending handle
     * order, each callback unregistering its own handle; discards the four
     * queues; disposes of the isolate and unregisters it.
     */
    method Destroy(registry: Registry)
      requires !root ==> isolate in registry.isolateMap
      modifies this`weakPersistents, this`calls, registry
      modifies scheduler`tasks, scheduler`handleTasks, scheduler`interrupts, scheduler`syncInterrupts
      ensures root ==> && weakPersistents == old(weakPersistents) && calls == old(calls)
                       && scheduler.Contents() == old(scheduler.Contents()) && registry.isolateMap == old(registry.isolateMap)
      ensures !root ==> && weakPersistents == map[]
                        && scheduler.Contents() == EmptyQueues
                        && registry.isolateMap == old(registry.isolateMap) - {isolate}
      ensures !root ==> && |calls| > |old(calls)|
                        && calls[..|old(calls)|] == old(calls)
                        && calls[|calls| - 1] == DisposeIsolate
                        && WeakCallbacksInvoked(calls[|old(calls)|..|calls| - 1], old(weakPersistents))
    {
      if root {
        return;
      }
      ghost var invoked := InvokeWeakCallbacks();
      var interrupts := scheduler.TakeInterrupts();
      var syncInterrupts := scheduler.TakeSyncInterrupts();
      var handleTasks := scheduler.TakeHandleTasks();
      var tasks := scheduler.TakeTasks();
      calls := calls + [DisposeIsolate];
      registry.Erase(isolate);
      assert calls[|old(calls)|..|calls| - 1] == invoked;
    }

    /**
     * The destructor's walk over `weak_persistents`: invokes each callback
     * in ascending handle order; each callback unregisters its own handle.
     */
    method InvokeWeakCallbacks() returns (ghost invoked: seq<EngineCall>)
      modifies this`weakPersistents, this`calls
      ensures weakPersistents == map[]
      ensures calls == old(calls) + invoked
      ensures WeakCallbacksInvoked(invoked, old(weakPersistents))
    {
      ghost var table := weakPersistents;
      invoked := [];
      while weakPersistents != map[]
        invariant forall h :: h in weakPersistents ==> h in table && weakPersistents[h] == table[h]
        invariant calls == old(calls) + invoked
        invariant WeakCallbacksInvokedSoFar(invoked, table, weakPersistents)
        decreases |weakPersistents.Keys|
      {
        ghost var least := LeastHandle(weakPersistents.Keys);
        var handle :| handle in weakPersistents && forall h :: h in weakPersistents ==> handle <= h;
        var callback := weakPersistents[handle];
        InvocationStep(invoked, table, weakPersistents, handle);
        calls := calls + [InvokeWeakCallback(handle, callback)];
        invoked := invoked + [InvokeWeakCallback(handle, callback)];
        weakPersistents := weakPersistents - {handle};
      }
    }
  }

  /** Invoking the least remaining handle keeps `WeakCallbacksInvokedSoFar`. */
  lemma InvocationStep(invoked: seq<EngineCall>, table: map<Handle, WeakCallback>,
                       remaining: map<Handle, WeakCallback>, handle: Handle)
    requires WeakCallbacksInvokedSoFar(invoked, table, remaining)
    requires forall h :: h in remaining ==> h in table && remaining[h] == table[h]
    requires handle in remaining && forall h :: h in remaining ==> handle <= h
    ensures WeakCallbacksInvokedSoFar(invoked + [InvokeWeakCallback(handle, remaining[handle])], table, remaining - {handle})
  {
    var invoked' := invoked + [InvokeWeakCallback(handle, remaining[handle])];
    var remaining' := remaining - {handle};
    forall h | h in table && h !in remaining'
      ensures InvokeWeakCallback(h, table[h]) in invoked'
    {
      if h == handle {
        assert invoked'[|invoked|] == InvokeWeakCallback(h, table[h]);
      } else {
        assert InvokeWeakCallback(h, table[h]) in invoked;
      }
    }
  }


  /**
   * `invoked` is the weak-callback invocations made so far, in strictly
   * ascending handle order, of exactly the entries of `table` no longer in
   * `remaining`, all of which precede the handles still remaining.
   */
  ghost predicate WeakCallbacksInvokedSoFar(invoked: seq<EngineCall>, table: map<Handle, WeakCallback>,
                                            remaining: map<Handle, WeakCallback>)
  {
    && (forall i :: 0 <= i < |invoked| ==>
          invoked[i].InvokeWeakCallback? && invoked[i].handle in table && invoked[i].handle !in remaining
          && invoked[i].weak == table[invoked[i].handle])
    && (forall i, j :: 0 <= i < j < |invoked| ==> invoked[i].handle < invoked[j].handle)
    && (forall h :: h in table && h !in remaining ==> InvokeWeakCallback(h, table[h]) in invoked)
    && (forall i, h :: 0 <= i < |invoked| && h in remaining ==> invoked[i].handle < h)
  }

  /** Every entry of `table` invoked exactly once, in ascending handle order. */
  ghost predicate WeakCallbacksInvoked(invoked: seq<EngineCall>, table: map<Handle, WeakCallback>)
  {
    && (forall i :: 0 <= i < |invoked| ==>
          invoked[i].InvokeWeakCallback? && invoked[i].handle in table && invoked[i].weak == table[invoked[i].handle])
    && (forall i, j :: 0 <= i < j < |invoked| ==> invoked[i].handle < invoked[j].handle)
    && (forall h :: h in table ==> InvokeWeakCallback(h, table[h]) in invoked)
  }

  /** A non-empty set of handles has a least element (the first in `std::map` order). */
  lemma {:induction false} LeastHandle(handles: set<Handle>) returns (least: Handle)
    requires handles != {}
    ensures least in handles && forall h :: h in handles ==> least <= h
    decreases |handles|
  {
    var x :| x in handles;
    var rest := handles - {x};
    if rest == {} {
      assert handles == {x};
      return x;
    }
    var m := LeastHandle(rest);
    least := if x < m then x else m;
    assert handles == rest + {x};
  }

  /**
   * `HeapCheck`: brackets an operation that may allocate. Remembers the
   * external memory at the start; the epilogue checks the heap when forced
   * or when external memory changed, and terminates the environment when it
   * is over the limit even after a low-memory notification.
   */
  class HeapCheck {
    const env: Environment
    const extraSizeBefore: Size
    const force: bool

    constructor (env: Environment, force: bool)
      ensures this.env == env && this.force == force
      ensures extraSizeBefore == env.extraAllocatedMemory
    {
      this.env := env;
      this.force := force;
      extraSizeBefore := env.extraAllocatedMemory;
    }

    /**
     * `used` is the used heap size the engine reports at the check, and
     * `usedAfterNotification` what it reports after the low-memory
     * notification; `extraAfterNotification` is the external memory left
     * once the collection that notification runs has freed what it could.
     */
    method Epilogue(used: Size, usedAfterNotification: Size, extraAfterNotification: Size) returns (outcome: Outcome)
      modifies env`calls, env`hitMemoryLimit, env`terminated, env`extraAllocatedMemory
      ensures var v := HeapCheckVerdict(env.root, force, extraSizeBefore, old(env.extraAllocatedMemory),
                                        used, usedAfterNotification, extraAfterNotification, env.memoryLimit);
        && env.extraAllocatedMemory == (if v in {RecoveredAfterLowMemory, LimitExceeded} then extraAfterNotification
                                        else old(env.extraAllocatedMemory))
        && (outcome != Pass <==> v == LimitExceeded)
        && (v == LimitExceeded ==> && outcome == Fail(FatalError(MEMORY_LIMIT_MESSAGE))
                                   && env.hitMemoryLimit && env.terminated
                                   && env.calls == old(env.calls) + [LowMemoryNotification, TerminateExecution, ReleaseHolderIsolate])
        && (v == RecoveredAfterLowMemory ==> && env.calls == old(env.calls) + [LowMemoryNotification]
                                             && env.hitMemoryLimit == old(env.hitMemoryLimit)
                                             && env.terminated == old(env.terminated))
        && (v in {Unchecked, WithinLimit} ==> && env.calls == old(env.calls)
                                              && env.hitMemoryLimit == old(env.hitMemoryLimit)
                                              && env.terminated == old(env.terminated))
    {
      var verdict := HeapCheckVerdict(env.root, force, extraSizeBefore, env.extraAllocatedMemory,
                                      used, usedAfterNotification, extraAfterNotification, env.memoryLimit);
      if verdict == RecoveredAfterLowMemory || verdict == LimitExceeded {
        env.calls := env.calls + [LowMemoryNotification];
        env.extraAllocatedMemory := extraAfterNotification;
      }
      if verdict == LimitExceeded {
        env.hitMemoryLimit := true;
        env.Terminate();
        return Fail(FatalError(MEMORY_LIMIT_MESSAGE));
      }
      outcome := Pass;
    }
  }

  /**
   * `AsyncCallbackNonDefaultIsolate`: a pool thread runs the woken
   * environment's pass, then counts the dispatch done; the last one out
   * wakes the default thread so that it can unreference the async handle.
   * `poolThread` is false when the pool ran the callback on the calling
   * thread, which then discards the engine's thread-specific data.
   */
  method AsyncCallbackNonDefaultIsolate(env: Environment, loop: DefaultLoop, poolThread: bool, effects: seq<Effect>)
    requires env.scheduler.status == Running && loop.Valid()
    modifies env`hitMemoryLimit, env`memoryPressure, env`trace, env`calls
    modifies env.scheduler`status, env.scheduler`tasks, env.scheduler`handleTasks, env.scheduler`interrupts, env.scheduler`syncInterrupts
    modifies loop`uvRefCount, loop`calls
    ensures var pass := AsyncEntryPass(old(env.Snapshot()), NothingTaken, effects);
      env.Snapshot() == pass.(calls := pass.calls + if poolThread then [] else [DiscardThreadSpecificMetadata])
    ensures loop.Valid() && loop.uvRefCount == (old(loop.uvRefCount) + UINT_MODULUS - 1) % UINT_MODULUS
    ensures loop.calls == old(loop.calls) + if old(loop.uvRefCount) == 1 then [UvAsyncSend] else []
  {
    env.AsyncEntry(effects);
    if !poolThread {
      env.calls := env.calls + [DiscardThreadSpecificMetadata];
    }
    loop.DecrementUvRef(false);
  }

  /**
   * `AsyncCallbackDefaultIsolate`: on the default thread, empties the
   * `root_async.data` slot; a filled slot holds the root environment, whose
   * pass runs before the dispatch is counted done. An empty slot is the
   * wakeup of the last pool callback: unreference the handle if nothing is
   * outstanding.
   */
  method AsyncCallbackDefaultIsolate(rootEnv: Environment, loop: DefaultLoop, effects: seq<Effect>)
    requires rootEnv.root && loop.Valid()
    requires loop.rootAsyncData != None ==> loop.rootAsyncData.value == rootEnv.isolate && rootEnv.scheduler.status == Running
    modifies rootEnv`hitMemoryLimit, rootEnv`memoryPressure, rootEnv`trace, rootEnv`calls
    modifies rootEnv.scheduler`status, rootEnv.scheduler`tasks, rootEnv.scheduler`handleTasks, rootEnv.scheduler`interrupts, rootEnv.scheduler`syncInterrupts
    modifies loop
    ensures loop.Valid() && loop.rootAsyncData == None
    ensures old(loop.rootAsyncData) == None ==>
              && loop.uvRefCount == old(loop.uvRefCount)
              && loop.calls == old(loop.calls) + (if loop.uvRefCount == 0 then [UvUnref] else [])
              && rootEnv.Snapshot() == old(rootEnv.Snapshot())
    ensures old(loop.rootAsyncData) != None ==>
              && rootEnv.Snapshot() == AsyncEntryPass(old(rootEnv.Snapshot()), NothingTaken, effects)
              && loop.uvRefCount == (old(loop.uvRefCount) + UINT_MODULUS - 1) % UINT_MODULUS
              && loop.calls == old(loop.calls) + if old(loop.uvRefCount) == 1 then [UvUnref] else []
  {
    var data := loop.rootAsyncData;
    loop.rootAsyncData := None;
    if data == None {
      if loop.uvRefCount == 0 {
        loop.calls := loop.calls + [UvUnref];
      }
    } else {
      rootEnv.AsyncEntry(effects);
      loop.DecrementUvRef(true);
    }
  }

  /**
   * A task that rejects a promise, and possibly attaches a handler to it
   * later, followed by the task epilogue: the rejection is thrown exactly
   * when no handler came, unless the memory limit was hit, which is
   * reported instead and leaves the rejection pending.
   */
  method RejectionThenTaskEpilogue(env: Environment, handledLater: bool) returns (outcome: Outcome)
    modifies env`rejectedPromise, env`calls, env`memoryPressure
    ensures env.hitMemoryLimit ==> outcome == Fail(FatalError(MEMORY_LIMIT_MESSAGE)) && env.rejectedPromise == !handledLater
    ensures !env.hitMemoryLimit ==> outcome == (if handledLater then Pass else Fail(RuntimeError)) && !env.rejectedPromise
  {
    env.PromiseRejected(false);
    if handledLater {
      env.PromiseRejected(true);
    }
    outcome := env.TaskEpilogue();
  }
}
