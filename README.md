# isolated-vm isolate environment, one thread's view

This project models `IsolateEnvironment` from isolated-vm (`src/isolate/environment.cc`) in Dafny. It takes the point of view of a single thread: mutexes are taken as held, `thread_local` variables are the fields of a `ThreadState` object, and clocks and heap statistics are parameters. Calls into the V8 engine and into libuv or the thread pool are not performed. They are appended to logs (`Environment.calls`, `DefaultLoop.calls`) so that contracts can state which calls are made and in what order.

The work items an environment runs are foreign code. Each item is an abstract identifier, and running one appends it to `Environment.trace`. Its effect comes from an oracle, a sequence of `Effect`s consumed one per item executed. An effect may push more work onto any of the four queues, set `hit_memory_limit`, and set the pending memory-pressure level: a request made as an interrupt leaves its level pending, and one delivered at once (from a GC the item triggers) clears it. Once the oracle is exhausted, items have no effect.

Modules, one per file:

- `Base` (base.dfy): identities, errors, pressure levels and the engine-call log entries.
- `Scheduling` (scheduler.dfy): `Scheduler::Lock` (status flag and four FIFO queues), the process-wide dispatch statics (`uv_ref_count`, `root_async.data`) as `DefaultLoop`, and `AsyncWait`.
- `Drain` (drain.dfy): what an execution pass computes, as functions of the state it starts from (`AsyncEntryPass`, `InterruptEntryPass`), and the lemmas about them.
- `Memory` (memory.dfy): the `size_t` arithmetic and the memory-limit decisions (heap check, GC epilogue, near-heap-limit callback, pressure requests) as functions, and their lemmas.
- `Timers` (timers.dfy): `Executor`, `CpuTimer`, `WallTimer`, `Executor::Scope`, `Executor::Lock`, `Executor::Unlock` and `UnpauseScope` as classes over an integer clock.
- `Environments` (environment.dfy): the `IsolateEnvironment` class, `HeapCheck`, the isolate registry and the two async dispatch callbacks.

The imperative methods are proved against the functions. For example:

- `Environment.AsyncEntry` ends in exactly the state `AsyncEntryPass` computes.
- `MarkSweepCompactEpilogue` ends in exactly the state `GcEpilogue` computes.

The source's promises are then proved as lemmas about those functions.

Two behaviours of the code are kept as written, although a reader might expect otherwise:

- `AsyncEntry` takes and drains only `tasks`, `handle_tasks` and `interrupts`. It never takes `sync_interrupts`, and it calls `DoneRunning` when those three are empty, even if synchronous interrupts are queued.
- The heap-limit ratchet in the GC epilogue runs whenever usage is within the limit and the GC was not a collect-all pass. It is not gated on usage being under 80%, and it clears `did_adjust_heap_limit` only when the engine reports its initial heap size limit again.

The code's debug assertions are preconditions here, on the member that models the asserting code:

- `CpuTimer` construction and `Resume` need the executor's CPU-timer slot empty (lines 64 and 91), and `Stop` and `Pause` need it to hold this timer (lines 72 and 83);
- `Executor::Init` needs no current environment on the thread (line 158), in `Environment.Root`;
- the 0 to 1 edge of `IncrementUvRef` happens only on the default thread (line 207);
- waking the root environment needs the `root_async.data` slot empty (line 319), in `WakeIsolate`;
- `DoneRunning` (line 266) and `InterruptIsolate` (line 332) need a Running scheduler;
- `Terminate` needs a non-root environment (line 765).

## Model

| member | source | states |
|---|---|---|
| Scheduling.DefaultLoop.Init | src/isolate/environment.cc:187-192 | the async handle starts with an empty data slot and is unreferenced, with no dispatch outstanding |
| Scheduling.DefaultLoop.IncrementUvRef | src/isolate/environment.cc:204-210 | the count grows by one modulo 2^32; only the 0 to 1 edge references the handle, and only the default thread may take it |
| Scheduling.DefaultLoop.DecrementUvRef | src/isolate/environment.cc:212-220 | the count drops by one modulo 2^32; only the 1 to 0 edge acts: unref on the default thread, an async send from any other |
| Scheduling.Scheduler.constructor | src/isolate/environment.cc:184 | a new scheduler is Waiting with four empty queues |
| Scheduling.Scheduler.DoneRunning | src/isolate/environment.cc:265-268 | requires Running, ends Waiting, changes nothing else |
| Scheduling.Scheduler.PushTask | src/isolate/environment.cc:270-272 | appends to the task queue only |
| Scheduling.Scheduler.PushHandleTask | src/isolate/environment.cc:274-276 | appends to the handle-task queue only |
| Scheduling.Scheduler.PushInterrupt | src/isolate/environment.cc:278-280 | appends to the interrupt queue only |
| Scheduling.Scheduler.PushSyncInterrupt | src/isolate/environment.cc:282-284 | appends to the synchronous-interrupt queue only |
| Scheduling.Scheduler.TakeTasks | src/isolate/environment.cc:286-290 | returns the queue's prior contents in FIFO order and leaves it empty; the other queues are outside its frame |
| Scheduling.Scheduler.TakeHandleTasks | src/isolate/environment.cc:292-296 | the same for the handle tasks |
| Scheduling.Scheduler.TakeInterrupts | src/isolate/environment.cc:298-302 | the same for the interrupts |
| Scheduling.Scheduler.TakeSyncInterrupts | src/isolate/environment.cc:304-308 | the same for the synchronous interrupts |
| Scheduling.Scheduler.WakeIsolate | src/isolate/environment.cc:310-329 | returns true exactly when the scheduler was Waiting; the result is always Running; a wake counts one more dispatch and hands the environment to the default thread (filling the empty root slot) or to a pool worker with the scheduler's affinity; on a running scheduler the loop state is unchanged |
| Scheduling.AsyncWait.constructor | src/isolate/environment.cc:341-344 | registers itself as the scheduler's pending wait, neither ready nor done |
| Scheduling.AsyncWait.Ready | src/isolate/environment.cc:351-357 | sets ready; the waiter is released exactly when done was already set |
| Scheduling.AsyncWait.Wake | src/isolate/environment.cc:366-372 | sets done; the waiter is released exactly when ready was already set |
| Scheduling.AsyncWait.Dismiss | src/isolate/environment.cc:346-349 | the scheduler no longer has a pending wait |
| Drain.AsyncEntryPassExtends | src/isolate/environment.cc:533-570 | a pass only appends to the trace and the engine calls, and the synchronous-interrupt queue only grows |
| Drain.AsyncEntryPassOutcome | src/isolate/environment.cc:539-546 | a pass started Running ends Waiting only with the three drained queues empty, and ends still Running only with the memory limit hit |
| Drain.AsyncEntryPassRunsRoundInOrder | src/isolate/environment.cc:549-569 | within a round, the taken interrupts, then handle tasks, then tasks run in FIFO order as long as no item hits the limit |
| Drain.AsyncEntryPassStopsOnlyOnLimit | src/isolate/environment.cc:533-570 | a pass that ends still Running started with the limit hit or ran an item whose effect set it |
| Drain.RoundStopsAtFirstLimitHit | src/isolate/environment.cc:549-569 | when the first item of a round to set the limit is its j-th task, the round runs its interrupts, its handle tasks and exactly its first j + 1 tasks, and the pass stops there with the environment still Running |
| Drain.AsyncEntryFirstRoundOrder | src/isolate/environment.cc:537-569 | the first round runs the queues as they were at the start, in priority order |
| Drain.AsyncEntryPassRunsEverything | src/isolate/environment.cc:533-570 | a pass ending in DoneRunning has run exactly, counting repeats, the items queued or taken at its start plus every item the effects of the items it ran pushed onto the three queues it takes: nothing is skipped and nothing else runs (within the model, where an item does not itself service interrupts; see Drain.Execute below) |
| Drain.QuietAsyncEntryPass | src/isolate/environment.cc:533-570 | with no effects, a pass runs exactly the taken items then the queued ones, ends Waiting and empties the three queues |
| Drain.InterruptEntryPassDrains | src/isolate/environment.cc:573-593 | an interrupt pass runs what it holds and then its whole queue in FIFO order, leaves that queue empty and never changes the status |
| Memory.MemoryLimitBytes | src/isolate/environment.cc:611 | the limit in bytes is mb MiB, a whole number of MiB, unless the product overflows size_t |
| Memory.MiscMemorySize | src/isolate/environment.cc:660 | the memory limit plus misc_memory_size gives back the engine's heap size limit, even when the subtraction wraps |
| Memory.HeapCheckVerdict | src/isolate/environment.cc:381-396 | the check fails exactly for a non-root environment, forced or with changed external memory, over the limit both before and after the low-memory notification, the second time with used heap and external memory both read again; it is skipped exactly when root or neither forced nor changed |
| Memory.GcEpilogueAction | src/isolate/environment.cc:442-468 | over the limit: terminate for forced or collect-all GCs, else request critical pressure; within it and not collect-all: ratchet exactly when the limit was adjusted, moderate pressure exactly when total + total/4 exceeds the limit |
| Memory.ModerateThresholdIsEightyPercent | src/isolate/environment.cc:464 | the moderate test holds only above 80% of the limit and always a few bytes above it |
| Memory.GcTerminatesOverInitialHeapLimit | src/isolate/environment.cc:442-447 | the epilogue terminates exactly when usage after a forced or collect-all GC exceeds the engine's initial heap size limit |
| Memory.NearHeapLimitPressure | src/isolate/environment.cc:478-482 | the near-heap-limit callback never requests no pressure; it requests critical exactly when over the limit |
| Memory.NearHeapLimitGrant | src/isolate/environment.cc:483 | the new heap limit is the current one plus 1 GiB, or smaller than it when the size_t sum wraps |
| Memory.GcEpilogueHitsLimit | src/isolate/environment.cc:438-451 | the epilogue marks the limit hit and terminates exactly when over the limit and either forced or collect-all, or still over after the forced GC its critical request runs, by the used heap and external memory that GC leaves |
| Memory.GcEpilogueUnderLimit | src/isolate/environment.cc:452-468 | within the limit, a collect-all GC changes nothing; otherwise the callback is reinstalled exactly when the limit was adjusted, the adjustment is forgotten exactly at the initial limit, and moderate pressure is delivered exactly above the 80% test; the reinstall asks the engine to restore its heap limit to the memory limit; no collection runs, so the external memory is unchanged |
| Memory.GcEpilogueOverLimit | src/isolate/environment.cc:486-505 | over the limit after an ordinary GC, critical pressure is delivered first, the forced collection it runs leaves its external memory in the counter, and the epilogue runs again as a forced GC on the used heap and external memory read afresh |
| Memory.GcEpilogueExtends | src/isolate/environment.cc:438-469 | a forced epilogue only appends engine calls and runs no further collection, so the external memory is unchanged |
| Memory.NearHeapLimitRequestsPressure | src/isolate/environment.cc:471-484 | the callback always records the adjustment and requests by interrupt a pending pressure level that is critical exactly when over the limit |
| Memory.RatchetAfterNearHeapLimit | src/isolate/environment.cc:453-463 | after a grant, the next ordinary GC within the limit first reinstalls the callback, restoring the engine's heap limit to the memory limit, and clears the adjustment exactly at the initial limit |
| Memory.TwoGrantsThenRatchet | src/isolate/environment.cc:453-484 | two grants from a limit no lower than the initial one raise it by 2 GiB; an ordinary GC within the limit that still sees that raised limit reinstalls the callback and keeps the adjustment, so the next one reinstalls it again and clears the adjustment exactly at the initial limit |
| Timers.ThreadState.constructor | src/isolate/environment.cc:35-38 | a thread starts with no current environment, lock or CPU timer |
| Timers.Executor.constructor | src/isolate/environment.cc:155 | no time accumulated, no timer running |
| Timers.Executor.GetCpuTime | src/isolate/environment.cc:746-753 | the accumulated CPU time, plus the running timer's elapsed time only while one runs |
| Timers.Executor.GetWallTime | src/isolate/environment.cc:755-762 | the same for wall time |
| Timers.CpuTimer.constructor | src/isolate/environment.cc:61-66 | requires the executor's slot empty; becomes the thread's and the executor's timer, remembering the thread's previous one |
| Timers.CpuTimer.Stop | src/isolate/environment.cc:68-74 | restores the thread's previous timer, adds the elapsed time and empties the slot, leaving the executor's reading unchanged |
| Timers.CpuTimer.Pause | src/isolate/environment.cc:80-86 | requires the slot to hold this timer; adds now - time and empties it, leaving the reading unchanged |
| Timers.CpuTimer.Resume | src/isolate/environment.cc:88-94 | requires an empty slot; restarts at now and fills it |
| Timers.WallTimer.constructor | src/isolate/environment.cc:125-136 | pauses the thread's CPU timer, whichever executor it belongs to, and starts wall time only when the executor has no wall timer |
| Timers.WallTimer.Stop | src/isolate/environment.cc:138-149 | resumes the paused CPU timer, leaving its executor's CPU and wall time and wall timer as they were, and only the outermost wall timer adds its duration and empties the slot |
| Timers.ExecutorScope.constructor | src/isolate/environment.cc:167-169 | makes the environment current, remembering the previous one |
| Timers.ExecutorScope.Exit | src/isolate/environment.cc:171-173 | restores the previous current environment |
| Timers.ExecutorLock.constructor | src/isolate/environment.cc:40-51 | becomes the thread's current lock and makes the environment current; the thread's previous CPU timer is paused: its executor's slot is emptied and charged now minus its start, its wall time and wall timer untouched, and for a lock taken again on the same executor that charge goes to this executor; a fresh CPU timer runs for this executor; wall time starts only if not already running |
| Timers.ExecutorLock.Release | src/isolate/environment.cc:53-55 | restores the previous lock, current environment and thread CPU timer (LIFO); charges the held time to CPU time; resumes the previous timer, leaving its executor's CPU and wall time and wall timer as they were; stops wall time only for the outermost lock |
| Timers.ExecutorUnlock.constructor | src/isolate/environment.cc:57 | pauses the executor's CPU timer, keeping its reading |
| Timers.ExecutorUnlock.Release | src/isolate/environment.cc:113-115 | resumes the paused timer from now |
| Timers.UnpauseScope.constructor | src/isolate/environment.cc:117-119 | resumes the timer an unlock paused |
| Timers.UnpauseScope.Release | src/isolate/environment.cc:121-123 | pauses it again, adding the time it ran |
| Timers.LockUnlockAccounting | src/isolate/environment.cc:40-94 | a lock held from t0 to t3 with an unlock from t1 to t2 accounts (t1 - t0) + (t3 - t2) of CPU time and t3 - t0 of wall time, and leaves no timer running |
| Timers.NestedLockAccounting | src/isolate/environment.cc:40-149 | a lock on one environment from t0 to t3 with a lock on another taken inside it from t1 to t2: the outer accounts (t1 - t0) + (t3 - t2) of CPU time and t3 - t0 of wall time, the inner t2 - t1 of each, and no timer is left running |
| Environments.Registry.Insert | src/isolate/environment.cc:606-607 | std::map insert: an isolate already present keeps its environment; afterwards the isolate is found |
| Environments.Registry.Erase | src/isolate/environment.cc:709-710 | requires the isolate registered; afterwards it is not found |
| Environments.Registry.LookupIsolate | src/isolate/environment.cc:799-807 | the holder of the registered environment, or none exactly when the isolate is not registered |
| Environments.Environment.Root | src/isolate/environment.cc:600-608 | a root environment: requires no current environment on the thread and makes itself current; empty Waiting scheduler; registered |
| Environments.Environment.Sandboxed | src/isolate/environment.cc:610-672 | memory limit of mb MiB, misc size such that limit + misc is the engine's initial limit, registered, thread-specific data discarded |
| Environments.Environment.RunItem | src/isolate/environment.cc:551 | running an item appends it to the trace and applies its oracle effect, as Drain.Execute states |
| Environments.Environment.CheckMemoryPressure | src/isolate/environment.cc:511-517 | delivers and clears a pending pressure level; no call when none is pending |
| Environments.Environment.AsyncEntry | src/isolate/environment.cc:519-571 | ends in exactly the state Drain.AsyncEntryPass computes from the starting state and the oracle |
| Environments.Environment.RunRound | src/isolate/environment.cc:549-569 | one round ends where AsyncEntryPass continues from, or where it stops when a task hits the limit |
| Environments.Environment.InterruptEntry | src/isolate/environment.cc:573-593 | ends in exactly the state Drain.InterruptEntryPass computes; the async and sync interrupt callbacks (252-260) are its two instances |
| Environments.Environment.InterruptIsolate | src/isolate/environment.cc:331-335 | requires Running; requests the async-interrupt callback |
| Environments.Environment.InterruptSyncIsolate | src/isolate/environment.cc:337-339 | requests the sync-interrupt callback |
| Environments.Environment.Terminate | src/isolate/environment.cc:764-775 | requires non-root; sets terminated, stops execution and releases the holder's isolate |
| Environments.Environment.PromiseRejected | src/isolate/environment.cc:432-436 | every event stores its value: a rejection is pending afterwards exactly when the value is not empty, so an empty value (a handler added later) clears a pending one |
| Environments.RejectionThenTaskEpilogue | src/isolate/environment.cc:724-736 | a rejection recorded by the promise-reject callback followed by the task epilogue throws exactly when no handler was added later; with the limit hit the fatal error is reported instead and the rejection stays pending exactly when unhandled |
| Environments.Environment.AddWeakCallback | src/isolate/environment.cc:777-786 | root: no-op; a handle already present: logic error, table unchanged; otherwise registers it |
| Environments.Environment.RemoveWeakCallback | src/isolate/environment.cc:788-797 | root: no-op; an absent handle: logic error, table unchanged; otherwise unregisters it |
| Environments.Environment.TaskEpilogue | src/isolate/environment.cc:724-736 | microtasks run first and pending pressure is delivered; a hit limit fails fatally before, and instead of, the rejected-promise runtime error, which then stays pending |
| Environments.Environment.MarkSweepCompactEpilogue | src/isolate/environment.cc:438-469 | ends in exactly the state Memory.GcEpilogue computes from the environment's external memory counter, including the counter the re-entrant collection leaves |
| Environments.Environment.RequestMemoryPressureNotification | src/isolate/environment.cc:486-505 | ends in exactly the state Memory.PressureRequest computes; a critical re-entrant request sets the counter to what its collection leaves before the epilogue runs again |
| Environments.Environment.NearHeapLimitCallback | src/isolate/environment.cc:471-484 | ends in exactly the state Memory.NearHeapLimit computes and returns the 1 GiB grant |
| Environments.Environment.Destroy | src/isolate/environment.cc:674-711 | root: nothing changes; otherwise every weak callback is invoked once in ascending handle order, the table ends empty, the four queues are discarded, the isolate is disposed last and unregistered |
| Environments.Environment.InvokeWeakCallbacks | src/isolate/environment.cc:688-695 | invokes each registered callback once, in std::map order, and ends with the table empty |
| Environments.InvocationStep | src/isolate/environment.cc:689-694 | invoking the least remaining handle keeps the invocations so far ascending and complete |
| Environments.LeastHandle | src/isolate/environment.cc:689 | a non-empty table has a first handle in map order |
| Environments.HeapCheck.constructor | src/isolate/environment.cc:377-379 | remembers the external memory at entry |
| Environments.HeapCheck.Epilogue | src/isolate/environment.cc:381-396 | fails with the memory-limit fatal error exactly when Memory.HeapCheckVerdict says the limit is exceeded, and then the environment is terminated with the limit hit; a low-memory notification is sent exactly when the first reading is over, and then the counter holds the external memory its collection leaves, which the second test reads |
| Environments.AsyncCallbackNonDefaultIsolate | src/isolate/environment.cc:222-228 | runs the environment's pass, discards thread data only off the pool, and counts the dispatch done; the last one out wakes the default thread |
| Environments.AsyncCallbackDefaultIsolate | src/isolate/environment.cc:230-250 | empties the root slot; a filled slot runs the root pass and counts it done, unreferencing the handle at zero; an empty slot only unreferences when nothing is outstanding |

## Left out

- Mutexes, the condition variable in `AsyncWait::Wait`, and `thread_local` storage as a per-thread mechanism: the model is one thread's sequential view. `AsyncWait.Released` is the condition `Wait` blocks on.
- libuv and thread-pool calls (`uv_ref`, `uv_unref`, `uv_async_send`, `thread_pool.exec`) are logged, not performed. `uv_async_init` is not logged: `DefaultLoop.Init` models only the empty data slot it leaves. The `shared_ptr` handed to the dispatch target is represented by the isolate's identity.
- V8 calls are logged as `EngineCall`s, and heap statistics are parameters. This covers interrupts, notifications, the near-heap-limit callback reinstall, termination, disposal, microtasks, the rejected-promise exception and discarding thread-specific data. `Locker`, `Unlocker` and the handle and isolate scopes inside `Executor::Lock` are left out.
- Environments.Environment.AsyncEntry: the `Executor::Lock` it holds is not modelled inside it. Its timer effects are modelled by `Timers.ExecutorLock` on its own. The same holds for the locks and the `Executor::Scope` in `Destroy`.
- Environments.Environment.TaskEpilogue: running the microtasks has no modelled effect. They cannot themselves hit the limit or reject a promise in the model.
- Drain.Execute: an item does not service interrupts. In the code, `InterruptIsolate` and `InterruptSyncIsolate` (lines 331-339) ask the engine to run `InterruptEntry` on the thread executing JavaScript, which can be inside an item that `AsyncEntry` is running. That nested `InterruptEntry` takes and runs the `interrupts` (or `sync_interrupts`) queue mid-item (lines 252-260). An `Effect` can only append to the queues, so the model does not capture interrupts taken and run from inside an item. `AsyncEntryPassRunsEverything`, `AsyncEntryPassRunsRoundInOrder` and `RoundStopsAtFirstLimitHit` describe passes in which no item does so; in the code, those interrupts would appear in the trace nested inside the item, and the queue `AsyncEntry` takes next would not hold them. `InterruptEntry` itself is modelled on its own (`Environment.InterruptEntry`).
- Drain.Execute: the engine calls a work item makes while it runs (including the notifications of a GC it triggers) are not appended to `calls`; only the item's effect on the queues, on `hit_memory_limit` and on the pending pressure level is modelled.
- Drain.AsyncEntryPass: the oracle is finite and items have no effect once it is exhausted, so every modelled pass terminates. In the code, the `while (true)` loop of `AsyncEntry` never returns while the items it runs keep queueing more work; such an unending run is not modelled.
- Environments.HeapCheck.Epilogue: the low-memory notification is logged, and the second heap reading and the external memory its collection leaves are parameters. The full GC it runs, whose `MarkSweepCompactEpilogue` can itself terminate the environment and set `hit_memory_limit` before that reading, is not run from here; `MarkSweepCompactEpilogue` is modelled on its own.
- Environments.Environment.InvokeWeakCallbacks: each callback is taken to unregister its own handle, as the destructor's final assertion expects. The model removes the entry right after invoking it.
- Environments.Environment.Sandboxed: the resource constraints are not modelled. These are the semi-space size computed with `std::pow`, the old-space size, the version-dependent 128 MiB floor, and the snapshot blob. Callback registration and the default context are logged only through their effect on the model's state.
- `OOMErrorCallback`: it prints heap statistics and aborts the process.
- Clocks (`CpuTimer::Now`, `steady_clock::now`): they are replaced by an integer `now` argument. The `timer_holder` pause and resume inside `CpuTimer::Pause`/`Resume` belong to another file and are not part of this model.
- Timers.LockUnlockAccounting: one `now` drives both the CPU and the wall timers, which is the build where `CpuTimer::Now` reads `steady_clock` (lines 104-107). Under `USE_CLOCK_THREAD_CPUTIME_ID` (lines 96-103) CPU time comes from the thread's CPU clock, and the CPU figures of this lemma, of `Timers.NestedLockAccounting` and of the `ExecutorLock` contracts hold only for the `steady_clock` build.
- Timers.NestedLockAccounting: holds for the `steady_clock` build only, as above.
- Timers.ExecutorLock: its CPU charges (`now` minus a timer's start) use the same `now` as wall time, which is the `steady_clock` build only, as above.
- The inspector agent, `GetStackBase`/`SetStackLimit`, and the `V8_AT_LEAST` version branches are left out. `RequestMemoryPressureNotification` is modelled for engines from 6.9.406 on, where only `as_interrupt` decides between the interrupt and the immediate notification.
- `as_interrupt` defaults to false. The header that declares the default is not part of this model; the default is inferred from the three-argument calls.
- The `extra_allocated_memory` counter is maintained by the allocator, which is not part of this model. It is a field the caller sets; where a collection runs inside the modelled code (the heap check's low-memory notification, the critical re-entrant request), the external memory it leaves is a parameter written to the field before it is read again. A moderate notification's collection is not taken to change it.
