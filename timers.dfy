/**
 * The executor of an environment and its timers, from the point of view of
 * one thread. The thread-local variables of the source (`current_env`,
 * `Lock::current`, `cpu_timer_thread`) are the fields of a `ThreadState`
 * object; clocks are read by the caller and passed in as `now`.
 *
 * A CPU timer measures the time its thread spends holding an environment's
 * lock; it is paused while another environment's lock is taken on the same
 * thread, and while the lock is given up by an `Unlock`. A wall timer
 * measures the time from the first lock taken on an environment to its
 * release, whatever the thread.
 */
module Timers {
  import opened Base

  /** The thread-local state of one thread. */
  class ThreadState {
    var currentEnv: Option<IsolateId>
    var currentLock: ExecutorLock?
    var cpuTimer: CpuTimer?

    constructor ()
      ensures currentEnv == None && currentLock == null && cpuTimer == null
    {
      currentEnv, currentLock, cpuTimer := None, null, null;
    }
  }

  class Executor {
    const env: IsolateId
    var cpuTime: nat
    var wallTime: nat
    var cpuTimer: CpuTimer?
    var wallTimer: WallTimer?

    /** The active timers, when there are any, belong to this executor. */
    ghost predicate Valid()
      reads this
    {
      && (cpuTimer != null ==> cpuTimer.executor == this)
      && (wallTimer != null ==> wallTimer.executor == this)
    }

    constructor (env: IsolateId)
      ensures Valid() && this.env == env
      ensures cpuTime == 0 && wallTime == 0 && cpuTimer == null && wallTimer == null
    {
      this.env := env;
      cpuTime, wallTime := 0, 0;
      cpuTimer, wallTimer := null, null;
    }

    /**
     * `IsolateEnvironment::GetCpuTime`: the accumulated CPU time plus, while
     * a CPU timer is running, the time since it started.
     */
    function GetCpuTime(now: nat): (time: nat)
      reads this, cpuTimer
      requires cpuTimer != null ==> cpuTimer.time <= now
      ensures time >= cpuTime
      ensures cpuTimer == null ==> time == cpuTime
      ensures cpuTimer != null ==> time == cpuTime + (now - cpuTimer.time)
    {
      cpuTime + if cpuTimer != null then now - cpuTimer.time else 0
    }

    /** `IsolateEnvironment::GetWallTime`: likewise for the wall timer. */
    function GetWallTime(now: nat): (time: nat)
      reads this, wallTimer
      requires wallTimer != null ==> wallTimer.time <= now
      ensures time >= wallTime
      ensures wallTimer == null ==> time == wallTime
      ensures wallTimer != null ==> time == wallTime + (now - wallTimer.time)
    {
      wallTime + if wallTimer != null then now - wallTimer.time else 0
    }
  }

  class CpuTimer {
    const executor: Executor
    const thread: ThreadState
    /** The thread's previous CPU timer, restored when this one is destroyed. */
    const last: CpuTimer?
    var time: nat

    /** Starts timing: becomes the thread's and the executor's CPU timer. */
    constructor (executor: Executor, thread: ThreadState, now: nat)
      requires executor.cpuTimer == null
      modifies thread`cpuTimer, executor`cpuTimer
      ensures this.executor == executor && this.thread == thread
      ensures last == old(thread.cpuTimer) && time == now
      ensures thread.cpuTimer == this && executor.cpuTimer == this
    {
      this.executor := executor;
      this.thread := thread;
      last := thread.cpuTimer;
      time := now;
      new;
      thread.cpuTimer := this;
      executor.cpuTimer := this;
    }

    /**
     * The destructor: gives the thread back its previous timer and adds the
     * time since the last start to the executor's CPU time, so that the
     * executor's reading at `now` is unchanged.
     */
    method Stop(now: nat)
      requires executor.cpuTimer == this && time <= now
      modifies thread`cpuTimer, executor`cpuTime, executor`cpuTimer
      ensures thread.cpuTimer == last && executor.cpuTimer == null
      ensures executor.cpuTime == old(executor.cpuTime) + (now - time)
      ensures executor.GetCpuTime(now) == old(executor.GetCpuTime(now))
    {
      thread.cpuTimer := last;
      executor.cpuTime := executor.cpuTime + (now - time);
      executor.cpuTimer := null;
    }

    /** Stops counting without losing the time counted so far. */
    method Pause(now: nat)
      requires executor.cpuTimer == this && time <= now
      modifies executor`cpuTime, executor`cpuTimer
      ensures executor.cpuTimer == null
      ensures executor.cpuTime == old(executor.cpuTime) + (now - time)
      ensures executor.GetCpuTime(now) == old(executor.GetCpuTime(now))
    {
      executor.cpuTime := executor.cpuTime + (now - time);
      executor.cpuTimer := null;
    }

    /** Counts again from `now`. */
    method Resume(now: nat)
      requires executor.cpuTimer == null
      modifies this`time, executor`cpuTimer
      ensures time == now && executor.cpuTimer == this
      ensures executor.GetCpuTime(now) == old(executor.GetCpuTime(now))
    {
      time := now;
      executor.cpuTimer := this;
    }
  }

  class WallTimer {
    const executor: Executor
    /** The thread's CPU timer when this was created; it is paused for this timer's lifetime. */
    const cpuTimer: CpuTimer?
    var time: nat

    /**
     * Pauses the thread's current CPU timer (which may measure another
     * environment) and, if the executor has no wall timer yet, starts one.
     */
    constructor (executor: Executor, thread: ThreadState, now: nat)
      requires thread.cpuTimer != null ==> thread.cpuTimer.executor.cpuTimer == thread.cpuTimer
      requires thread.cpuTimer != null ==> thread.cpuTimer.time <= now
      modifies executor`wallTimer
      modifies if thread.cpuTimer != null then {thread.cpuTimer.executor} else {}
      ensures this.executor == executor && cpuTimer == old(thread.cpuTimer)
      ensures cpuTimer != null ==> && cpuTimer.executor.cpuTimer == null
                                   && cpuTimer.executor.cpuTime == old(thread.cpuTimer.executor.cpuTime) + (now - cpuTimer.time)
                                   && cpuTimer.executor.wallTime == old(thread.cpuTimer.executor.wallTime)
                                   && (cpuTimer.executor != executor ==> cpuTimer.executor.wallTimer == old(thread.cpuTimer.executor.wallTimer))
      ensures old(executor.wallTimer) == null ==> executor.wallTimer == this && time == now
      ensures old(executor.wallTimer) != null ==> executor.wallTimer == old(executor.wallTimer)
    {
      this.executor := executor;
      cpuTimer := thread.cpuTimer;
      new;
      if cpuTimer != null {
        cpuTimer.Pause(now);
      }
      if executor.wallTimer == null {
        executor.wallTimer := this;
        time := now;
      }
    }

    /**
     * The destructor: resumes the CPU timer it paused and, if it is the
     * executor's wall timer, adds its duration to the executor's wall time.
     */
    method Stop(now: nat)
      requires cpuTimer != null ==> cpuTimer.executor.cpuTimer == null
      requires executor.wallTimer == this ==> time <= now
      modifies executor`wallTimer, executor`wallTime
      modifies if cpuTimer != null then {cpuTimer, cpuTimer.executor} else {}
      ensures cpuTimer != null ==> && cpuTimer.executor.cpuTimer == cpuTimer && cpuTimer.time == now
                                   && cpuTimer.executor.cpuTime == old(cpuTimer.executor.cpuTime)
      ensures cpuTimer != null && cpuTimer.executor != executor ==>
                && cpuTimer.executor.wallTime == old(cpuTimer.executor.wallTime)
                && cpuTimer.executor.wallTimer == old(cpuTimer.executor.wallTimer)
      ensures old(executor.wallTimer) == this ==> && executor.wallTimer == null
                                                  && executor.wallTime == old(executor.wallTime) + (now - time)
                                                  && executor.GetWallTime(now) == old(executor.GetWallTime(now))
      ensures old(executor.wallTimer) != this ==> && executor.wallTimer == old(executor.wallTimer)
                                                  && executor.wallTime == old(executor.wallTime)
    {
      if cpuTimer != null {
        cpuTimer.Resume(now);
      }
      if executor.wallTimer == this {
        executor.wallTimer := null;
        executor.wallTime := executor.wallTime + (now - time);
      }
    }
  }

  /** `Executor::Scope`: makes an environment the thread's current one. */
  class ExecutorScope {
    const thread: ThreadState
    const last: Option<IsolateId>

    constructor (env: IsolateId, thread: ThreadState)
      modifies thread`currentEnv
      ensures this.thread == thread && last == old(thread.currentEnv)
      ensures thread.currentEnv == Some(env)
    {
      this.thread := thread;
      last := thread.currentEnv;
      new;
      thread.currentEnv := Some(env);
    }

    /** The destructor restores the previous current environment. */
    method Exit()
      modifies thread`currentEnv
      ensures thread.currentEnv == last
    {
      thread.currentEnv := last;
    }
  }
  /**
   * `Executor::Lock`: this thread now owns the environment. Taking it, in
   * order: remembers the thread's current lock, makes the environment
   * current, starts (or joins) the wall timer, pausing the thread's CPU
   * timer, and starts a CPU timer for this environment. Releasing undoes
   * each step in the opposite order.
   */
  class ExecutorLock {
    const thread: ThreadState
    const executor: Executor
    const last: ExecutorLock?
    const scope: ExecutorScope
    const wallTimer: WallTimer
    const cpuTimer: CpuTimer

    predicate Valid()
    {
      && scope.thread == thread
      && wallTimer.executor == executor
      && cpuTimer.executor == executor && cpuTimer.thread == thread
      && cpuTimer.last == wallTimer.cpuTimer
    }

    constructor (executor: Executor, thread: ThreadState, now: nat)
      requires thread.cpuTimer != null ==> thread.cpuTimer.executor.cpuTimer == thread.cpuTimer
      requires thread.cpuTimer != null ==> thread.cpuTimer.time <= now
      requires executor.Valid()
      requires executor.cpuTimer == null || executor.cpuTimer == thread.cpuTimer
      modifies thread, executor
      modifies if thread.cpuTimer != null then {thread.cpuTimer.executor} else {}
      ensures Valid() && this.thread == thread && this.executor == executor
      ensures fresh(cpuTimer) && fresh(wallTimer) && fresh(scope)
      ensures last == old(thread.currentLock) && thread.currentLock == this
      ensures scope.last == old(thread.currentEnv) && thread.currentEnv == Some(executor.env)
      ensures cpuTimer.last == old(thread.cpuTimer) && thread.cpuTimer == cpuTimer
      ensures executor.cpuTimer == cpuTimer && cpuTimer.time == now
      // the thread's previous CPU timer, when it measures another environment, is paused
      ensures old(thread.cpuTimer) != null && old(thread.cpuTimer).executor != executor ==>
                && old(thread.cpuTimer).executor.cpuTimer == null
                && old(thread.cpuTimer).executor.cpuTime
                   == old(thread.cpuTimer.executor.cpuTime) + (now - old(thread.cpuTimer.time))
                && old(thread.cpuTimer).executor.wallTime == old(thread.cpuTimer.executor.wallTime)
                && old(thread.cpuTimer).executor.wallTimer == old(thread.cpuTimer.executor.wallTimer)
      // a lock taken again on the same environment charges the time its previous timer ran
      ensures old(thread.cpuTimer) != null && old(thread.cpuTimer).executor == executor ==>
                executor.cpuTime == old(executor.cpuTime) + (now - old(thread.cpuTimer.time))
      ensures old(executor.wallTimer) == null ==> executor.wallTimer == wallTimer && wallTimer.time == now
      ensures old(executor.wallTimer) != null ==> executor.wallTimer == old(executor.wallTimer)
      ensures executor.wallTime == old(executor.wallTime)
      ensures old(thread.cpuTimer) == null || old(thread.cpuTimer).executor != executor ==> executor.cpuTime == old(executor.cpuTime)
    {
      this.thread := thread;
      this.executor := executor;
      last := thread.currentLock;
      scope := new ExecutorScope(executor.env, thread);
      wallTimer := new WallTimer(executor, thread, now);
      cpuTimer := new CpuTimer(executor, thread, now);
      new;
      thread.currentLock := this;
    }

    method Release(now: nat)
      requires Valid()
      requires executor.cpuTimer == cpuTimer && cpuTimer.time <= now
      requires wallTimer.cpuTimer != null && wallTimer.cpuTimer.executor != executor ==> wallTimer.cpuTimer.executor.cpuTimer == null
      requires executor.wallTimer == wallTimer ==> wallTimer.time <= now
      modifies thread, executor
      modifies if wallTimer.cpuTimer != null then {wallTimer.cpuTimer, wallTimer.cpuTimer.executor} else {}
      ensures thread.currentLock == last && thread.currentEnv == scope.last && thread.cpuTimer == cpuTimer.last
      ensures executor.cpuTime == old(executor.cpuTime) + (now - old(cpuTimer.time))
      ensures wallTimer.cpuTimer != null ==> wallTimer.cpuTimer.executor.cpuTimer == wallTimer.cpuTimer && wallTimer.cpuTimer.time == now
      ensures wallTimer.cpuTimer == null || wallTimer.cpuTimer.executor != executor ==> executor.cpuTimer == null
      ensures wallTimer.cpuTimer != null && wallTimer.cpuTimer.executor != executor ==>
                && wallTimer.cpuTimer.executor.cpuTime == old(wallTimer.cpuTimer.executor.cpuTime)
                && wallTimer.cpuTimer.executor.wallTime == old(wallTimer.cpuTimer.executor.wallTime)
                && wallTimer.cpuTimer.executor.wallTimer == old(wallTimer.cpuTimer.executor.wallTimer)
      ensures old(executor.wallTimer) == wallTimer ==> && executor.wallTimer == null
                                                       && executor.wallTime == old(executor.wallTime) + (now - wallTimer.time)
      ensures old(executor.wallTimer) != wallTimer ==> && executor.wallTimer == old(executor.wallTimer)
                                                       && executor.wallTime == old(executor.wallTime)
    {
      thread.currentLock := last;
      cpuTimer.Stop(now);
      wallTimer.Stop(now);
      scope.Exit();
    }
  }

  /**
   * `Executor::Unlock`: gives up the environment for the duration of a
   * blocking wait; the environment's CPU timer is paused meanwhile.
   */
  class ExecutorUnlock {
    const timer: CpuTimer

    constructor (executor: Executor, now: nat)
      requires executor.Valid() && executor.cpuTimer != null && executor.cpuTimer.time <= now
      modifies executor`cpuTime, executor`cpuTimer
      ensures timer == old(executor.cpuTimer) && executor.cpuTimer == null
      ensures executor.GetCpuTime(now) == old(executor.GetCpuTime(now))
    {
      timer := executor.cpuTimer;
      new;
      timer.Pause(now);
    }

    method Release(now: nat)
      requires timer.executor.cpuTimer == null
      modifies timer`time, timer.executor`cpuTimer
      ensures timer.executor.cpuTimer == timer && timer.time == now
    {
      timer.Resume(now);
    }
  }

  /**
   * `CpuTimer::UnpauseScope`: inside an `Unlock`, counts CPU time again for
   * a while (the timer the unlock paused is resumed, then paused again).
   */
  class UnpauseScope {
    const timer: CpuTimer

    constructor (unlock: ExecutorUnlock, now: nat)
      requires unlock.timer.executor.cpuTimer == null
      modifies unlock.timer`time, unlock.timer.executor`cpuTimer
      ensures timer == unlock.timer && timer.executor.cpuTimer == timer && timer.time == now
    {
      timer := unlock.timer;
      new;
      timer.Resume(now);
    }

    method Release(now: nat)
      requires timer.executor.cpuTimer == timer && timer.time <= now
      modifies timer.executor`cpuTime, timer.executor`cpuTimer
      ensures timer.executor.cpuTimer == null
      ensures timer.executor.cpuTime == old(timer.executor.cpuTime) + (now - timer.time)
    {
      timer.Pause(now);
    }
  }

  /**
   * CPU time counts only the time the lock is held: a lock taken at `t0`,
   * given up by an unlock from `t1` to `t2` and released at `t3` accounts
   * for (t1 - t0) + (t3 - t2) of CPU time and t3 - t0 of wall time.
   */
  method LockUnlockAccounting(executor: Executor, thread: ThreadState, t0: nat, t1: nat, t2: nat, t3: nat)
    requires t0 <= t1 <= t2 <= t3
    requires executor.Valid() && executor.cpuTimer == null && executor.wallTimer == null
    requires thread.cpuTimer == null
    modifies executor, thread
    ensures executor.cpuTime == old(executor.cpuTime) + (t1 - t0) + (t3 - t2)
    ensures executor.wallTime == old(executor.wallTime) + (t3 - t0)
    ensures executor.cpuTimer == null && executor.wallTimer == null && thread.cpuTimer == null
  {
    var lock := new ExecutorLock(executor, thread, t0);
    var unlock := new ExecutorUnlock(executor, t1);
    unlock.Release(t2);
    lock.Release(t3);
  }

  /**
   * Nested locks on one thread: a lock on `a` taken at `t0`, a lock on `b`
   * taken at `t1` and released at `t2`, then the lock on `a` released at
   * `t3`. The CPU timer of `a` is paused while `b` is held, so `a` accounts
   * for (t1 - t0) + (t3 - t2) of CPU time and `b` for t2 - t1; wall time
   * runs from the first lock to the release of each.
   */
  method NestedLockAccounting(a: Executor, b: Executor, thread: ThreadState, t0: nat, t1: nat, t2: nat, t3: nat)
    requires t0 <= t1 <= t2 <= t3 && a != b
    requires a.Valid() && a.cpuTimer == null && a.wallTimer == null
    requires b.Valid() && b.cpuTimer == null && b.wallTimer == null
    requires thread.cpuTimer == null
    modifies a, b, thread
    ensures a.cpuTime == old(a.cpuTime) + (t1 - t0) + (t3 - t2)
    ensures b.cpuTime == old(b.cpuTime) + (t2 - t1)
    ensures a.wallTime == old(a.wallTime) + (t3 - t0)
    ensures b.wallTime == old(b.wallTime) + (t2 - t1)
    ensures a.cpuTimer == null && a.wallTimer == null
    ensures b.cpuTimer == null && b.wallTimer == null
    ensures thread.cpuTimer == null
  {
    var outer := new ExecutorLock(a, thread, t0);
    var inner := new ExecutorLock(b, thread, t1);
    inner.Release(t2);
    outer.Release(t3);
  }
}
