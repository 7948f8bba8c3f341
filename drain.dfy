/**
 * What one execution pass does to an environment, as a function of the
 * state it starts from: `AsyncEntry` (the pass a wake dispatches) and
 * `InterruptEntry` (the pass an engine interrupt runs).
 *
 * The work items are foreign code. What running one does is drawn from an
 * oracle, a sequence of effects consumed one per item executed: it may push
 * more work onto any queue, hit the memory limit, and set the pending
 * memory-pressure level (a request made as an interrupt leaves its level
 * pending; one delivered at once clears it). Once the oracle is exhausted,
 * items have no effect.
 */
module Drain {
  import opened Base
  import opened Scheduling

  datatype Effect = Effect(push: Queues, setsMemoryLimit: bool, pressure: Option<PressureLevel>)

  const Quiet := Effect(EmptyQueues, false, None)

  function Next(effects: seq<Effect>): Effect
  {
    if effects == [] then Quiet else effects[0]
  }

  function Rest(effects: seq<Effect>): seq<Effect>
  {
    if effects == [] then [] else effects[1..]
  }

  /** The part of an environment an execution pass reads and writes. */
  datatype PassState = PassState(
    status: Status,
    queues: Queues,
    hitMemoryLimit: bool,
    memoryPressure: PressureLevel,
    trace: seq<Runnable>,       // the items executed, in order
    calls: seq<EngineCall>)

  function Append(q: Queues, p: Queues): Queues
  {
    Queues(q.tasks + p.tasks, q.handleTasks + p.handleTasks,
           q.interrupts + p.interrupts, q.syncInterrupts + p.syncInterrupts)
  }

  /** Runs one work item `x` whose execution has effect `e`. */
  function Execute(s: PassState, x: Runnable, e: Effect): PassState
  {
    s.(queues := Append(s.queues, e.push),
       hitMemoryLimit := s.hitMemoryLimit || e.setsMemoryLimit,
       memoryPressure := if e.pressure.Some? then e.pressure.value else s.memoryPressure,
       trace := s.trace + [x])
  }

  /** `CheckMemoryPressure`: delivers and clears a pending pressure request. */
  function CheckPressure(s: PassState): PassState
  {
    if s.memoryPressure == NoPressure then s
    else s.(memoryPressure := NoPressure,
            calls := s.calls + [MemoryPressureNotification(s.memoryPressure)])
  }

  /** The queues an `AsyncEntry` round has taken and not yet run. */
  datatype Taken = Taken(interrupts: seq<Runnable>, handleTasks: seq<Runnable>, tasks: seq<Runnable>)

  const NothingTaken := Taken([], [], [])

  /** The items of the three queues `AsyncEntry` takes. */
  function Pending(q: Queues): nat
  {
    |q.interrupts| + |q.handleTasks| + |q.tasks|
  }

  function Remaining(t: Taken): nat
  {
    |t.interrupts| + |t.handleTasks| + |t.tasks|
  }

  function TakeAll(q: Queues): Queues
  {
    q.(tasks := [], handleTasks := [], interrupts := [])
  }

  /**
   * `AsyncEntry` from state `s` with `t` still to run in the current round:
   * all taken interrupts, then all handle tasks, then the tasks; after each
   * task it returns at once if the memory limit has been hit (still
   * Running), and otherwise checks memory pressure. An empty take of tasks,
   * handle tasks and interrupts ends the pass with `DoneRunning`; the
   * synchronous interrupts are never taken.
   */
  function AsyncEntryPass(s: PassState, t: Taken, effects: seq<Effect>): PassState
    decreases |effects|, 2 * Pending(s.queues) + Remaining(t)
  {
    if t.interrupts != [] then
      AsyncEntryPass(Execute(s, t.interrupts[0], Next(effects)),
                     t.(interrupts := t.interrupts[1..]), Rest(effects))
    else if t.handleTasks != [] then
      AsyncEntryPass(Execute(s, t.handleTasks[0], Next(effects)),
                     t.(handleTasks := t.handleTasks[1..]), Rest(effects))
    else if t.tasks != [] then
      var s' := Execute(s, t.tasks[0], Next(effects));
      if s'.hitMemoryLimit then s'
      else AsyncEntryPass(CheckPressure(s'), t.(tasks := t.tasks[1..]), Rest(effects))
    else if Pending(s.queues) == 0 then
      s.(status := Waiting)
    else
      AsyncEntryPass(s.(queues := TakeAll(s.queues)),
                     Taken(s.queues.interrupts, s.queues.handleTasks, s.queues.tasks), effects)
  }

  /** Which queue an `InterruptEntry` instance takes. */
  datatype InterruptQueue = AsyncInterrupts | SyncInterrupts

  function Selected(q: Queues, which: InterruptQueue): seq<Runnable>
  {
    match which
    case AsyncInterrupts => q.interrupts
    case SyncInterrupts => q.syncInterrupts
  }

  function Cleared(q: Queues, which: InterruptQueue): Queues
  {
    match which
    case AsyncInterrupts => q.(interrupts := [])
    case SyncInterrupts => q.(syncInterrupts := [])
  }

  /**
   * `InterruptEntry` from state `s` with `taken` still to run: runs the
   * taken interrupts in order, then takes the selected queue again, until a
   * take comes back empty.
   */
  function InterruptEntryPass(s: PassState, which: InterruptQueue, taken: seq<Runnable>, effects: seq<Effect>): PassState
    decreases |effects|, 2 * |Selected(s.queues, which)| + |taken|
  {
    if taken != [] then
      InterruptEntryPass(Execute(s, taken[0], Next(effects)), which, taken[1..], Rest(effects))
    else if Selected(s.queues, which) == [] then
      s
    else
      InterruptEntryPass(s.(queues := Cleared(s.queues, which)), which, Selected(s.queues, which), effects)
  }

  /** The next item of a round and what is left of the round after it. */
  function Front(t: Taken): (Runnable, Taken)
    requires Remaining(t) > 0
  {
    if t.interrupts != [] then (t.interrupts[0], t.(interrupts := t.interrupts[1..]))
    else if t.handleTasks != [] then (t.handleTasks[0], t.(handleTasks := t.handleTasks[1..]))
    else (t.tasks[0], t.(tasks := t.tasks[1..]))
  }

  /** Whether the next item of a round is a task (after which the limit is checked). */
  predicate AtTask(t: Taken)
  {
    t.interrupts == [] && t.handleTasks == []
  }

  function Order(t: Taken): seq<Runnable>
  {
    t.interrupts + t.handleTasks + t.tasks
  }

  lemma FrontSplits(t: Taken)
    requires Remaining(t) > 0
    ensures Order(t) == [Front(t).0] + Order(Front(t).1)
    ensures Remaining(Front(t).1) == Remaining(t) - 1
  {
    var (x, t') := Front(t);
    if t.interrupts != [] {
      assert t.interrupts == [x] + t'.interrupts;
    } else if t.handleTasks != [] {
      assert t.handleTasks == [x] + t'.handleTasks;
    } else {
      assert t.tasks == [x] + t'.tasks;
    }
  }

  /** One unfolding of `AsyncEntryPass` in the middle of a round. */
  lemma PassUnfolds(s: PassState, t: Taken, effects: seq<Effect>)
    requires Remaining(t) > 0
    ensures var (x, t') := Front(t);
      var s1 := Execute(s, x, Next(effects));
      AsyncEntryPass(s, t, effects) ==
        if !AtTask(t) then AsyncEntryPass(s1, t', Rest(effects))
        else if s1.hitMemoryLimit then s1
        else AsyncEntryPass(CheckPressure(s1), t', Rest(effects))
  {
  }

  /** The state a round continues from after running its next item, if it continues. */
  function AfterItem(s: PassState, t: Taken, effects: seq<Effect>): PassState
    requires Remaining(t) > 0
  {
    var s1 := Execute(s, Front(t).0, Next(effects));
    if AtTask(t) then CheckPressure(s1) else s1
  }

  /** Everything a pass still owes: the three taken-from queues and the round in hand. */
  function Owed(s: PassState, t: Taken): multiset<Runnable>
  {
    multiset(s.queues.interrupts + s.queues.handleTasks + s.queues.tasks) + multiset(Order(t))
  }

  ghost predicate NoLimitHitWithin(effects: seq<Effect>, n: nat)
  {
    forall i | 0 <= i < n && i < |effects| :: !effects[i].setsMemoryLimit
  }

  lemma NoLimitHitShift(effects: seq<Effect>, n: nat)
    requires NoLimitHitWithin(effects, n + 1)
    ensures !Next(effects).setsMemoryLimit && NoLimitHitWithin(Rest(effects), n)
  {
    if effects != [] {
      forall i | 0 <= i < n && i < |Rest(effects)| ensures !Rest(effects)[i].setsMemoryLimit {
        assert Rest(effects)[i] == effects[i + 1];
      }
    }
  }

  /** A pass only appends to the trace and to the engine calls, and never takes the synchronous interrupts. */
  lemma {:induction false} AsyncEntryPassExtends(s: PassState, t: Taken, effects: seq<Effect>)
    ensures var r := AsyncEntryPass(s, t, effects);
      s.trace <= r.trace && s.calls <= r.calls && s.queues.syncInterrupts <= r.queues.syncInterrupts
    decreases |effects|, 2 * Pending(s.queues) + Remaining(t)
  {
    if Remaining(t) > 0 {
      PassUnfolds(s, t, effects);
      FrontSplits(t);
      var s1 := Execute(s, Front(t).0, Next(effects));
      if !(AtTask(t) && s1.hitMemoryLimit) {
        AsyncEntryPassExtends(AfterItem(s, t, effects), Front(t).1, Rest(effects));
      }
    } else if Pending(s.queues) != 0 {
      AsyncEntryPassExtends(s.(queues := TakeAll(s.queues)),
                            Taken(s.queues.interrupts, s.queues.handleTasks, s.queues.tasks), effects);
    }
  }

  /**
   * A pass started on a running environment ends either with `DoneRunning`,
   * and then the three queues it drains are empty, or still Running because
   * the memory limit was hit.
   */
  lemma {:induction false} AsyncEntryPassOutcome(s: PassState, t: Taken, effects: seq<Effect>)
    requires s.status == Running
    ensures var r := AsyncEntryPass(s, t, effects);
      && (r.status == Waiting ==> Pending(r.queues) == 0)
      && (r.status == Running ==> r.hitMemoryLimit)
    decreases |effects|, 2 * Pending(s.queues) + Remaining(t)
  {
    if Remaining(t) > 0 {
      PassUnfolds(s, t, effects);
      FrontSplits(t);
      var s1 := Execute(s, Front(t).0, Next(effects));
      if !(AtTask(t) && s1.hitMemoryLimit) {
        AsyncEntryPassOutcome(AfterItem(s, t, effects), Front(t).1, Rest(effects));
      }
    } else if Pending(s.queues) != 0 {
      AsyncEntryPassOutcome(s.(queues := TakeAll(s.queues)),
                            Taken(s.queues.interrupts, s.queues.handleTasks, s.queues.tasks), effects);
    }
  }

  /** The effect of the item run `i`-th from now (no effect once the oracle is exhausted). */
  function EffectAt(effects: seq<Effect>, i: nat): Effect
  {
    if i < |effects| then effects[i] else Quiet
  }

  /**
   * A pass only stops short of `DoneRunning` because of the memory limit:
   * if it ends Running, the limit was already hit when it started or one
   * of the items it ran set it.
   */
  lemma {:induction false} AsyncEntryPassStopsOnlyOnLimit(s: PassState, t: Taken, effects: seq<Effect>)
    ensures var r := AsyncEntryPass(s, t, effects);
      && |s.trace| <= |r.trace|
      && (r.status == Running ==> s.hitMemoryLimit || !NoLimitHitWithin(effects, |r.trace| - |s.trace|))
    decreases |effects|, 2 * Pending(s.queues) + Remaining(t)
  {
    var r := AsyncEntryPass(s, t, effects);
    if Remaining(t) > 0 {
      PassUnfolds(s, t, effects);
      FrontSplits(t);
      var s1 := Execute(s, Front(t).0, Next(effects));
      if !(AtTask(t) && s1.hitMemoryLimit) {
        var s' := AfterItem(s, t, effects);
        AsyncEntryPassStopsOnlyOnLimit(s', Front(t).1, Rest(effects));
        if r.status == Running && !s.hitMemoryLimit && NoLimitHitWithin(effects, |r.trace| - |s.trace|) {
          NoLimitHitShift(effects, |r.trace| - |s'.trace|);
          assert false;
        }
      } else if r.status == Running && !s.hitMemoryLimit {
        assert effects != [] && effects[0].setsMemoryLimit;
      }
    } else if Pending(s.queues) != 0 {
      AsyncEntryPassStopsOnlyOnLimit(s.(queues := TakeAll(s.queues)),
                                     Taken(s.queues.interrupts, s.queues.handleTasks, s.queues.tasks), effects);
    }
  }

  /**
   * A round stops right after the first task whose run sets the memory
   * limit: if no item before the `j`-th task of the round sets it and that
   * task does, the interrupts and handle tasks in hand run, then exactly
   * the first `j + 1` tasks, and the environment stays Running.
   */
  lemma {:induction false} RoundStopsAtFirstLimitHit(s: PassState, t: Taken, effects: seq<Effect>, j: nat)
    requires s.status == Running && !s.hitMemoryLimit && j < |t.tasks|
    requires var k := |t.interrupts| + |t.handleTasks| + j;
      EffectAt(effects, k).setsMemoryLimit && NoLimitHitWithin(effects, k)
    ensures var r := AsyncEntryPass(s, t, effects);
      && r.status == Running && r.hitMemoryLimit
      && r.trace == s.trace + t.interrupts + t.handleTasks + t.tasks[..j + 1]
    decreases |t.interrupts| + |t.handleTasks| + j
  {
    var k := |t.interrupts| + |t.handleTasks| + j;
    if k == 0 {
      PassUnfolds(s, t, effects);
      assert t.tasks[..1] == [t.tasks[0]];
    } else {
      NoLimitHitShift(effects, k - 1);
      assert EffectAt(Rest(effects), k - 1) == EffectAt(effects, k);
      PassContinues(s, t, effects);
      var (x, t') := Front(t);
      var s' := AfterItem(s, t, effects);
      if !AtTask(t) {
        RoundStopsAtFirstLimitHit(s', t', Rest(effects), j);
        FrontKeepsTasks(t);
      } else {
        RoundStopsAtFirstLimitHit(s', t', Rest(effects), j - 1);
        assert t.tasks[..j + 1] == [x] + t'.tasks[..j];
      }
    }
  }

  /** An item whose run does not stop the pass hands it on to the rest of the round. */
  lemma PassContinues(s: PassState, t: Taken, effects: seq<Effect>)
    requires Remaining(t) > 0 && !s.hitMemoryLimit && !Next(effects).setsMemoryLimit
    ensures AsyncEntryPass(s, t, effects) == AsyncEntryPass(AfterItem(s, t, effects), Front(t).1, Rest(effects))
    ensures AfterItem(s, t, effects).status == s.status && !AfterItem(s, t, effects).hitMemoryLimit
    ensures AfterItem(s, t, effects).trace == s.trace + [Front(t).0]
  {
    PassUnfolds(s, t, effects);
  }

  /** Running an interrupt or a handle task moves it from the round to the trace. */
  lemma FrontKeepsTasks(t: Taken)
    requires Remaining(t) > 0 && !AtTask(t)
    ensures var (x, t') := Front(t);
      t'.tasks == t.tasks && [x] + t'.interrupts + t'.handleTasks == t.interrupts + t.handleTasks
  {
  }

  /**
   * Within a round, the taken interrupts run first, then the handle tasks,
   * then the tasks, each in FIFO order, as long as none of them hits the
   * memory limit.
   */
  lemma {:induction false} AsyncEntryPassRunsRoundInOrder(s: PassState, t: Taken, effects: seq<Effect>)
    requires !s.hitMemoryLimit
    requires NoLimitHitWithin(effects, Remaining(t))
    ensures s.trace + Order(t) <= AsyncEntryPass(s, t, effects).trace
    decreases Remaining(t)
  {
    if Remaining(t) == 0 {
      AsyncEntryPassExtends(s, t, effects);
    } else {
      NoLimitHitShift(effects, Remaining(t) - 1);
      PassUnfolds(s, t, effects);
      FrontSplits(t);
      var s' := AfterItem(s, t, effects);
      AsyncEntryPassRunsRoundInOrder(s', Front(t).1, Rest(effects));
      assert s.trace + Order(t) == s'.trace + Order(Front(t).1);
    }
  }

  /**
   * The first round of a pass runs the interrupts, handle tasks and tasks
   * that were queued when it started, in that order and each in FIFO order.
   */
  lemma AsyncEntryFirstRoundOrder(s: PassState, effects: seq<Effect>)
    requires !s.hitMemoryLimit && Pending(s.queues) > 0
    requires NoLimitHitWithin(effects, Pending(s.queues))
    ensures s.trace + s.queues.interrupts + s.queues.handleTasks + s.queues.tasks
            <= AsyncEntryPass(s, NothingTaken, effects).trace
  {
    var t := Taken(s.queues.interrupts, s.queues.handleTasks, s.queues.tasks);
    AsyncEntryPassRunsRoundInOrder(s.(queues := TakeAll(s.queues)), t, effects);
  }

  /** The items an effect pushes onto the three queues `AsyncEntry` takes. */
  function PushedWork(e: Effect): multiset<Runnable>
  {
    multiset(e.push.interrupts + e.push.handleTasks + e.push.tasks)
  }

  /** The items the next `n` effects of the oracle push onto those queues. */
  function PushedWithin(effects: seq<Effect>, n: nat): multiset<Runnable>
  {
    if n == 0 then multiset{} else PushedWork(Next(effects)) + PushedWithin(Rest(effects), n - 1)
  }

  /**
   * A pass from `s` with `t` in hand that ends in `r` ran exactly what it
   * owed at the start together with everything pushed onto the three
   * queues it takes by the effects of the items it ran, one effect per item
   * (when it ended with `DoneRunning`).
   */
  ghost predicate Accounted(s: PassState, t: Taken, effects: seq<Effect>, r: PassState)
  {
    && |s.trace| <= |r.trace|
    && (r.status == Waiting ==>
          multiset(r.trace) == multiset(s.trace) + Owed(s, t) + PushedWithin(effects, |r.trace| - |s.trace|))
  }

  /**
   * No work is skipped: a pass that ends with `DoneRunning` has run exactly
   * the items that were queued or taken when it started together with
   * every item pushed onto those three queues while it ran.
   */
  lemma {:induction false} AsyncEntryPassRunsEverything(s: PassState, t: Taken, effects: seq<Effect>)
    requires s.status == Running
    ensures Accounted(s, t, effects, AsyncEntryPass(s, t, effects))
    decreases |effects|, 2 * Pending(s.queues) + Remaining(t), 1
  {
    if Remaining(t) > 0 {
      ItemAccounted(s, t, effects);
    } else if Pending(s.queues) != 0 {
      var s', t' := s.(queues := TakeAll(s.queues)),
                    Taken(s.queues.interrupts, s.queues.handleTasks, s.queues.tasks);
      AsyncEntryPassRunsEverything(s', t', effects);
      TakeAccounted(s, effects, AsyncEntryPass(s', t', effects));
    } else {
      DoneAccounted(s, t, effects);
    }
  }

  /** `AsyncEntryPassRunsEverything` when the round in hand has an item left to run. */
  lemma {:induction false} ItemAccounted(s: PassState, t: Taken, effects: seq<Effect>)
    requires s.status == Running && Remaining(t) > 0
    ensures Accounted(s, t, effects, AsyncEntryPass(s, t, effects))
    decreases |effects|, 2 * Pending(s.queues) + Remaining(t), 0
  {
    PassUnfolds(s, t, effects);
    FrontSplits(t);
    var s1 := Execute(s, Front(t).0, Next(effects));
    if AtTask(t) && s1.hitMemoryLimit {
      StopAccounted(s, t, effects);
    } else {
      var s', t' := AfterItem(s, t, effects), Front(t).1;
      AsyncEntryPassRunsEverything(s', t', Rest(effects));
      OwedAfterItem(s, t, effects, AsyncEntryPass(s', t', Rest(effects)));
    }
  }

  /** A pass that stops on the memory limit is accounted for (it did not end Waiting). */
  lemma StopAccounted(s: PassState, t: Taken, effects: seq<Effect>)
    requires s.status == Running && Remaining(t) > 0
    ensures Accounted(s, t, effects, Execute(s, Front(t).0, Next(effects)))
  {
  }

  /** The accounting of a pass carries back over taking the three queues. */
  lemma TakeAccounted(s: PassState, effects: seq<Effect>, r: PassState)
    requires Accounted(s.(queues := TakeAll(s.queues)),
                       Taken(s.queues.interrupts, s.queues.handleTasks, s.queues.tasks), effects, r)
    ensures Accounted(s, NothingTaken, effects, r)
  {
    var s', t' := s.(queues := TakeAll(s.queues)),
                  Taken(s.queues.interrupts, s.queues.handleTasks, s.queues.tasks);
    assert Owed(s, NothingTaken) == Owed(s', t');
  }

  /** A pass with nothing in hand and nothing queued owes nothing. */
  lemma DoneAccounted(s: PassState, t: Taken, effects: seq<Effect>)
    requires Remaining(t) == 0 && Pending(s.queues) == 0
    ensures Accounted(s, t, effects, s.(status := Waiting))
  {
    assert Order(t) == [] && s.queues.interrupts + s.queues.handleTasks + s.queues.tasks == [];
  }

  /** The accounting of the rest of a pass carries back over the item run before it. */
  lemma OwedAfterItem(s: PassState, t: Taken, effects: seq<Effect>, r: PassState)
    requires Remaining(t) > 0
    requires Accounted(AfterItem(s, t, effects), Front(t).1, Rest(effects), r)
    ensures Accounted(s, t, effects, r)
  {
    var s' := AfterItem(s, t, effects);
    assert |s'.trace| == |s.trace| + 1;
    if r.status == Waiting {
      var n := |r.trace| - |s'.trace|;
      ItemOwes(s, t, effects);
      MultisetRegroup(multiset(s.trace) + Owed(s, t), PushedWork(Next(effects)), PushedWithin(Rest(effects), n),
                      multiset(s'.trace) + Owed(s', Front(t).1));
      assert |r.trace| - |s.trace| == n + 1;
    }
  }

  lemma MultisetRegroup(before: multiset<Runnable>, w: multiset<Runnable>, rest: multiset<Runnable>, after: multiset<Runnable>)
    requires after == before + w
    ensures after + rest == before + (w + rest)
  {
  }

  /** Running an item moves it from what is owed to the trace, and adds what its effect pushes to what is owed. */
  lemma ItemOwes(s: PassState, t: Taken, effects: seq<Effect>)
    requires Remaining(t) > 0
    ensures multiset(AfterItem(s, t, effects).trace) + Owed(AfterItem(s, t, effects), Front(t).1)
            == multiset(s.trace) + Owed(s, t) + PushedWork(Next(effects))
  {
    FrontSplits(t);
    var (x, t') := Front(t);
    var e := Next(effects);
    var s' := AfterItem(s, t, effects);
    var q, q' := s.queues, s'.queues;
    assert q'.interrupts + q'.handleTasks + q'.tasks
        == q.interrupts + e.push.interrupts + q.handleTasks + e.push.handleTasks + q.tasks + e.push.tasks;
    assert multiset(s'.trace) == multiset(s.trace) + multiset{x};
    assert multiset(Order(t)) == multiset{x} + multiset(Order(t'));
  }

  /**
   * With no effects at all, a pass runs exactly what it was given, in
   * priority order, and ends Waiting with the three queues empty.
   */
  lemma {:induction false} QuietAsyncEntryPass(s: PassState, t: Taken)
    requires !s.hitMemoryLimit && s.memoryPressure == NoPressure
    ensures AsyncEntryPass(s, t, []) ==
      s.(status := Waiting,
         queues := TakeAll(s.queues),
         trace := s.trace + Order(t) + s.queues.interrupts + s.queues.handleTasks + s.queues.tasks)
    decreases 2 * Pending(s.queues) + Remaining(t)
  {
    var q := s.queues;
    if Remaining(t) > 0 {
      PassUnfolds(s, t, []);
      FrontSplits(t);
      var s' := AfterItem(s, t, []);
      assert s' == s.(trace := s.trace + [Front(t).0]);
      QuietAsyncEntryPass(s', Front(t).1);
      assert s.trace + Order(t) == s'.trace + Order(Front(t).1);
    } else if Pending(q) != 0 {
      var s' := s.(queues := TakeAll(q));
      QuietAsyncEntryPass(s', Taken(q.interrupts, q.handleTasks, q.tasks));
    } else {
      assert q.interrupts == [] && q.handleTasks == [] && q.tasks == [];
    }
  }

  /**
   * An interrupt pass runs what it holds and then everything in its queue,
   * in FIFO order, and leaves that queue empty; it never changes the status.
   */
  lemma {:induction false} InterruptEntryPassDrains(s: PassState, which: InterruptQueue, taken: seq<Runnable>, effects: seq<Effect>)
    ensures var r := InterruptEntryPass(s, which, taken, effects);
      && Selected(r.queues, which) == []
      && r.status == s.status
      && s.trace + taken + Selected(s.queues, which) <= r.trace
    decreases |effects|, 2 * |Selected(s.queues, which)| + |taken|
  {
    if taken != [] {
      var s' := Execute(s, taken[0], Next(effects));
      InterruptEntryPassDrains(s', which, taken[1..], Rest(effects));
      assert Selected(s.queues, which) <= Selected(s'.queues, which);
      assert s.trace + taken == s'.trace + taken[1..];
    } else if Selected(s.queues, which) != [] {
      InterruptEntryPassDrains(s.(queues := Cleared(s.queues, which)), which, Selected(s.queues, which), effects);
    }
  }
}
