/**
 * The integer decisions behind the environment's memory-limit enforcement:
 * the heap check after an allocating operation, the mark-sweep-compact GC
 * epilogue and the near-heap-limit callback. Heap statistics are inputs.
 *
 * Sizes are `size_t`: every sum, difference and product below wraps modulo
 * 2^64 as the source's arithmetic does.
 */
module Memory {
  import opened Base

  const SIZE_MODULUS: nat := 0x1_0000_0000_0000_0000
  type Size = n: nat | n < SIZE_MODULUS

  const MIB: nat := 1024 * 1024
  /** The extra heap the near-heap-limit callback grants each time it runs. */
  const HEAP_GRANT: nat := 1024 * 1024 * 1024

  function SizeAdd(a: Size, b: Size): Size
  {
    if a + b < SIZE_MODULUS then a + b else a + b - SIZE_MODULUS
  }

  function SizeSub(a: Size, b: Size): Size
  {
    if a >= b then a - b else a + SIZE_MODULUS - b
  }

  /** `memory_limit_in_mb * 1024 * 1024`. */
  function MemoryLimitBytes(mb: Size): (bytes: Size)
    ensures mb * MIB < SIZE_MODULUS ==> bytes == mb * MIB && bytes / MIB == mb && bytes % MIB == 0
  {
    (mb * MIB) % SIZE_MODULUS
  }

  /**
   * `misc_memory_size`: the part of the engine's heap size limit that is
   * not the user's memory limit. Together with the memory limit it gives
   * back exactly the engine's limit, even when the subtraction wraps.
   */
  function MiscMemorySize(heapSizeLimit: Size, memoryLimit: Size): (misc: Size)
    ensures SizeAdd(memoryLimit, misc) == heapSizeLimit
    ensures heapSizeLimit >= memoryLimit ==> misc == heapSizeLimit - memoryLimit
  {
    SizeSub(heapSizeLimit, memoryLimit)
  }

  /** What `HeapCheck::Epilogue` concludes. */
  datatype HeapVerdict =
    | Unchecked                 // root, or nothing forced it and no external memory was allocated
    | WithinLimit               // checked: under the limit
    | RecoveredAfterLowMemory   // over the limit, back under it after a low-memory notification
    | LimitExceeded             // still over: terminate and throw

  /**
   * The heap check: `used` and `extra` are the heap in use and the
   * external memory when the check runs; `usedAfterNotification` and
   * `extraAfterNotification` are both read again after the low-memory
   * notification it sends when the first reading is over the limit (the
   * collection that notification runs can free external memory too).
   */
  function HeapCheckVerdict(root: bool, force: bool, extraBefore: Size, extra: Size, used: Size,
                            usedAfterNotification: Size, extraAfterNotification: Size, memoryLimit: Size): (v: HeapVerdict)
    ensures v == LimitExceeded <==>
      && !root
      && (force || extra != extraBefore)
      && SizeAdd(used, extra) > memoryLimit
      && SizeAdd(usedAfterNotification, extraAfterNotification) > memoryLimit
    ensures v == Unchecked <==> root || (!force && extra == extraBefore)
    ensures v in {RecoveredAfterLowMemory, LimitExceeded} <==> v != Unchecked && SizeAdd(used, extra) > memoryLimit
  {
    if root || (!force && extra == extraBefore) then Unchecked
    else if SizeAdd(used, extra) <= memoryLimit then WithinLimit
    else if SizeAdd(usedAfterNotification, extraAfterNotification) <= memoryLimit then RecoveredAfterLowMemory
    else LimitExceeded
  }

  /** The flags of a GC that matter here. */
  datatype GcFlags = GcFlags(forced: bool, collectAllAvailableGarbage: bool)

  /** What the mark-sweep-compact GC epilogue decides. */
  datatype GcAction =
    | TerminateIsolate
    | RequestCritical
    | Relax(ratchet: bool, moderate: bool)    // under the limit after an ordinary GC
    | NoAction

  /**
   * The GC epilogue's decision, for `total` = used heap plus external
   * memory and `limit` = memory limit plus `misc_memory_size`.
   */
  function GcEpilogueAction(total: Size, limit: Size, flags: GcFlags, didAdjustHeapLimit: bool): (a: GcAction)
    ensures a == TerminateIsolate <==> total > limit && (flags.forced || flags.collectAllAvailableGarbage)
    ensures a == RequestCritical <==> total > limit && !flags.forced && !flags.collectAllAvailableGarbage
    ensures a.Relax? <==> total <= limit && !flags.collectAllAvailableGarbage
    ensures a.Relax? ==> (a.ratchet <==> didAdjustHeapLimit)
    ensures a.Relax? ==> (a.moderate <==> SizeAdd(total, total / 4) > limit)
    ensures a == NoAction <==> total <= limit && flags.collectAllAvailableGarbage
  {
    if total > limit then
      if flags.forced || flags.collectAllAvailableGarbage then TerminateIsolate else RequestCritical
    else if !flags.collectAllAvailableGarbage then
      Relax(didAdjustHeapLimit, SizeAdd(total, total / 4) > limit)
    else NoAction
  }

  /**
   * The "moderate pressure at 80%" test `total + total / 4 > limit` holds
   * only above 80% of the limit, and always holds a few bytes above it
   * (integer division loses at most three quarters).
   */
  lemma ModerateThresholdIsEightyPercent(total: Size, limit: Size)
    requires total + total / 4 < SIZE_MODULUS
    ensures SizeAdd(total, total / 4) > limit ==> 5 * total > 4 * limit
    ensures 5 * total > 4 * limit + 12 ==> SizeAdd(total, total / 4) > limit
  {
    var q, r := total / 4, total % 4;
    assert total == 4 * q + r;
  }

  /**
   * Because `misc_memory_size` was computed from the engine's initial heap
   * size limit, the GC epilogue terminates exactly when usage after a
   * forced or collect-all GC exceeds that initial limit.
   */
  lemma GcTerminatesOverInitialHeapLimit(used: Size, extra: Size, memoryLimit: Size,
                                         initialHeapSizeLimit: Size, flags: GcFlags, didAdjust: bool)
    ensures var limit := SizeAdd(memoryLimit, MiscMemorySize(initialHeapSizeLimit, memoryLimit));
      GcEpilogueAction(SizeAdd(used, extra), limit, flags, didAdjust) == TerminateIsolate
      <==> SizeAdd(used, extra) > initialHeapSizeLimit && (flags.forced || flags.collectAllAvailableGarbage)
  {
  }

  /** The pressure level the near-heap-limit callback requests: never none. */
  function NearHeapLimitPressure(total: Size, limit: Size): (level: PressureLevel)
    ensures level != NoPressure
    ensures level == Critical <==> total > limit
  {
    if total > limit then Critical else Moderate
  }

  /** The new heap limit the near-heap-limit callback returns. */
  function NearHeapLimitGrant(currentHeapLimit: Size): (newLimit: Size)
    ensures currentHeapLimit + HEAP_GRANT < SIZE_MODULUS ==> newLimit - currentHeapLimit == HEAP_GRANT
    ensures currentHeapLimit + HEAP_GRANT >= SIZE_MODULUS ==> newLimit < currentHeapLimit
  {
    SizeAdd(currentHeapLimit, HEAP_GRANT)
  }
  /** The environment's limits as the GC callbacks read them. */
  datatype HeapLimits = HeapLimits(
    memoryLimit: Size,
    miscMemorySize: Size,
    initialHeapSizeLimit: Size)

  /** What a GC callback reads from the engine's heap statistics. */
  datatype GcReading = GcReading(
    usedHeapSize: Size,
    heapSizeLimit: Size)     // as reported after the near-heap-limit callback is reinstalled

  /**
   * The forced collection a critical notification runs from inside a GC
   * epilogue: what the heap statistics report to the epilogue it runs
   * again, and the external memory left once that collection has freed
   * what it could (the allocator takes freed buffers off the counter).
   */
  datatype Collection = Collection(heap: GcReading, extraAllocatedMemory: Size)

  /**
   * The part of an environment the GC callbacks read and write; the
   * external memory counter is read afresh by every epilogue.
   */
  datatype GcState = GcState(
    extraAllocatedMemory: Size,
    didAdjustHeapLimit: bool,
    memoryPressure: PressureLevel,
    terminated: bool,
    hitMemoryLimit: bool,
    calls: seq<EngineCall>)

  /** Used heap plus external memory, as a `size_t` sum. */
  function TotalMemory(g: GcState, r: GcReading): Size
  {
    SizeAdd(r.usedHeapSize, g.extraAllocatedMemory)
  }

  /** What the epilogue run again after the collection `c` finds in use. */
  function CollectedTotal(c: Collection): Size
  {
    SizeAdd(c.heap.usedHeapSize, c.extraAllocatedMemory)
  }

  /** The memory limit plus `misc_memory_size`, as a `size_t` sum. */
  function EngineLimit(lim: HeapLimits): Size
  {
    SizeAdd(lim.memoryLimit, lim.miscMemorySize)
  }

  /** `Terminate` as the GC callbacks see it: stop the engine, release the holder. */
  function Terminated(g: GcState): GcState
  {
    g.(terminated := true, calls := g.calls + [TerminateExecution, ReleaseHolderIsolate])
  }

  /** GC epilogues of forced and collect-all collections do not request another collection. */
  function GcRank(flags: GcFlags): nat
  {
    if flags.forced || flags.collectAllAvailableGarbage then 0 else 1
  }

  /** Only a critical request made from inside a GC, not as an interrupt, runs the epilogue again. */
  function RequestRank(level: PressureLevel, isReentrantGc: bool, asInterrupt: bool): nat
  {
    if level == Critical && isReentrantGc && !asInterrupt then 1 else 0
  }

  /**
   * `MarkSweepCompactEpilogue`: `r` is what the heap statistics report to
   * this epilogue, `c` the forced collection a critical request runs from
   * inside it, after which the epilogue runs again.
   */
  function GcEpilogue(g: GcState, lim: HeapLimits, flags: GcFlags, r: GcReading, c: Collection): GcState
    decreases GcRank(flags), 1
  {
    match GcEpilogueAction(TotalMemory(g, r), EngineLimit(lim), flags, g.didAdjustHeapLimit)
    case TerminateIsolate => Terminated(g).(hitMemoryLimit := true)
    case RequestCritical => PressureRequest(g, lim, Critical, true, false, c)
    case Relax(ratchet, moderate) =>
      var g1 := if ratchet then g.(calls := g.calls + [ReinstallNearHeapLimitCallback(lim.memoryLimit)],
                                   didAdjustHeapLimit := r.heapSizeLimit != lim.initialHeapSizeLimit)
                else g;
      if moderate then PressureRequest(g1, lim, Moderate, true, false, c) else g1
    case NoAction => g
  }

  /**
   * `RequestMemoryPressureNotification` (engines from 6.9.406 on): as an
   * interrupt, the level is left pending for `CheckMemoryPressure`;
   * otherwise it is delivered at once, and a critical notification from
   * inside a GC runs the collection `c`, which leaves its external memory
   * behind, and then the epilogue again as for a forced collection.
   */
  function PressureRequest(g: GcState, lim: HeapLimits, level: PressureLevel,
                           isReentrantGc: bool, asInterrupt: bool, c: Collection): GcState
    decreases RequestRank(level, isReentrantGc, asInterrupt), 0
  {
    if asInterrupt then
      g.(memoryPressure := level, calls := g.calls + [RequestInterrupt(MemoryPressureInterrupt)])
    else
      var g1 := g.(memoryPressure := NoPressure, calls := g.calls + [MemoryPressureNotification(level)]);
      if isReentrantGc && level == Critical then
        GcEpilogue(g1.(extraAllocatedMemory := c.extraAllocatedMemory), lim, GcFlags(true, false), c.heap, c)
      else g1
  }

  /** `NearHeapLimitCallback`'s effect on the environment. */
  function NearHeapLimit(g: GcState, lim: HeapLimits, r: GcReading): GcState
  {
    PressureRequest(g.(didAdjustHeapLimit := true), lim,
                    NearHeapLimitPressure(TotalMemory(g, r), EngineLimit(lim)), true, true,
                    Collection(r, g.extraAllocatedMemory))
  }

  /**
   * The epilogue ends with the memory limit hit (and the environment
   * terminated) exactly when usage is over the limit and either the GC was
   * forced or collect-all, or it was not and usage, heap and external
   * memory read afresh, is still over the limit after the forced
   * collection the critical notification triggers.
   */
  lemma GcEpilogueHitsLimit(g: GcState, lim: HeapLimits, flags: GcFlags, r: GcReading, c: Collection)
    ensures var g' := GcEpilogue(g, lim, flags, r, c);
      var over := TotalMemory(g, r) > EngineLimit(lim);
      var stillOver := CollectedTotal(c) > EngineLimit(lim);
      var hit := over && (flags.forced || flags.collectAllAvailableGarbage || stillOver);
      && (g'.hitMemoryLimit <==> g.hitMemoryLimit || hit)
      && (g'.terminated <==> g.terminated || hit)
  {
    var over := TotalMemory(g, r) > EngineLimit(lim);
    if over && !flags.forced && !flags.collectAllAvailableGarbage {
      var g1 := g.(extraAllocatedMemory := c.extraAllocatedMemory, memoryPressure := NoPressure,
                   calls := g.calls + [MemoryPressureNotification(Critical)]);
      assert GcEpilogue(g, lim, flags, r, c) == GcEpilogue(g1, lim, GcFlags(true, false), c.heap, c);
      assert TotalMemory(g1, c.heap) == CollectedTotal(c);
      if CollectedTotal(c) <= EngineLimit(lim) {
        RelaxKeepsLimitFlags(g1, lim, GcFlags(true, false), c.heap, c);
      }
    } else if !over {
      RelaxKeepsLimitFlags(g, lim, flags, r, c);
    }
  }

  /** Under the limit, the epilogue neither terminates nor marks the limit hit. */
  lemma RelaxKeepsLimitFlags(g: GcState, lim: HeapLimits, flags: GcFlags, r: GcReading, c: Collection)
    requires TotalMemory(g, r) <= EngineLimit(lim)
    ensures var g' := GcEpilogue(g, lim, flags, r, c);
      g'.hitMemoryLimit == g.hitMemoryLimit && g'.terminated == g.terminated
  {
  }

  /**
   * Under the limit after an ordinary (not collect-all) GC: the
   * near-heap-limit callback is reinstalled, asking the engine to restore
   * its heap limit to the memory limit, exactly when the limit had been
   * raised, the raise is forgotten exactly when the engine reports the
   * initial limit again, and moderate pressure is delivered exactly when
   * usage is over 80% (`total + total / 4 > limit`), whether or not the
   * ratchet ran. A collect-all GC under the limit changes nothing.
   */
  lemma GcEpilogueUnderLimit(g: GcState, lim: HeapLimits, flags: GcFlags, r: GcReading, c: Collection)
    requires TotalMemory(g, r) <= EngineLimit(lim)
    ensures var g' := GcEpilogue(g, lim, flags, r, c);
      var total := TotalMemory(g, r);
      var moderate := SizeAdd(total, total / 4) > EngineLimit(lim);
      if flags.collectAllAvailableGarbage then g' == g
      else
        && (g'.didAdjustHeapLimit <==> g.didAdjustHeapLimit && r.heapSizeLimit != lim.initialHeapSizeLimit)
        && g'.calls == g.calls + (if g.didAdjustHeapLimit then [ReinstallNearHeapLimitCallback(lim.memoryLimit)] else [])
                               + (if moderate then [MemoryPressureNotification(Moderate)] else [])
        && g'.memoryPressure == (if moderate then NoPressure else g.memoryPressure)
        && g'.terminated == g.terminated && g'.hitMemoryLimit == g.hitMemoryLimit
        && g'.extraAllocatedMemory == g.extraAllocatedMemory
  {
  }

  /**
   * Over the limit after an ordinary GC: critical pressure is delivered at
   * once, the collection it triggers leaves its external memory behind,
   * and the epilogue then runs again as for a forced collection, reading
   * the heap and that external memory afresh.
   */
  lemma GcEpilogueOverLimit(g: GcState, lim: HeapLimits, flags: GcFlags, r: GcReading, c: Collection)
    requires TotalMemory(g, r) > EngineLimit(lim)
    requires !flags.forced && !flags.collectAllAvailableGarbage
    ensures var g' := GcEpilogue(g, lim, flags, r, c);
      var g1 := g.(extraAllocatedMemory := c.extraAllocatedMemory, memoryPressure := NoPressure,
                   calls := g.calls + [MemoryPressureNotification(Critical)]);
      && g' == GcEpilogue(g1, lim, GcFlags(true, false), c.heap, c)
      && TotalMemory(g1, c.heap) == CollectedTotal(c)
      && g.calls + [MemoryPressureNotification(Critical)] <= g'.calls
      && g'.extraAllocatedMemory == c.extraAllocatedMemory
  {
    var g1 := g.(extraAllocatedMemory := c.extraAllocatedMemory, memoryPressure := NoPressure,
                 calls := g.calls + [MemoryPressureNotification(Critical)]);
    GcEpilogueExtends(g1, lim, GcFlags(true, false), c.heap, c);
  }

  /** A forced epilogue only ever appends engine calls and runs no further collection. */
  lemma GcEpilogueExtends(g: GcState, lim: HeapLimits, flags: GcFlags, r: GcReading, c: Collection)
    requires flags.forced
    ensures var g' := GcEpilogue(g, lim, flags, r, c);
      g.calls <= g'.calls && g'.extraAllocatedMemory == g.extraAllocatedMemory
  {
  }

  /**
   * The near-heap-limit callback always records that the limit was raised,
   * and leaves a pending pressure request (critical exactly when usage is
   * over the limit, moderate otherwise) for the interrupt it requests.
   */
  lemma NearHeapLimitRequestsPressure(g: GcState, lim: HeapLimits, r: GcReading)
    ensures var g' := NearHeapLimit(g, lim, r);
      && g'.didAdjustHeapLimit
      && g'.memoryPressure != NoPressure
      && (g'.memoryPressure == Critical <==> TotalMemory(g, r) > EngineLimit(lim))
      && g'.calls == g.calls + [RequestInterrupt(MemoryPressureInterrupt)]
      && g'.terminated == g.terminated && g'.hitMemoryLimit == g.hitMemoryLimit
      && g'.extraAllocatedMemory == g.extraAllocatedMemory
  {
  }

  /**
   * The ratchet: once the near-heap-limit callback has raised the limit,
   * the next ordinary GC that ends under the limit reinstalls the callback,
   * which restores the engine's heap limit to the memory limit, and
   * forgets the raise exactly when the engine reports its initial heap
   * limit again.
   */
  lemma RatchetAfterNearHeapLimit(g: GcState, lim: HeapLimits, near: GcReading,
                                  flags: GcFlags, r: GcReading, c: Collection)
    requires !flags.collectAllAvailableGarbage
    requires TotalMemory(g, r) <= EngineLimit(lim)
    ensures var g1 := NearHeapLimit(g, lim, near);
      var g2 := GcEpilogue(g1, lim, flags, r, c);
      && g1.didAdjustHeapLimit
      && |g2.calls| > |g1.calls| && g2.calls[|g1.calls|] == ReinstallNearHeapLimitCallback(lim.memoryLimit)
      && (g2.didAdjustHeapLimit <==> r.heapSizeLimit != lim.initialHeapSizeLimit)
  {
    var g1 := NearHeapLimit(g, lim, near);
    NearHeapLimitRequestsPressure(g, lim, near);
    GcEpilogueUnderLimit(g1, lim, flags, r, c);
  }

  /**
   * The ratchet keeps going while the grants are still in force: after two
   * back-to-back grants from a limit no lower than the initial one, an
   * ordinary GC under the limit that still sees the raised limit (two GiB
   * up) reinstalls the callback but remembers the raise, so the next
   * ordinary GC under the limit reinstalls it again, and forgets the raise
   * exactly when the engine then reports its initial limit.
   */
  lemma TwoGrantsThenRatchet(g: GcState, lim: HeapLimits, current: Size, first: GcReading, second: GcReading,
                             flags: GcFlags, r: GcReading, c: Collection, r2: GcReading, c2: Collection)
    requires lim.initialHeapSizeLimit <= current && current + 2 * HEAP_GRANT < SIZE_MODULUS
    requires r.heapSizeLimit == NearHeapLimitGrant(NearHeapLimitGrant(current))
    requires !flags.collectAllAvailableGarbage
    requires TotalMemory(g, r) <= EngineLimit(lim) && TotalMemory(g, r2) <= EngineLimit(lim)
    ensures var g2 := NearHeapLimit(NearHeapLimit(g, lim, first), lim, second);
      var g3 := GcEpilogue(g2, lim, flags, r, c);
      var g4 := GcEpilogue(g3, lim, flags, r2, c2);
      && r.heapSizeLimit == current + 2 * HEAP_GRANT
      && |g3.calls| > |g2.calls| && g3.calls[|g2.calls|] == ReinstallNearHeapLimitCallback(lim.memoryLimit)
      && g3.didAdjustHeapLimit
      && |g4.calls| > |g3.calls| && g4.calls[|g3.calls|] == ReinstallNearHeapLimitCallback(lim.memoryLimit)
      && (g4.didAdjustHeapLimit <==> r2.heapSizeLimit != lim.initialHeapSizeLimit)
  {
    var g1 := NearHeapLimit(g, lim, first);
    var g2 := NearHeapLimit(g1, lim, second);
    NearHeapLimitRequestsPressure(g, lim, first);
    NearHeapLimitRequestsPressure(g1, lim, second);
    GcEpilogueUnderLimit(g2, lim, flags, r, c);
    var g3 := GcEpilogue(g2, lim, flags, r, c);
    GcEpilogueUnderLimit(g3, lim, flags, r2, c2);
  }
}
