/**
 * Shared vocabulary of the isolate environment model: identities of engine
 * objects, the engine's memory-pressure levels, the errors the environment
 * raises, and the calls it makes into the script engine and the host loop
 * (recorded, never performed).
 */
module Base {

  datatype Option<+T> = None | Some(value: T)

  /** Result of an operation that either completes or throws. */
  datatype Outcome = Pass | Fail(error: Error)

  /** The exception kinds thrown by the environment. */
  datatype Error =
    | LogicError(message: string)      // std::logic_error: misuse by the caller
    | FatalError(message: string)      // js_fatal_error: resource exhaustion, isolate is gone
    | RuntimeError                     // js_runtime_error: a JavaScript exception is pending

  const MEMORY_LIMIT_MESSAGE := "Isolate was disposed during execution due to memory limit"

  /** An opaque unit of work (a `Runnable`); only its identity is observable. */
  type Runnable = nat

  /** Identity of a `v8::Isolate`. */
  type IsolateId = nat

  /** Identity of the `IsolateHolder` that owns an environment. */
  type HolderId = nat

  /** Identity of a `Persistent<Object>` handle with a weak callback. */
  type Handle = nat

  /** A weak callback: the function pointer and its opaque argument. */
  datatype WeakCallback = WeakCallback(fn: nat, param: nat)

  /** v8::MemoryPressureLevel. */
  datatype PressureLevel = NoPressure | Moderate | Critical

  /** The interrupt callbacks the environment asks the engine to invoke. */
  datatype InterruptCallback = AsyncCallbackInterrupt | SyncCallbackInterrupt | MemoryPressureInterrupt

  /** Calls into the script engine (and the holder), in the order they were made. */
  datatype EngineCall =
    | RequestInterrupt(callback: InterruptCallback)
    | LowMemoryNotification
    | MemoryPressureNotification(level: PressureLevel)
    /** RemoveNearHeapLimitCallback, which restores the engine's heap limit to
        `heapLimit`, then AddNearHeapLimitCallback. */
    | ReinstallNearHeapLimitCallback(heapLimit: nat)
    | TerminateExecution
    | ReleaseHolderIsolate              // holder->isolate.reset()
    | RunMicrotasks
    | ThrowRejectedPromise
    | DiscardThreadSpecificMetadata
    | DisposeIsolate
    | InvokeWeakCallback(handle: Handle, weak: WeakCallback)
}
