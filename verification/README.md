# s6i_result and s6i_sync in Dafny

This project models the core of a small C++ library built on SDL:

- `s6i_result::Result<T, E>`: exactly one of a success value or a failure
  value. It has consuming accessors, which abort on the wrong variant, and the
  combinators `map`, `map_err`, `and_then`, `inspect_ok`, `inspect_err` and
  `unwrap_or`.
- `s6i_sync::Mutex<T>` and `MutexGuard<T>`: a move-only lock that owns the
  value it protects, and the scoped guard that a successful `lock()` returns.
  The model covers the handle life cycle (make, move, move-assign, swap,
  destroy) and how `lock` dispatches errors.
- `s6i_sync::CondVar`: the same handle life cycle, plus error dispatch for
  `wait`, `signal` and `broadcast`.

Layout, one module per file:

| file | module | models |
|---|---|---|
| `options.dfy` | `Options` | nullable values (`None` is a null pointer or handle) |
| `result.dfy` | `Results` | `result.h` |
| `sync_error.dfy` | `SyncErrors` | `error.h` |
| `handles.dfy` | `Handles` | platform handles, and the count of which object must release which handle |
| `mutex.dfy` | `Mutexes` | one `Mutex<T>` and one `MutexGuard<T>` as plain values |
| `mutex_world.dfy` | `MutexWorlds` | mutexes and guards at addresses, with the platform's live handles and held locks |
| `cond_var.dfy` | `CondVars` | one `CondVar` and its three operations |
| `cond_var_world.dfy` | `CondVarWorlds` | condition-variable objects at addresses, with the platform's live handles |

The SDL platform is never called. Each place where the source calls it
takes the answer as a parameter instead:

- `created: Option<Handle>` is what `SDL_CreateMutex` or `SDL_CreateCond`
  returned.
- `lockOk`, `waitOk`, `signalOk` and `broadcastOk` say whether the
  corresponding call succeeded.

Destructors and move assignments return the handle they give back to the
platform. The condition-variable operations return the platform call they
made, if any, so the model can state "checked before any platform call".

A guard's value pointer is the address of the mutex object it points into.
It therefore follows that object, not the handle, through a later swap, as
the C++ pointer does. The world modules keep two multisets:

- `live`: the handles created and not yet destroyed.
- `held`: the locks taken and not yet released.

`Good` states the move-only discipline:

- every live handle is owned by exactly one object;
- every held lock is owned by exactly one guard.

Every operation preserves `Good`. So leaving the scope unlocks every lock
exactly once and destroys every handle exactly once (`ScopeExitReleasesEverything`,
`DestroyCondVarsDestroysEachOnce`).

Where the code and its own declarations disagree, the model follows the code:

- The enumeration in `error.h` has no `InvalidCondVarError` and no
  `CondVarBroadcastError`. Its comment says `CondVarSignalError` covers
  signal and broadcast. But `cond_var.h` returns `InvalidCondVarError`
  (lines 58, 78, 98) and `CondVarBroadcastError` (line 104). `SyncError`
  here has both, and broadcast failures are distinct from signal failures.
- `cond_var.h:60` calls `guard.get_raw()`, which `MutexGuard` does not
  declare. The model reads the guard's mutex handle field directly.

## Model

| member | source | states |
|---|---|---|
| Results.IsOk | modules/s6i_result/include/s6i_result/result.h:79-82 | a Result is Ok exactly when it is not Err; the two tags never coincide, even when T and E are the same type |
| Results.MakeOk | modules/s6i_result/include/s6i_result/result.h:27-30 | a Result built from a success value is Ok and unwraps to exactly that value |
| Results.MakeErr | modules/s6i_result/include/s6i_result/result.h:50-53 | a Result built from a failure value is Err and unwrap_err gives exactly that value |
| Results.Unwrap | modules/s6i_result/include/s6i_result/result.h:88-91 | only callable on Ok; the Result is exactly Ok of the returned value |
| Results.UnwrapErr | modules/s6i_result/include/s6i_result/result.h:126-129 | only callable on Err; the Result is exactly Err of the returned value |
| Results.UnwrapOr | modules/s6i_result/include/s6i_result/result.h:97-102 | no precondition; the Ok value on success and the default on failure |
| Results.UnwrapOrIgnoresDefaultOnOk | modules/s6i_result/include/s6i_result/result.h:97-102 | on success the default is irrelevant and the answer equals unwrap |
| Results.RefOk | modules/s6i_result/include/s6i_result/result.h:108-120 | only callable on Ok; reads the same value unwrap would |
| Results.AssignOk | modules/s6i_result/include/s6i_result/result.h:108-111 | writing through ref_ok keeps the Result Ok and the next read sees the written value |
| Results.RefErr | modules/s6i_result/include/s6i_result/result.h:135-147 | only callable on Err; reads the same value unwrap_err would |
| Results.AssignErr | modules/s6i_result/include/s6i_result/result.h:135-138 | writing through ref_err keeps the Result Err and the next read sees the written value |
| Results.Map | modules/s6i_result/include/s6i_result/result.h:153-160 | the tag is kept; an Ok value v becomes f(v); an error passes through untouched |
| Results.MapIdentity | modules/s6i_result/include/s6i_result/result.h:153-160 | map with the identity function changes nothing |
| Results.MapCompose | modules/s6i_result/include/s6i_result/result.h:153-160 | two maps equal one map of the composed function |
| Results.MapErr | modules/s6i_result/include/s6i_result/result.h:166-173 | the tag is kept; an error e becomes f(e); an Ok value passes through untouched |
| Results.MapErrIdentity | modules/s6i_result/include/s6i_result/result.h:166-173 | map_err with the identity function changes nothing |
| Results.MapErrCompose | modules/s6i_result/include/s6i_result/result.h:166-173 | two map_errs equal one map_err of the composed function |
| Results.MapMapErrCommute | modules/s6i_result/include/s6i_result/result.h:153-173 | map and map_err act on different sides and commute |
| Results.InspectOk | modules/s6i_result/include/s6i_result/result.h:179-186 | returns the Result unchanged; the callback fires, on the Ok value, exactly when the Result is Ok |
| Results.InspectErr | modules/s6i_result/include/s6i_result/result.h:192-199 | returns the Result unchanged; the callback fires, on the error, exactly when the Result is Err |
| Results.InspectExactlyOneFires | modules/s6i_result/include/s6i_result/result.h:179-199 | of inspect_ok and inspect_err, exactly one runs its callback |
| Results.AndThen | modules/s6i_result/include/s6i_result/result.h:205-212 | on Ok(v) the result is f(v); on Err(e) it short-circuits to an error equal to e |
| Results.MapIsAndThenOk | modules/s6i_result/include/s6i_result/result.h:205-212 | map(f) is and_then with a step that always succeeds with f's value |
| Results.AndThenLeftIdentity | modules/s6i_result/include/s6i_result/result.h:205-212 | and_then on a freshly made success is the step applied to that value |
| Results.AndThenRightIdentity | modules/s6i_result/include/s6i_result/result.h:205-212 | and_then with a step that just succeeds gives the same Result back |
| Results.AndThenAssociative | modules/s6i_result/include/s6i_result/result.h:205-212 | regrouping a chain of and_then steps does not change the result |
| Results.Chain | modules/s6i_result/include/s6i_result/result.h:205-212 | a failure fed into any and_then pipeline comes out unchanged |
| Results.ChainAppend | modules/s6i_result/include/s6i_result/result.h:205-212 | a pipeline split in two runs the first part and feeds its result to the second |
| Results.ChainStopsAtFirstErr | modules/s6i_result/include/s6i_result/result.h:205-212 | once a prefix of the pipeline has failed, the whole pipeline ends with that same failure |
| Results.Consume | modules/s6i_result/include/s6i_result/result.h:153-212 | a combinator call returns what its operation makes of the whole original Result, and leaves the variable it was called on with the same alternative holding the moved-from residue |
| Results.ConsumeKeepsAlternative | modules/s6i_result/include/s6i_result/result.h:153-212 | what a combinator call leaves in the variable does not depend on which combinator it was, and keeps the variable Err exactly when it was Err |
| Results.UnwrapMove | modules/s6i_result/include/s6i_result/result.h:88-91 | only callable on Ok; returns the whole success value (Ok of it is the original Result) and leaves the variable Ok holding the residue |
| Results.UnwrapErrMove | modules/s6i_result/include/s6i_result/result.h:126-129 | only callable on Err; returns the whole failure value and leaves the variable Err holding the residue |
| Results.UnwrapOrMove | modules/s6i_result/include/s6i_result/result.h:97-102 | on Ok moves the value out and leaves the residue; on Err returns the default and leaves the variable untouched |
| Results.UnwrapTwiceGivesResidue | modules/s6i_result/include/s6i_result/result.h:88-102 | after an unwrap the variable is still Ok, but a second unwrap or unwrap_or yields the moved-from residue, not the value |
| Handles.OwnedMoveOut | modules/s6i_sync/include/s6i_sync/mutex.h:39-42 | a move construction nulls the source and hands its handle to the new object; the owned handles are unchanged |
| Handles.OwnedSwap | modules/s6i_sync/include/s6i_sync/mutex.h:65-69 | a swap leaves the owned handles unchanged |
| Handles.OwnedMoveAssign | modules/s6i_sync/include/s6i_sync/mutex.h:44-47 | a move assignment between distinct objects gives up exactly the target's old handle |
| Mutexes.Make | modules/s6i_sync/include/s6i_sync/mutex.h:26-32 | Err(MutexCreationError) exactly when platform creation failed; otherwise a valid mutex on the new handle holding the initial value |
| Mutexes.MoveConstruct | modules/s6i_sync/include/s6i_sync/mutex.h:39-42 | the destination gets the source's handle and value; the source's handle becomes null |
| Mutexes.Swap | modules/s6i_sync/include/s6i_sync/mutex.h:65-69 | exchanges handle and value, nothing else |
| Mutexes.SwapTwice | modules/s6i_sync/include/s6i_sync/mutex.h:65-69 | swapping twice is the identity |
| Mutexes.MoveAssign | modules/s6i_sync/include/s6i_sync/mutex.h:44-47 | via temporary and swap: the destination ends with the source's handle and value, the source is invalid, and the destination's old handle is the one destroyed |
| Mutexes.MoveAssignKeepsHandles | modules/s6i_sync/include/s6i_sync/mutex.h:44-49 | a move assignment neither creates nor loses a handle |
| Mutexes.Lock | modules/s6i_sync/include/s6i_sync/mutex.h:55-63 | null handle gives InvalidMutexError whatever the platform says; else a platform failure gives MutexLockError; else Ok of a guard on this handle pointing at this mutex's value |
| Mutexes.MovedFromCannotLock | modules/s6i_sync/tests/mutex_test.cpp:116-126 | after a move, locking the source yields InvalidMutexError on every attempt |
| Mutexes.MovedToLocksAsOriginal | modules/s6i_sync/include/s6i_sync/mutex.h:39-42 | the moved-to mutex locks exactly as the original would have |
| Mutexes.GuardMoveConstruct | modules/s6i_sync/include/s6i_sync/mutex.h:94-98 | the new guard takes handle and value pointer; the source's two pointers become null |
| Mutexes.GuardMoveKeepsOneUnlock | modules/s6i_sync/include/s6i_sync/mutex.h:94-100 | after a guard move exactly one of the two guards will unlock the lock |
| Mutexes.GuardSwap | modules/s6i_sync/include/s6i_sync/mutex.h:116-120 | exchanges the handle and value pointer of two guards |
| Mutexes.GuardSwapTwice | modules/s6i_sync/include/s6i_sync/mutex.h:116-120 | swapping guards twice is the identity |
| Mutexes.GuardMoveAssign | modules/s6i_sync/include/s6i_sync/mutex.h:106-109 | the destination guard takes the source's lock, the source is inert, and the destination's old lock is the one unlocked |
| Mutexes.GuardMoveAssignKeepsUnlocks | modules/s6i_sync/include/s6i_sync/mutex.h:100-109 | a guard move assignment neither creates nor loses a pending unlock |
| Mutexes.UnwrappedMutexLeavesNullHandle | modules/s6i_sync/tests/mutex_test.cpp:10-12 | after `make(...).unwrap()` the unwrapped mutex owns the created handle and the mutex left in the Result destroys nothing |
| Mutexes.UnwrappedGuardUnlocksOnce | modules/s6i_sync/tests/mutex_test.cpp:15-20 | after `lock().unwrap()` the Result holds an inert guard, so the lock is unlocked exactly once between the unwrapped guard and the Result |
| Mutexes.MutexErrorsAreMutexFamily | modules/s6i_sync/include/s6i_sync/error.h:9-12 | every failure make and lock report is one of the mutex error kinds |
| MutexWorlds.NewMutex | modules/s6i_sync/include/s6i_sync/mutex.h:26-32 | a new object and a new live handle on success; nothing changes on failure |
| MutexWorlds.NewMutexKeepsGood | modules/s6i_sync/include/s6i_sync/mutex.h:26-32 | making a mutex keeps every live handle owned by exactly one object |
| MutexWorlds.MoveMutex | modules/s6i_sync/include/s6i_sync/mutex.h:39-42 | the new object holds the source's state, the source is null with the moved-from value, nothing else changes |
| MutexWorlds.MoveMutexKeepsGood | modules/s6i_sync/include/s6i_sync/mutex.h:39-42 | move construction keeps the ownership discipline |
| MutexWorlds.AssignMutex | modules/s6i_sync/include/s6i_sync/mutex.h:44-47 | self-assignment is a no-op; otherwise the target takes the source's state, the source is null, and only the target's old handle is destroyed |
| MutexWorlds.AssignMutexKeepsGood | modules/s6i_sync/include/s6i_sync/mutex.h:44-47 | move assignment keeps the ownership discipline |
| MutexWorlds.SwapMutexes | modules/s6i_sync/include/s6i_sync/mutex.h:65-69 | exchanges two objects' states and nothing else |
| MutexWorlds.SwapMutexesKeepsGood | modules/s6i_sync/include/s6i_sync/mutex.h:65-69 | swap keeps the ownership discipline |
| MutexWorlds.DropMutex | modules/s6i_sync/include/s6i_sync/mutex.h:49 | the destructor destroys the object's handle, or nothing when it is null |
| MutexWorlds.DropMutexKeepsGood | modules/s6i_sync/include/s6i_sync/mutex.h:49 | destruction keeps the ownership discipline |
| MutexWorlds.LockMutex | modules/s6i_sync/include/s6i_sync/mutex.h:55-63 | errors leave the world unchanged; success adds one guard and one held lock on the mutex's handle |
| MutexWorlds.LockMutexKeepsGood | modules/s6i_sync/include/s6i_sync/mutex.h:55-63 | locking keeps every held lock owned by exactly one guard |
| MutexWorlds.MoveGuard | modules/s6i_sync/include/s6i_sync/mutex.h:94-98 | the new guard takes the source's pointers, the source becomes inert |
| MutexWorlds.MoveGuardKeepsGood | modules/s6i_sync/include/s6i_sync/mutex.h:94-98 | a guard move keeps every held lock owned by exactly one guard |
| MutexWorlds.AssignGuard | modules/s6i_sync/include/s6i_sync/mutex.h:106-109 | self-assignment is a no-op; otherwise the target takes the source's lock, the source is inert, and only the target's old lock is released |
| MutexWorlds.AssignGuardKeepsGood | modules/s6i_sync/include/s6i_sync/mutex.h:106-109 | guard move assignment keeps the discipline |
| MutexWorlds.SwapGuards | modules/s6i_sync/include/s6i_sync/mutex.h:116-120 | exchanges two guards and nothing else |
| MutexWorlds.SwapGuardsKeepsGood | modules/s6i_sync/include/s6i_sync/mutex.h:116-120 | guard swap keeps the discipline |
| MutexWorlds.DropGuard | modules/s6i_sync/include/s6i_sync/mutex.h:100 | the guard's destructor releases its lock, or nothing for an inert guard |
| MutexWorlds.DropGuardKeepsGood | modules/s6i_sync/include/s6i_sync/mutex.h:100 | guard destruction keeps the discipline |
| MutexWorlds.Write | modules/s6i_sync/include/s6i_sync/mutex.h:111-114 | writing through a guard changes only the value of the mutex object it points into, and a read through it sees the write |
| MutexWorlds.WriteKeepsGood | modules/s6i_sync/include/s6i_sync/mutex.h:111-114 | writing through a guard keeps the discipline |
| MutexWorlds.WriteIsSeenByNextLock | modules/s6i_sync/tests/mutex_test.cpp:14-28 | a value written through a guard persists after the guard is destroyed and is what the next lock sees |
| MutexWorlds.MovedMutexLocks | modules/s6i_sync/tests/mutex_test.cpp:116-133 | after a move the source fails with InvalidMutexError and changes nothing on every attempt; the destination locks and sees the original value |
| MutexWorlds.AssignedMutexLocks | modules/s6i_sync/tests/mutex_test.cpp:67-78 | after a move assignment the target locks and sees the source's value; the source no longer locks |
| MutexWorlds.AssignOverLockedMutex | modules/s6i_sync/include/s6i_sync/mutex.h:44-49 | a concrete world where move-assigning onto a locked mutex keeps the ownership discipline yet destroys a handle that is still held, and leaves the guard reading the other mutex's value |
| MutexWorlds.ReleaseGuards | modules/s6i_sync/include/s6i_sync/mutex.h:100 | destroying all guards leaves no guard and touches no mutex object |
| MutexWorlds.ReleaseGuardsUnlocksEachOnce | modules/s6i_sync/include/s6i_sync/mutex.h:100 | the unlocks done by destroying all guards are exactly the held locks, each as often as it was taken |
| MutexWorlds.DestroyMutexes | modules/s6i_sync/include/s6i_sync/mutex.h:49 | destroying all mutex objects leaves none and does not touch the held locks |
| MutexWorlds.DestroyMutexesDestroysEachOnce | modules/s6i_sync/include/s6i_sync/mutex.h:49 | the handles destroyed are exactly the live ones, each once |
| MutexWorlds.ScopeExitReleasesEverything | modules/s6i_sync/include/s6i_sync/mutex.h:49-100 | leaving the scope unlocks every held lock once, destroys every live handle once, and leaves nothing |
| CondVars.Make | modules/s6i_sync/include/s6i_sync/cond_var.h:22-31 | Err(CondVarCreationError) exactly when platform creation failed; otherwise a usable condition variable on the new handle |
| CondVars.MoveConstruct | modules/s6i_sync/include/s6i_sync/cond_var.h:38 | the destination takes the handle, the source becomes null |
| CondVars.Swap | modules/s6i_sync/include/s6i_sync/cond_var.h:109-112 | exchanges only the handles |
| CondVars.SwapTwice | modules/s6i_sync/include/s6i_sync/cond_var.h:109-112 | swapping twice is the identity |
| CondVars.MoveAssign | modules/s6i_sync/include/s6i_sync/cond_var.h:40-43 | the destination takes the source's handle, the source is null, and the destination's old handle is destroyed |
| CondVars.MoveAssignKeepsHandles | modules/s6i_sync/include/s6i_sync/cond_var.h:40-48 | a move assignment neither creates nor loses a handle |
| CondVars.Wait | modules/s6i_sync/include/s6i_sync/cond_var.h:55-66 | null handle gives InvalidCondVarError with no platform call; else one wait call with this handle and the guard's mutex, failing with CondVarWaitError |
| CondVars.Signal | modules/s6i_sync/include/s6i_sync/cond_var.h:74-86 | null handle gives InvalidCondVarError with no platform call; else one signal call, failing with CondVarSignalError |
| CondVars.Broadcast | modules/s6i_sync/include/s6i_sync/cond_var.h:94-107 | null handle gives InvalidCondVarError with no platform call; else one broadcast call, failing with CondVarBroadcastError |
| CondVars.FailureKindsIdentifyOperation | modules/s6i_sync/include/s6i_sync/cond_var.h:60-104 | on a usable condition variable, wait, signal and broadcast fail with three distinct condition-variable error kinds |
| CondVars.SignalBroadcastIgnoreGuard | modules/s6i_sync/include/s6i_sync/cond_var.h:74-96 | signal and broadcast do not depend on the guard passed |
| CondVars.CondVarErrorsAreCondVarFamily | modules/s6i_sync/include/s6i_sync/error.h:19-22 | every failure make, wait, signal and broadcast report is one of the condition-variable error kinds |
| CondVars.Run | modules/s6i_sync/include/s6i_sync/cond_var.h:55-107 | the outcomes of a sequence of operations on one condition variable are, position by position, the outcome each operation gives on its own, and there is one per operation |
| CondVars.MovedFromAlwaysInvalid | modules/s6i_sync/tests/cond_var_test.cpp:141-156 | a moved-from condition variable answers every operation, repeatedly, with InvalidCondVarError and no platform call |
| CondVars.MovedToBehavesAsOriginal | modules/s6i_sync/tests/cond_var_test.cpp:103-139 | the moved-to condition variable behaves exactly as the original did |
| CondVarWorlds.NewCondVar | modules/s6i_sync/include/s6i_sync/cond_var.h:22-31 | a new object and live handle on success; nothing changes on failure |
| CondVarWorlds.NewCondVarKeepsGood | modules/s6i_sync/include/s6i_sync/cond_var.h:22-31 | making a condition variable keeps every live handle owned by exactly one object |
| CondVarWorlds.MoveCondVar | modules/s6i_sync/include/s6i_sync/cond_var.h:38 | the new object takes the handle and the source is null |
| CondVarWorlds.MoveCondVarKeepsGood | modules/s6i_sync/include/s6i_sync/cond_var.h:38 | move construction keeps the discipline |
| CondVarWorlds.AssignCondVar | modules/s6i_sync/include/s6i_sync/cond_var.h:40-43 | self-assignment is a no-op; otherwise the target takes the handle, the source is null, and only the target's old handle is destroyed |
| CondVarWorlds.AssignCondVarKeepsGood | modules/s6i_sync/include/s6i_sync/cond_var.h:40-43 | move assignment keeps the discipline |
| CondVarWorlds.AssignedCondVarBehaves | modules/s6i_sync/include/s6i_sync/cond_var.h:40-43 | after a move assignment the target behaves as the source did and the source only ever answers InvalidCondVarError |
| CondVarWorlds.SwapCondVars | modules/s6i_sync/include/s6i_sync/cond_var.h:109-112 | exchanges two objects' handles and nothing else |
| CondVarWorlds.SwapCondVarsKeepsGood | modules/s6i_sync/include/s6i_sync/cond_var.h:109-112 | swap keeps the discipline |
| CondVarWorlds.DropCondVar | modules/s6i_sync/include/s6i_sync/cond_var.h:45-48 | the destructor destroys the object's handle, or nothing when it is null |
| CondVarWorlds.DropCondVarKeepsGood | modules/s6i_sync/include/s6i_sync/cond_var.h:45-48 | destruction keeps the discipline |
| CondVarWorlds.DestroyCondVars | modules/s6i_sync/include/s6i_sync/cond_var.h:45-48 | destroying all objects leaves none |
| CondVarWorlds.DestroyCondVarsDestroysEachOnce | modules/s6i_sync/include/s6i_sync/cond_var.h:45-48 | the handles destroyed are exactly the live ones, each once, and nothing is left |

## Left out

- Blocking, mutual exclusion between threads, and waking waiters: the
  counter, producer/consumer and broadcast tests depend on OS threads. A
  sequential model cannot express them. The platform's answer to each call
  is a parameter instead.
- The SDL functions (`SDL_CreateMutex`, `SDL_LockMutex`, `SDL_UnlockMutex`,
  `SDL_DestroyMutex`, `SDL_CreateCond`, `SDL_CondWait`, `SDL_CondSignal`,
  `SDL_CondBroadcast`, `SDL_DestroyCond`) belong to a foreign library. Their
  results are parameters. Their null-handle behaviour is modelled: destroy
  and unlock of null do nothing.
- `SDL_LogInfo` / `SDL_LogError` in `cond_var.h` only produce log output.
- `examples/example00/main.cpp`: window, renderer and event-loop glue.
- Deleted copy operations, `std::variant` storage, perfect forwarding, and
  the `Ok<T>` / `Err<E>` wrapper structs. The wrappers are the `Ok` / `Err`
  constructors of `Result`, and an assertion abort is a precondition.
- Results.InspectOk: the callback is a pure function. A C++ callback that
  takes the payload by non-const reference could modify it before the
  Result is returned; that case is not modelled. The function states the
  returned Result only; what the call leaves in the variable it was called
  on is `Results.Consume` with this function as its operation.
- Results.InspectErr: callback is pure, and what stays in the variable is
  `Results.Consume`, for the same reasons as `InspectOk`.
- Results.Map: states the returned Result only. The call also moves the
  variable it was called on into a local, leaving a moved-from payload;
  that effect is `Results.Consume`.
- Results.MapErr: returned Result only; the effect on the variable is `Results.Consume`.
- Results.AndThen: returned Result only; the effect on the variable is `Results.Consume`.
- Results.Unwrap: a pure read of the value. Moving it out of the variable,
  which is left holding the residue, is `Results.UnwrapMove`.
- Results.UnwrapErr: a pure read; the move out of the variable is `Results.UnwrapErrMove`.
- Results.UnwrapOr: a pure read; the move out of the variable on success is `Results.UnwrapOrMove`.
- MutexWorlds.NewMutex: places the made mutex directly at its address,
  leaving out the Result temporary it is unwrapped from. That temporary
  holds a moved-from mutex whose destruction destroys nothing
  (`Mutexes.UnwrappedMutexLeavesNullHandle`).
- MutexWorlds.LockMutex: the Result temporary holding the guard is likewise
  left out. What it keeps is an inert guard that unlocks nothing
  (`Mutexes.UnwrappedGuardUnlocksOnce`).
- MutexWorlds.AssignMutex: like the source, it does not refuse to
  move-assign onto a mutex whose lock a live guard holds. `Good` therefore
  does not include "every held lock is on a live handle", and
  `MutexWorlds.AssignOverLockedMutex` exhibits a world where that fails.
- Mutexes.MoveConstruct: a moved-from `T` holds unspecified contents in C++.
  The model takes those contents as the `residue` parameter and proves its
  properties for every residue.
- MutexWorlds.DropMutex: objects are destroyed most recent first, as locals
  are, and only when no guard points into them. Destroying a mutex that
  still has a live guard is a dangling pointer in the source.
- MutexWorlds.DropGuard: guards are destroyed most recent first. The scope-exit
  theorem destroys all guards before all mutexes.
- MutexWorlds.LockMutex: locking a handle that is already held does not
  block or fail here; `held` simply counts it twice. SDL mutexes are
  recursive, and a blocking lock cannot be expressed sequentially.
- The thread error kinds (`ThreadCreationError`, `ThreadJoinError`,
  `InvalidThreadError`) are declared, but no code in this core produces them
  (`Mutexes.MutexErrorsAreMutexFamily`, `CondVars.CondVarErrorsAreCondVarFamily`).
- Waiter fairness and the ordering of wake-ups are left to the platform.
