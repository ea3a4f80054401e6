/**
 * One `Mutex<T>` and one `MutexGuard<T>` of s6i_sync, as plain values.
 *
 * A mutex is a platform mutex handle, null once the object has been moved
 * from, together with the value it protects. A guard is the handle it locked
 * and a pointer to the protected value; both are null once the guard has
 * been moved from. The pointer is the address of the mutex object it points
 * into. The platform is a parameter: `created` is what the platform's
 * create call returned, `lockOk` whether its lock call succeeded. What an
 * object releases when it is destroyed is returned as `Option<Handle>`.
 */
module Mutexes {
  import opened Options
  import opened Handles
  import opened Results
  import opened SyncErrors

  datatype Mutex<T> = Mutex(handle: Option<Handle>, value: T)

  /** The address of a mutex object. */
  type Addr = nat

  datatype Guard = Guard(mutex: Option<Handle>, value: Option<Addr>)

  /** The state a moved-from guard is left in: no handle, no value pointer. */
  const Inert := Guard(None, None)

  /** Holds when `m` has a platform mutex, that is, when it has not been moved from. */
  predicate Valid<T>(m: Mutex<T>) {
    m.handle.Some?
  }

  /**
   * `Mutex<T>::make`: fails with `MutexCreationError` exactly when the platform
   * returned no mutex, and otherwise is a valid mutex on the new handle that
   * protects `init`.
   */
  function Make<T>(created: Option<Handle>, init: T): (r: Result<Mutex<T>, SyncError>)
    ensures IsErr(r) <==> created.None?
    ensures IsErr(r) ==> UnwrapErr(r) == MutexCreationError
    ensures IsOk(r) ==> Valid(Unwrap(r)) && Unwrap(r).handle == created && Unwrap(r).value == init
  {
    match created
    case None => Err(MutexCreationError)
    case Some(h) => Ok(Mutex(Some(h), init))
  }

  /** The handle the destructor gives back to the platform: `SDL_DestroyMutex` does nothing with null. */
  function Destroy<T>(m: Mutex<T>): Option<Handle> {
    m.handle
  }

  /**
   * Move construction: the new object takes over the handle and the value,
   * the source keeps a null handle and whatever a moved-from `T` holds
   * (`residue`).
   */
  function MoveConstruct<T>(src: Mutex<T>, residue: T): (p: Pair<Mutex<T>>)
    ensures p.fst == src
    ensures !Valid(p.snd) && p.snd.value == residue
  {
    Pair(Mutex(src.handle, src.value), Mutex(None, residue))
  }

  /** `swap`: the two objects exchange handle and value. */
  function Swap<T>(a: Mutex<T>, b: Mutex<T>): (p: Pair<Mutex<T>>)
    ensures p.fst.handle == b.handle && p.fst.value == b.value
    ensures p.snd.handle == a.handle && p.snd.value == a.value
  {
    Pair(Mutex(b.handle, b.value), Mutex(a.handle, a.value))
  }

  /**
   * Move assignment `dst = std::move(src)` for two distinct objects, done as
   * the source does it: move `src` into a temporary, swap the temporary with
   * `dst`, destroy the temporary. `dst` ends with the source's handle and
   * value, the source is invalid, and the handle destroyed is `dst`'s old one.
   */
  function MoveAssign<T>(dst: Mutex<T>, src: Mutex<T>, residue: T): (a: Assigned<Mutex<T>>)
    ensures a.dst == src
    ensures !Valid(a.src) && a.src.value == residue
    ensures a.released == dst.handle
  {
    var moved := MoveConstruct(src, residue);
    var swapped := Swap(moved.fst, dst);
    Assigned(swapped.snd, moved.snd, Destroy(swapped.fst))
  }

  /**
   * `lock`: a null handle fails with `InvalidMutexError` whatever the platform
   * would say; otherwise a failed platform lock is `MutexLockError`, and a
   * successful one a guard holding this handle and pointing at the value of
   * the mutex at `at`.
   */
  function Lock<T>(m: Mutex<T>, at: Addr, lockOk: bool): (r: Result<Guard, SyncError>)
    ensures !Valid(m) ==> r == Err(InvalidMutexError)
    ensures Valid(m) && !lockOk ==> r == Err(MutexLockError)
    ensures IsOk(r) <==> Valid(m) && lockOk
    ensures IsOk(r) ==> Unwrap(r).mutex == m.handle && Unwrap(r).value == Some(at)
  {
    if m.handle.None? then Err(InvalidMutexError)
    else if !lockOk then Err(MutexLockError)
    else Ok(Guard(m.handle, Some(at)))
  }

  /** The handle a guard's destructor unlocks: `SDL_UnlockMutex` does nothing with null. */
  function Unlock(g: Guard): Option<Handle> {
    g.mutex
  }

  /** Guard move construction: the new guard takes both pointers, the source becomes inert. */
  function GuardMoveConstruct(src: Guard): (p: Pair<Guard>)
    ensures p.fst == src && p.snd == Inert
  {
    Pair(Guard(src.mutex, src.value), Guard(None, None))
  }

  /** Guard `swap`: the two guards exchange handle and value pointer. */
  function GuardSwap(a: Guard, b: Guard): (p: Pair<Guard>)
    ensures p.fst == b && p.snd == a
  {
    Pair(Guard(b.mutex, b.value), Guard(a.mutex, a.value))
  }

  /**
   * Guard move assignment for two distinct guards, as temporary + swap +
   * destruction of the temporary: `dst` ends with the source's lock, the
   * source is inert, and `dst`'s old lock is the one unlocked.
   */
  function GuardMoveAssign(dst: Guard, src: Guard): (a: Assigned<Guard>)
    ensures a.dst == src && a.src == Inert
    ensures a.released == dst.mutex
  {
    var moved := GuardMoveConstruct(src);
    var swapped := GuardSwap(moved.fst, dst);
    Assigned(swapped.snd, moved.snd, Unlock(swapped.fst))
  }

  // Lifecycle properties.

  /** A moved-from mutex can never be locked again, whatever the platform would say, on every attempt. */
  lemma MovedFromCannotLock<T>(src: Mutex<T>, residue: T, at: Addr, lockOk: bool)
    ensures Lock(MoveConstruct(src, residue).snd, at, lockOk) == Err(InvalidMutexError)
  {
  }

  /** A moved-to mutex locks exactly as the original would have. */
  lemma MovedToLocksAsOriginal<T>(src: Mutex<T>, residue: T, at: Addr, lockOk: bool)
    ensures Lock(MoveConstruct(src, residue).fst, at, lockOk) == Lock(src, at, lockOk)
  {
  }

  /** Swapping twice restores both objects. */
  lemma SwapTwice<T>(a: Mutex<T>, b: Mutex<T>)
    ensures var p := Swap(a, b); Swap(p.fst, p.snd) == Pair(a, b)
  {
  }

  /** Swapping guards twice restores both guards. */
  lemma GuardSwapTwice(a: Guard, b: Guard)
    ensures var p := GuardSwap(a, b); GuardSwap(p.fst, p.snd) == Pair(a, b)
  {
  }

  /** A mutex move assignment neither creates nor loses a handle: what the two objects and the temporary release is unchanged. */
  lemma MoveAssignKeepsHandles<T>(dst: Mutex<T>, src: Mutex<T>, residue: T)
    ensures var a := MoveAssign(dst, src, residue);
      Own(a.dst.handle) + Own(a.src.handle) + Own(a.released) == Own(dst.handle) + Own(src.handle)
  {
  }

  /** After a guard move, the lock the source held is held by exactly one of the two guards. */
  lemma GuardMoveKeepsOneUnlock(src: Guard)
    ensures var p := GuardMoveConstruct(src); Own(Unlock(p.fst)) + Own(Unlock(p.snd)) == Own(Unlock(src))
  {
  }

  /**
   * `make(...).unwrap()`: the mutex is moved out of the Result, and what is
   * left in the Result is a moved-from mutex, whose destruction destroys no
   * handle. So the made handle is destroyed only by the object it went to.
   */
  lemma UnwrappedMutexLeavesNullHandle<T>(created: Option<Handle>, init: T, residue: T)
    requires created.Some?
    ensures var r := Make(created, init);
      var c := UnwrapMove(r, MoveConstruct(Unwrap(r), residue).snd);
      && c.out.handle == created
      && Destroy(Unwrap(c.source)).None?
  {
  }

  /**
   * `lock().unwrap()`: the guard is moved out of the Result and the Result
   * is left with an inert guard. Between the two the lock is unlocked
   * exactly once.
   */
  lemma UnwrappedGuardUnlocksOnce<T>(m: Mutex<T>, at: Addr)
    requires Valid(m)
    ensures var r := Lock(m, at, true);
      var c := UnwrapMove(r, GuardMoveConstruct(Unwrap(r)).snd);
      && Unwrap(c.source) == Inert
      && Own(Unlock(c.out)) + Own(Unlock(Unwrap(c.source))) == Own(m.handle)
  {
  }

  /** Every failure `make` and `lock` report is a mutex error, never a thread or condition-variable one. */
  lemma MutexErrorsAreMutexFamily<T>(created: Option<Handle>, init: T, m: Mutex<T>, at: Addr, lockOk: bool)
    ensures IsErr(Make(created, init)) ==> FamilyOf(UnwrapErr(Make(created, init))) == MutexFamily
    ensures IsErr(Lock(m, at, lockOk)) ==> FamilyOf(UnwrapErr(Lock(m, at, lockOk))) == MutexFamily
  {
  }

  /** A guard move assignment neither creates nor loses a lock: each is unlocked once, now or later. */
  lemma GuardMoveAssignKeepsUnlocks(dst: Guard, src: Guard)
    ensures var a := GuardMoveAssign(dst, src);
      Own(Unlock(a.dst)) + Own(Unlock(a.src)) + Own(a.released) == Own(Unlock(dst)) + Own(Unlock(src))
  {
  }
}
