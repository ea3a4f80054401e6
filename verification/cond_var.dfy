/**
 * One `CondVar` of s6i_sync as a plain value: a platform condition-variable
 * handle, null once the object has been moved from.
 *
 * `wait`, `signal` and `broadcast` check the handle before anything else and
 * then make exactly one platform call, whose success is a parameter. Each
 * returns the platform call it made, if any, with its Result; blocking and
 * waking threads is the platform's business and is not modelled.
 */
module CondVars {
  import opened Options
  import opened Handles
  import opened Results
  import opened SyncErrors
  import Mutexes

  datatype CondVar = CondVar(handle: Option<Handle>)

  /** A call into the platform's condition-variable API. */
  datatype CondCall =
    | WaitCall(cond: Handle, mutex: Option<Handle>)
    | SignalCall(cond: Handle)
    | BroadcastCall(cond: Handle)

  /** What an operation returned, and the platform call it made, if any. */
  datatype Outcome = Outcome(result: Result<(), SyncError>, call: Option<CondCall>)

  /** Holds when `c` has a platform condition variable, that is, when it has not been moved from. */
  predicate Usable(c: CondVar) {
    c.handle.Some?
  }

  /**
   * `CondVar::make`: fails with `CondVarCreationError` exactly when the
   * platform returned no condition variable, and otherwise is a usable
   * condition variable on the new handle.
   */
  function Make(created: Option<Handle>): (r: Result<CondVar, SyncError>)
    ensures IsErr(r) <==> created.None?
    ensures IsErr(r) ==> UnwrapErr(r) == CondVarCreationError
    ensures IsOk(r) ==> Usable(Unwrap(r)) && Unwrap(r).handle == created
  {
    match created
    case None => Err(CondVarCreationError)
    case Some(h) => Ok(CondVar(Some(h)))
  }

  /** The handle the destructor gives back to the platform: `SDL_DestroyCond` does nothing with null. */
  function Destroy(c: CondVar): Option<Handle> {
    c.handle
  }

  /** Move construction: the new object takes the handle, the source is left null. */
  function MoveConstruct(src: CondVar): (p: Pair<CondVar>)
    ensures p.fst == src && !Usable(p.snd)
  {
    Pair(CondVar(src.handle), CondVar(None))
  }

  /** `swap`: the two objects exchange their handles. */
  function Swap(a: CondVar, b: CondVar): (p: Pair<CondVar>)
    ensures p.fst.handle == b.handle && p.snd.handle == a.handle
  {
    Pair(CondVar(b.handle), CondVar(a.handle))
  }

  /**
   * Move assignment between distinct objects, as temporary + swap +
   * destruction of the temporary: `dst` ends with the source's handle, the
   * source is null, and `dst`'s old handle is the one destroyed.
   */
  function MoveAssign(dst: CondVar, src: CondVar): (a: Assigned<CondVar>)
    ensures a.dst == src && !Usable(a.src)
    ensures a.released == dst.handle
  {
    var moved := MoveConstruct(src);
    var swapped := Swap(moved.fst, dst);
    Assigned(swapped.snd, moved.snd, Destroy(swapped.fst))
  }

  /**
   * `wait`: a null handle fails with `InvalidCondVarError` before any
   * platform call. Otherwise the platform wait is called with this handle
   * and the guard's mutex handle, and its failure is `CondVarWaitError`.
   */
  function Wait(c: CondVar, g: Mutexes.Guard, waitOk: bool): (o: Outcome)
    ensures !Usable(c) ==> o == Outcome(Err(InvalidCondVarError), None)
    ensures Usable(c) ==> o.call == Some(WaitCall(c.handle.value, g.mutex))
    ensures Usable(c) ==> (IsOk(o.result) <==> waitOk)
    ensures Usable(c) && !waitOk ==> o.result == Err(CondVarWaitError)
  {
    match c.handle
    case None => Outcome(Err(InvalidCondVarError), None)
    case Some(h) =>
      var call := Some(WaitCall(h, g.mutex));
      if !waitOk then Outcome(Err(CondVarWaitError), call) else Outcome(Ok(()), call)
  }

  /**
   * `signal`: a null handle fails with `InvalidCondVarError` before any
   * platform call. Otherwise the platform signal is called with this handle
   * (the guard is not used), and its failure is `CondVarSignalError`.
   */
  function Signal(c: CondVar, g: Mutexes.Guard, signalOk: bool): (o: Outcome)
    ensures !Usable(c) ==> o == Outcome(Err(InvalidCondVarError), None)
    ensures Usable(c) ==> o.call == Some(SignalCall(c.handle.value))
    ensures Usable(c) ==> (IsOk(o.result) <==> signalOk)
    ensures Usable(c) && !signalOk ==> o.result == Err(CondVarSignalError)
  {
    match c.handle
    case None => Outcome(Err(InvalidCondVarError), None)
    case Some(h) =>
      var call := Some(SignalCall(h));
      if !signalOk then Outcome(Err(CondVarSignalError), call) else Outcome(Ok(()), call)
  }

  /**
   * `broadcast`: a null handle fails with `InvalidCondVarError` before any
   * platform call. Otherwise the platform broadcast is called with this
   * handle (the guard is not used), and its failure is
   * `CondVarBroadcastError`.
   */
  function Broadcast(c: CondVar, g: Mutexes.Guard, broadcastOk: bool): (o: Outcome)
    ensures !Usable(c) ==> o == Outcome(Err(InvalidCondVarError), None)
    ensures Usable(c) ==> o.call == Some(BroadcastCall(c.handle.value))
    ensures Usable(c) ==> (IsOk(o.result) <==> broadcastOk)
    ensures Usable(c) && !broadcastOk ==> o.result == Err(CondVarBroadcastError)
  {
    match c.handle
    case None => Outcome(Err(InvalidCondVarError), None)
    case Some(h) =>
      var call := Some(BroadcastCall(h));
      if !broadcastOk then Outcome(Err(CondVarBroadcastError), call) else Outcome(Ok(()), call)
  }

  /** One call of `wait`, `signal` or `broadcast`, with the guard passed and the platform's answer. */
  datatype Op =
    | WaitOp(guard: Mutexes.Guard, ok: bool)
    | SignalOp(guard: Mutexes.Guard, ok: bool)
    | BroadcastOp(guard: Mutexes.Guard, ok: bool)

  function Apply(c: CondVar, op: Op): Outcome {
    match op
    case WaitOp(g, ok) => Wait(c, g, ok)
    case SignalOp(g, ok) => Signal(c, g, ok)
    case BroadcastOp(g, ok) => Broadcast(c, g, ok)
  }

  /**
   * A sequence of operations on one condition variable. None of them changes
   * the handle, so each outcome is what that operation alone would give.
   */
  function Run(c: CondVar, ops: seq<Op>): (out: seq<Outcome>)
    ensures |out| == |ops|
    ensures forall i :: 0 <= i < |ops| ==> out[i] == Apply(c, ops[i])
    decreases |ops|
  {
    if |ops| == 0 then [] else [Apply(c, ops[0])] + Run(c, ops[1..])
  }

  // Lifecycle and dispatch properties.

  /**
   * A moved-from condition variable answers every operation, however many
   * and in whatever order, with `InvalidCondVarError` and never reaches the
   * platform.
   */
  lemma MovedFromAlwaysInvalid(src: CondVar, ops: seq<Op>)
    ensures var out := Run(MoveConstruct(src).snd, ops);
      forall i :: 0 <= i < |out| ==> out[i] == Outcome(Err(InvalidCondVarError), None)
  {
  }

  /** A moved-to condition variable behaves exactly as the original did. */
  lemma MovedToBehavesAsOriginal(src: CondVar, ops: seq<Op>)
    ensures Run(MoveConstruct(src).fst, ops) == Run(src, ops)
  {
  }

  /** On a usable condition variable the three operations fail with three distinct condition-variable error kinds. */
  lemma FailureKindsIdentifyOperation(c: CondVar, g: Mutexes.Guard)
    requires Usable(c)
    ensures var w, s, b := Wait(c, g, false).result, Signal(c, g, false).result, Broadcast(c, g, false).result;
      && IsErr(w) && IsErr(s) && IsErr(b)
      && UnwrapErr(w) != UnwrapErr(s) && UnwrapErr(s) != UnwrapErr(b) && UnwrapErr(w) != UnwrapErr(b)
      && FamilyOf(UnwrapErr(w)) == FamilyOf(UnwrapErr(s)) == FamilyOf(UnwrapErr(b)) == CondVarFamily
  {
  }

  /** Every failure `make`, `wait`, `signal` and `broadcast` report is a condition-variable error. */
  lemma CondVarErrorsAreCondVarFamily(created: Option<Handle>, c: CondVar, g: Mutexes.Guard, ok: bool)
    ensures IsErr(Make(created)) ==> FamilyOf(UnwrapErr(Make(created))) == CondVarFamily
    ensures IsErr(Wait(c, g, ok).result) ==> FamilyOf(UnwrapErr(Wait(c, g, ok).result)) == CondVarFamily
    ensures IsErr(Signal(c, g, ok).result) ==> FamilyOf(UnwrapErr(Signal(c, g, ok).result)) == CondVarFamily
    ensures IsErr(Broadcast(c, g, ok).result) ==> FamilyOf(UnwrapErr(Broadcast(c, g, ok).result)) == CondVarFamily
  {
  }

  /** `signal` and `broadcast` do not depend on the guard passed to them. */
  lemma SignalBroadcastIgnoreGuard(c: CondVar, g1: Mutexes.Guard, g2: Mutexes.Guard, ok: bool)
    ensures Signal(c, g1, ok) == Signal(c, g2, ok)
    ensures Broadcast(c, g1, ok) == Broadcast(c, g2, ok)
  {
  }

  /** Swapping twice restores both objects. */
  lemma SwapTwice(a: CondVar, b: CondVar)
    ensures var p := Swap(a, b); Swap(p.fst, p.snd) == Pair(a, b)
  {
  }

  /** A move assignment neither creates nor loses a handle. */
  lemma MoveAssignKeepsHandles(dst: CondVar, src: CondVar)
    ensures var a := MoveAssign(dst, src);
      Own(a.dst.handle) + Own(a.src.handle) + Own(a.released) == Own(dst.handle) + Own(src.handle)
  {
  }
}
