/**
 * Mutexes and guards inside a sequential program, with the platform's
 * bookkeeping alongside.
 *
 * Objects live at addresses (indices). The platform side records `live`, the
 * mutex handles created and not yet destroyed, and `held`, the locks taken
 * and not yet released (a multiset, so that a lock taken twice is released
 * twice). `Good` is the ownership discipline the move-only design is for:
 * every live handle is owned by exactly one mutex object, every held lock by
 * exactly one guard, and a guard's pointer names an existing mutex object.
 * Every operation keeps `Good`, so destroying everything releases each
 * handle and each lock exactly once.
 */
module MutexWorlds {
  import opened Options
  import opened Handles
  import opened Results
  import opened SyncErrors
  import opened Mutexes

  datatype World<T> = World(mutexes: seq<Mutex<T>>, guards: seq<Guard>, live: multiset<Handle>, held: multiset<Handle>)

  /** A world after an operation, and what the operation returned. */
  datatype Step<T, R> = Step(world: World<T>, result: R)

  function MutexHandle<T>(m: Mutex<T>): Option<Handle> {
    m.handle
  }

  function GuardHandle(g: Guard): Option<Handle> {
    g.mutex
  }

  /** A guard's two pointers are null together, and its value pointer names one of `n` mutex objects. */
  predicate GuardWellFormed(g: Guard, n: nat) {
    && (g.mutex.None? <==> g.value.None?)
    && (g.value.Some? ==> g.value.value < n)
  }

  /** Every guard in `gs` is well formed for `n` mutex objects. */
  predicate Pointing(gs: seq<Guard>, n: nat) {
    forall k :: 0 <= k < |gs| ==> GuardWellFormed(gs[k], n)
  }

  predicate Good<T>(w: World<T>) {
    && Owned(w.mutexes, MutexHandle) == w.live
    && Owned(w.guards, GuardHandle) == w.held
    && Pointing(w.guards, |w.mutexes|)
  }

  /** A program that has created nothing. */
  function Empty<T>(): (w: World<T>)
    ensures Good(w)
  {
    World([], [], multiset{}, multiset{})
  }

  // Operations on mutex objects.

  /** `Mutex<T>::make` into a new object; the platform gains the handle only when creation succeeded. */
  function NewMutex<T>(w: World<T>, created: Option<Handle>, init: T): (s: Step<T, Result<Addr, SyncError>>)
    ensures created.None? ==> s == Step(w, Err(MutexCreationError))
    ensures created.Some? ==>
      && s.result == Ok(|w.mutexes|)
      && s.world == w.(mutexes := w.mutexes + [Mutex(created, init)], live := w.live + multiset{created.value})
  {
    match Make(created, init)
    case Err(e) => Step(w, Err(e))
    case Ok(m) => Step(w.(mutexes := w.mutexes + [m], live := w.live + Own(m.handle)), Ok(|w.mutexes|))
  }

  /** Move construction of a new mutex object from the one at `i`. */
  function MoveMutex<T>(w: World<T>, i: Addr, residue: T): (s: Step<T, Addr>)
    requires i < |w.mutexes|
    ensures s.result == |w.mutexes| && |s.world.mutexes| == |w.mutexes| + 1
    ensures s.world.mutexes[s.result] == w.mutexes[i]
    ensures s.world.mutexes[i] == Mutex(None, residue)
    ensures forall a :: 0 <= a < |w.mutexes| && a != i ==> s.world.mutexes[a] == w.mutexes[a]
    ensures s.world.guards == w.guards && s.world.live == w.live && s.world.held == w.held
  {
    var p := MoveConstruct(w.mutexes[i], residue);
    Step(w.(mutexes := w.mutexes[i := p.snd] + [p.fst]), |w.mutexes|)
  }

  /**
   * `mutexes[i] = std::move(mutexes[j])`, step by step as the source does it,
   * returning the handle destroyed. Assigning an object to itself changes
   * nothing; otherwise `i` takes over `j`'s handle and value, `j` is left
   * invalid, and `i`'s old handle is destroyed.
   */
  function AssignMutex<T>(w: World<T>, i: Addr, j: Addr, residue: T): (s: Step<T, Option<Handle>>)
    requires i < |w.mutexes| && j < |w.mutexes|
    ensures i == j ==> s == Step(w, None)
    ensures i != j ==>
      && s.result == w.mutexes[i].handle
      && s.world == w.(mutexes := w.mutexes[i := w.mutexes[j]][j := Mutex(None, residue)],
                       live := w.live - Own(w.mutexes[i].handle))
  {
    var moved := MoveConstruct(w.mutexes[j], residue);
    var ms := w.mutexes[j := moved.snd];
    var swapped := Swap(moved.fst, ms[i]);
    var released := Destroy(swapped.fst);
    Step(w.(mutexes := ms[i := swapped.snd], live := w.live - Own(released)), released)
  }

  /** `swap` of the mutex objects at `i` and `j`. */
  function SwapMutexes<T>(w: World<T>, i: Addr, j: Addr): (w': World<T>)
    requires i < |w.mutexes| && j < |w.mutexes|
    ensures |w'.mutexes| == |w.mutexes|
    ensures w'.mutexes[i] == w.mutexes[j] && w'.mutexes[j] == w.mutexes[i]
    ensures forall a :: 0 <= a < |w.mutexes| && a != i && a != j ==> w'.mutexes[a] == w.mutexes[a]
    ensures w'.guards == w.guards && w'.live == w.live && w'.held == w.held
  {
    var p := Swap(w.mutexes[i], w.mutexes[j]);
    w.(mutexes := w.mutexes[i := p.fst][j := p.snd])
  }

  /**
   * Destruction of the most recently created mutex object (locals die in
   * reverse order). No guard may still point into it. Its handle, if any, is
   * destroyed.
   */
  function DropMutex<T>(w: World<T>): (s: Step<T, Option<Handle>>)
    requires |w.mutexes| > 0
    requires forall k :: 0 <= k < |w.guards| ==> w.guards[k].value != Some(|w.mutexes| - 1)
    ensures s.result == w.mutexes[|w.mutexes| - 1].handle
    ensures s.world.mutexes == w.mutexes[..|w.mutexes| - 1]
    ensures s.world.live == w.live - Own(s.result)
    ensures s.world.guards == w.guards && s.world.held == w.held
  {
    var released := Destroy(w.mutexes[|w.mutexes| - 1]);
    Step(w.(mutexes := w.mutexes[..|w.mutexes| - 1], live := w.live - Own(released)), released)
  }

  /**
   * `lock` on the mutex at `i`. On success the new guard is the last one and
   * the platform holds one more lock on the mutex's handle; on failure
   * nothing changes.
   */
  function LockMutex<T>(w: World<T>, i: Addr, lockOk: bool): (s: Step<T, Result<nat, SyncError>>)
    requires i < |w.mutexes|
    ensures !Valid(w.mutexes[i]) ==> s == Step(w, Err(InvalidMutexError))
    ensures Valid(w.mutexes[i]) && !lockOk ==> s == Step(w, Err(MutexLockError))
    ensures Valid(w.mutexes[i]) && lockOk ==>
      && s.result == Ok(|w.guards|)
      && s.world == w.(guards := w.guards + [Guard(w.mutexes[i].handle, Some(i))],
                       held := w.held + multiset{w.mutexes[i].handle.value})
  {
    match Lock(w.mutexes[i], i, lockOk)
    case Err(e) => Step(w, Err(e))
    case Ok(g) => Step(w.(guards := w.guards + [g], held := w.held + Own(Unlock(g))), Ok(|w.guards|))
  }

  // Operations on guards.

  /** Move construction of a new guard from the guard `k`, which becomes inert. */
  function MoveGuard<T>(w: World<T>, k: nat): (s: Step<T, nat>)
    requires k < |w.guards|
    ensures s.result == |w.guards|
    ensures s.world.guards == w.guards[k := Inert] + [w.guards[k]]
    ensures s.world.mutexes == w.mutexes && s.world.live == w.live && s.world.held == w.held
  {
    var p := GuardMoveConstruct(w.guards[k]);
    Step(w.(guards := w.guards[k := p.snd] + [p.fst]), |w.guards|)
  }

  /**
   * `guards[k] = std::move(guards[l])`, as the source does it, returning the
   * lock released. Self-assignment changes nothing; otherwise `k` takes over
   * `l`'s lock, `l` is inert, and `k`'s old lock is released.
   */
  function AssignGuard<T>(w: World<T>, k: nat, l: nat): (s: Step<T, Option<Handle>>)
    requires k < |w.guards| && l < |w.guards|
    ensures k == l ==> s == Step(w, None)
    ensures k != l ==>
      && s.result == w.guards[k].mutex
      && s.world == w.(guards := w.guards[k := w.guards[l]][l := Inert],
                       held := w.held - Own(w.guards[k].mutex))
  {
    var moved := GuardMoveConstruct(w.guards[l]);
    var gs := w.guards[l := moved.snd];
    var swapped := GuardSwap(moved.fst, gs[k]);
    var released := Unlock(swapped.fst);
    Step(w.(guards := gs[k := swapped.snd], held := w.held - Own(released)), released)
  }

  /** `swap` of the guards `k` and `l`. */
  function SwapGuards<T>(w: World<T>, k: nat, l: nat): (w': World<T>)
    requires k < |w.guards| && l < |w.guards|
    ensures |w'.guards| == |w.guards|
    ensures w'.guards[k] == w.guards[l] && w'.guards[l] == w.guards[k]
    ensures forall a :: 0 <= a < |w.guards| && a != k && a != l ==> w'.guards[a] == w.guards[a]
    ensures w'.mutexes == w.mutexes && w'.live == w.live && w'.held == w.held
  {
    var p := GuardSwap(w.guards[k], w.guards[l]);
    w.(guards := w.guards[k := p.fst][l := p.snd])
  }

  /** Destruction of the most recent guard: it releases its lock, or nothing if it is inert. */
  function DropGuard<T>(w: World<T>): (s: Step<T, Option<Handle>>)
    requires |w.guards| > 0
    ensures s.result == w.guards[|w.guards| - 1].mutex
    ensures s.world.guards == w.guards[..|w.guards| - 1]
    ensures s.world.held == w.held - Own(s.result)
    ensures s.world.mutexes == w.mutexes && s.world.live == w.live
  {
    var released := Unlock(w.guards[|w.guards| - 1]);
    Step(w.(guards := w.guards[..|w.guards| - 1], held := w.held - Own(released)), released)
  }

  /** Holds when guard `k` points at an existing mutex object. */
  predicate Points<T>(w: World<T>, k: nat) {
    k < |w.guards| && w.guards[k].value.Some? && w.guards[k].value.value < |w.mutexes|
  }

  /** `*guard`: the value of the mutex object guard `k` points into. */
  function Read<T>(w: World<T>, k: nat): T
    requires Points(w, k)
  {
    w.mutexes[w.guards[k].value.value].value
  }

  /** `*guard = x`: only the value of the mutex object guard `k` points into changes. */
  function Write<T>(w: World<T>, k: nat, x: T): (w': World<T>)
    requires Points(w, k)
    ensures Points(w', k) && Read(w', k) == x
    ensures |w'.mutexes| == |w.mutexes|
    ensures forall a :: 0 <= a < |w.mutexes| ==> w'.mutexes[a].handle == w.mutexes[a].handle
    ensures forall a :: 0 <= a < |w.mutexes| && Some(a) != w.guards[k].value ==> w'.mutexes[a] == w.mutexes[a]
    ensures w'.guards == w.guards && w'.live == w.live && w'.held == w.held
  {
    var a := w.guards[k].value.value;
    w.(mutexes := w.mutexes[a := w.mutexes[a].(value := x)])
  }

  // Every operation keeps the ownership discipline.

  lemma PointingUpdate(gs: seq<Guard>, k: nat, g: Guard, n: nat)
    requires Pointing(gs, n) && k < |gs| && GuardWellFormed(g, n)
    ensures Pointing(gs[k := g], n)
  {
    var gs' := gs[k := g];
    forall a | 0 <= a < |gs'|
      ensures GuardWellFormed(gs'[a], n)
    {
      if a != k {
        assert gs'[a] == gs[a];
      }
    }
  }

  lemma PointingAppend(gs: seq<Guard>, g: Guard, n: nat)
    requires Pointing(gs, n) && GuardWellFormed(g, n)
    ensures Pointing(gs + [g], n)
  {
    var gs' := gs + [g];
    forall a | 0 <= a < |gs'|
      ensures GuardWellFormed(gs'[a], n)
    {
      if a < |gs| {
        assert gs'[a] == gs[a];
      }
    }
  }

  lemma PointingGrow(gs: seq<Guard>, n: nat)
    requires Pointing(gs, n)
    ensures Pointing(gs, n + 1)
  {
    forall a | 0 <= a < |gs|
      ensures GuardWellFormed(gs[a], n + 1)
    {
      assert GuardWellFormed(gs[a], n);
    }
  }

  lemma PointingPrefix(gs: seq<Guard>, n: nat)
    requires Pointing(gs, n) && |gs| > 0
    ensures Pointing(gs[..|gs| - 1], n)
  {
    var gs' := gs[..|gs| - 1];
    forall a | 0 <= a < |gs'|
      ensures GuardWellFormed(gs'[a], n)
    {
      assert gs'[a] == gs[a];
    }
  }

  lemma NewMutexKeepsGood<T>(w: World<T>, created: Option<Handle>, init: T)
    requires Good(w)
    ensures Good(NewMutex(w, created, init).world)
  {
    if created.Some? {
      OwnedAppend(w.mutexes, Mutex(created, init), MutexHandle);
      PointingGrow(w.guards, |w.mutexes|);
    }
  }

  lemma MoveMutexKeepsGood<T>(w: World<T>, i: Addr, residue: T)
    requires Good(w) && i < |w.mutexes|
    ensures Good(MoveMutex(w, i, residue).world)
  {
    OwnedMoveOut(w.mutexes, i, Mutex(None, residue), MutexHandle);
    PointingGrow(w.guards, |w.mutexes|);
  }

  lemma AssignMutexKeepsGood<T>(w: World<T>, i: Addr, j: Addr, residue: T)
    requires Good(w) && i < |w.mutexes| && j < |w.mutexes|
    ensures Good(AssignMutex(w, i, j, residue).world)
  {
    if i != j {
      OwnedMoveAssign(w.mutexes, i, j, Mutex(None, residue), MutexHandle);
    }
  }

  lemma SwapMutexesKeepsGood<T>(w: World<T>, i: Addr, j: Addr)
    requires Good(w) && i < |w.mutexes| && j < |w.mutexes|
    ensures Good(SwapMutexes(w, i, j))
  {
    OwnedSwap(w.mutexes, i, j, MutexHandle);
    assert SwapMutexes(w, i, j).mutexes == w.mutexes[i := w.mutexes[j]][j := w.mutexes[i]];
  }

  lemma DropMutexKeepsGood<T>(w: World<T>)
    requires Good(w) && |w.mutexes| > 0
    requires forall k :: 0 <= k < |w.guards| ==> w.guards[k].value != Some(|w.mutexes| - 1)
    ensures Good(DropMutex(w).world)
  {
    var n := |w.mutexes| - 1;
    OwnedDropLast(w.mutexes, MutexHandle);
    forall k | 0 <= k < |w.guards|
      ensures GuardWellFormed(w.guards[k], n)
    {
      assert GuardWellFormed(w.guards[k], n + 1);
    }
  }

  lemma LockMutexKeepsGood<T>(w: World<T>, i: Addr, lockOk: bool)
    requires Good(w) && i < |w.mutexes|
    ensures Good(LockMutex(w, i, lockOk).world)
  {
    if Valid(w.mutexes[i]) && lockOk {
      var g := Guard(w.mutexes[i].handle, Some(i));
      OwnedAppend(w.guards, g, GuardHandle);
      PointingAppend(w.guards, g, |w.mutexes|);
    }
  }

  lemma MoveGuardKeepsGood<T>(w: World<T>, k: nat)
    requires Good(w) && k < |w.guards|
    ensures Good(MoveGuard(w, k).world)
  {
    var n := |w.mutexes|;
    OwnedMoveOut(w.guards, k, Inert, GuardHandle);
    PointingUpdate(w.guards, k, Inert, n);
    PointingAppend(w.guards[k := Inert], w.guards[k], n);
  }

  lemma AssignGuardKeepsGood<T>(w: World<T>, k: nat, l: nat)
    requires Good(w) && k < |w.guards| && l < |w.guards|
    ensures Good(AssignGuard(w, k, l).world)
  {
    if k != l {
      var n := |w.mutexes|;
      OwnedMoveAssign(w.guards, k, l, Inert, GuardHandle);
      PointingUpdate(w.guards, k, w.guards[l], n);
      PointingUpdate(w.guards[k := w.guards[l]], l, Inert, n);
    }
  }

  lemma SwapGuardsKeepsGood<T>(w: World<T>, k: nat, l: nat)
    requires Good(w) && k < |w.guards| && l < |w.guards|
    ensures Good(SwapGuards(w, k, l))
  {
    var n := |w.mutexes|;
    var gs := w.guards[k := w.guards[l]][l := w.guards[k]];
    OwnedSwap(w.guards, k, l, GuardHandle);
    PointingUpdate(w.guards, k, w.guards[l], n);
    PointingUpdate(w.guards[k := w.guards[l]], l, w.guards[k], n);
    assert SwapGuards(w, k, l).guards == gs;
  }

  lemma DropGuardKeepsGood<T>(w: World<T>)
    requires Good(w) && |w.guards| > 0
    ensures Good(DropGuard(w).world)
  {
    OwnedDropLast(w.guards, GuardHandle);
    PointingPrefix(w.guards, |w.mutexes|);
  }

  lemma WriteKeepsGood<T>(w: World<T>, k: nat, x: T)
    requires Good(w) && Points(w, k)
    ensures Good(Write(w, k, x))
  {
    var a := w.guards[k].value.value;
    var m := w.mutexes[a];
    OwnedUpdate(w.mutexes, a, m.(value := x), MutexHandle);
    CancelCommon(Owned(w.mutexes[a := m.(value := x)], MutexHandle), Owned(w.mutexes, MutexHandle), Own(m.handle));
  }

  // Scope exit and the sequences of operations the source's tests perform.

  /** Destroys every guard, most recent first, logging each lock released. */
  function ReleaseGuards<T>(w: World<T>): (s: Step<T, seq<Handle>>)
    ensures s.world.guards == [] && s.world.mutexes == w.mutexes && s.world.live == w.live
    decreases |w.guards|
  {
    if |w.guards| == 0 then Step(w, [])
    else
      var d := DropGuard(w);
      var rest := ReleaseGuards(d.world);
      Step(rest.world, Released(d.result) + rest.result)
  }

  /** Destroys every mutex object, most recent first, logging each handle destroyed. */
  function DestroyMutexes<T>(w: World<T>): (s: Step<T, seq<Handle>>)
    requires w.guards == []
    ensures s.world.mutexes == [] && s.world.guards == [] && s.world.held == w.held
    decreases |w.mutexes|
  {
    if |w.mutexes| == 0 then Step(w, [])
    else
      var d := DropMutex(w);
      var rest := DestroyMutexes(d.world);
      Step(rest.world, Released(d.result) + rest.result)
  }

  /** Guards released at scope exit unlock exactly the held locks, each as often as it was taken. */
  lemma {:induction false} ReleaseGuardsUnlocksEachOnce<T>(w: World<T>)
    requires Good(w)
    ensures var s := ReleaseGuards(w); Good(s.world) && multiset(s.result) == w.held && s.world.held == multiset{}
    decreases |w.guards|
  {
    if |w.guards| > 0 {
      var d := DropGuard(w);
      DropGuardKeepsGood(w);
      ReleaseGuardsUnlocksEachOnce(d.world);
      OwnedContains(w.guards, |w.guards| - 1, GuardHandle);
      AddBack(w.held, Own(d.result));
    }
  }

  /** Mutex objects destroyed at scope exit destroy exactly the live handles, each once. */
  lemma {:induction false} DestroyMutexesDestroysEachOnce<T>(w: World<T>)
    requires Good(w) && w.guards == []
    ensures var s := DestroyMutexes(w); multiset(s.result) == w.live && s.world.live == multiset{}
    decreases |w.mutexes|
  {
    if |w.mutexes| > 0 {
      var d := DropMutex(w);
      DropMutexKeepsGood(w);
      DestroyMutexesDestroysEachOnce(d.world);
      OwnedContains(w.mutexes, |w.mutexes| - 1, MutexHandle);
      AddBack(w.live, Own(d.result));
    }
  }

  /**
   * Leaving a scope that kept the ownership discipline, guards first and then
   * mutexes: every lock taken is released once, every mutex created is
   * destroyed once, and nothing is left.
   */
  lemma ScopeExitReleasesEverything<T>(w: World<T>)
    requires Good(w)
    ensures var g := ReleaseGuards(w);
      var m := DestroyMutexes(g.world);
      && multiset(g.result) == w.held
      && multiset(m.result) == w.live
      && m.world == Empty()
  {
    var g := ReleaseGuards(w);
    ReleaseGuardsUnlocksEachOnce(w);
    DestroyMutexesDestroysEachOnce(g.world);
  }

  /** A value written through the last guard is what the next lock of that mutex sees once the guard is gone. */
  lemma WriteIsSeenByNextLock<T>(w: World<T>, x: T)
    requires |w.guards| > 0 && Points(w, |w.guards| - 1)
    requires Valid(w.mutexes[w.guards[|w.guards| - 1].value.value])
    ensures var k := |w.guards| - 1;
      var i := w.guards[k].value.value;
      var relock := LockMutex(DropGuard(Write(w, k, x)).world, i, true);
      && relock.result.Ok?
      && Points(relock.world, relock.result.value)
      && Read(relock.world, relock.result.value) == x
  {
  }

  /**
   * After a move construction out of a valid mutex object: locking the
   * source fails with `InvalidMutexError` and changes nothing, however often
   * it is tried, and locking the new object sees the source's value.
   */
  lemma MovedMutexLocks<T>(w: World<T>, i: Addr, residue: T, lockOk: bool)
    requires i < |w.mutexes| && Valid(w.mutexes[i])
    ensures var m := MoveMutex(w, i, residue);
      && LockMutex(m.world, i, lockOk) == Step(m.world, Err(InvalidMutexError))
      && var l := LockMutex(m.world, m.result, true);
         l.result.Ok? && Points(l.world, l.result.value) && Read(l.world, l.result.value) == w.mutexes[i].value
  {
  }

  /**
   * After `mutexes[i] = std::move(mutexes[j])` between valid objects: locking
   * `i` sees `j`'s former value and `j` can no longer be locked.
   */
  lemma AssignedMutexLocks<T>(w: World<T>, i: Addr, j: Addr, residue: T, lockOk: bool)
    requires i < |w.mutexes| && j < |w.mutexes| && i != j && Valid(w.mutexes[j])
    ensures var a := AssignMutex(w, i, j, residue).world;
      && LockMutex(a, j, lockOk).result == Err(InvalidMutexError)
      && var l := LockMutex(a, i, true);
         l.result.Ok? && Points(l.world, l.result.value) && Read(l.world, l.result.value) == w.mutexes[j].value
  {
  }

  /**
   * Move-assigning onto a mutex object whose lock a guard still holds is
   * accepted, as in the source: the held handle is destroyed while locked,
   * and the guard now reads the value of the other mutex, whose lock it does
   * not hold. `Good` keeps holding; it does not say that held locks are on
   * live handles.
   */
  lemma AssignOverLockedMutex()
    ensures var w: World<int> := World([Mutex(Some(0), 1), Mutex(Some(1), 2)], [Guard(Some(0), Some(0))], multiset{0, 1}, multiset{0});
      var s := AssignMutex(w, 0, 1, 0);
      && Good(w) && Good(s.world)
      && s.result == Some(0)
      && 0 in s.world.held && 0 !in s.world.live
      && Points(s.world, 0) && Read(s.world, 0) == 2
  {
    var w: World<int> := World([Mutex(Some(0), 1), Mutex(Some(1), 2)], [Guard(Some(0), Some(0))], multiset{0, 1}, multiset{0});
    assert Good(w);
    AssignMutexKeepsGood(w, 0, 1, 0);
  }
}
