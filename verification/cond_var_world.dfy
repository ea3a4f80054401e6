/**
 * Condition-variable objects inside a sequential program, with the
 * platform's record of the condition-variable handles created and not yet
 * destroyed. `Good` says every live handle is owned by exactly one object;
 * every lifecycle operation keeps it, so leaving the scope destroys each
 * handle exactly once.
 */
module CondVarWorlds {
  import opened Options
  import opened Handles
  import opened Results
  import opened SyncErrors
  import opened CondVars

  datatype World = World(condvars: seq<CondVar>, live: multiset<Handle>)

  /** A world after an operation, and what the operation returned. */
  datatype Step<R> = Step(world: World, result: R)

  function CondHandle(c: CondVar): Option<Handle> {
    c.handle
  }

  predicate Good(w: World) {
    Owned(w.condvars, CondHandle) == w.live
  }

  /** `CondVar::make` into a new object; the platform gains the handle only when creation succeeded. */
  function NewCondVar(w: World, created: Option<Handle>): (s: Step<Result<nat, SyncError>>)
    ensures created.None? ==> s == Step(w, Err(CondVarCreationError))
    ensures created.Some? ==>
      && s.result == Ok(|w.condvars|)
      && s.world == World(w.condvars + [CondVar(created)], w.live + multiset{created.value})
  {
    match Make(created)
    case Err(e) => Step(w, Err(e))
    case Ok(c) => Step(World(w.condvars + [c], w.live + Own(c.handle)), Ok(|w.condvars|))
  }

  /** Move construction of a new object from the one at `i`, which is left null. */
  function MoveCondVar(w: World, i: nat): (s: Step<nat>)
    requires i < |w.condvars|
    ensures s.result == |w.condvars|
    ensures s.world == w.(condvars := w.condvars[i := CondVar(None)] + [w.condvars[i]])
  {
    var p := MoveConstruct(w.condvars[i]);
    Step(w.(condvars := w.condvars[i := p.snd] + [p.fst]), |w.condvars|)
  }

  /**
   * `condvars[i] = std::move(condvars[j])`, step by step as the source does
   * it, returning the handle destroyed. Self-assignment changes nothing;
   * otherwise `i` takes `j`'s handle, `j` is null, and `i`'s old handle is
   * destroyed.
   */
  function AssignCondVar(w: World, i: nat, j: nat): (s: Step<Option<Handle>>)
    requires i < |w.condvars| && j < |w.condvars|
    ensures i == j ==> s == Step(w, None)
    ensures i != j ==>
      && s.result == w.condvars[i].handle
      && s.world == World(w.condvars[i := w.condvars[j]][j := CondVar(None)], w.live - Own(w.condvars[i].handle))
  {
    var moved := MoveConstruct(w.condvars[j]);
    var cs := w.condvars[j := moved.snd];
    var swapped := Swap(moved.fst, cs[i]);
    var released := Destroy(swapped.fst);
    Step(World(cs[i := swapped.snd], w.live - Own(released)), released)
  }

  /** `swap` of the objects at `i` and `j`. */
  function SwapCondVars(w: World, i: nat, j: nat): (w': World)
    requires i < |w.condvars| && j < |w.condvars|
    ensures w' == w.(condvars := w.condvars[i := w.condvars[j]][j := w.condvars[i]])
  {
    var p := Swap(w.condvars[i], w.condvars[j]);
    w.(condvars := w.condvars[i := p.fst][j := p.snd])
  }

  /** Destruction of the most recently created object; its handle, if any, is destroyed. */
  function DropCondVar(w: World): (s: Step<Option<Handle>>)
    requires |w.condvars| > 0
    ensures s.result == w.condvars[|w.condvars| - 1].handle
    ensures s.world == World(w.condvars[..|w.condvars| - 1], w.live - Own(s.result))
  {
    var released := Destroy(w.condvars[|w.condvars| - 1]);
    Step(World(w.condvars[..|w.condvars| - 1], w.live - Own(released)), released)
  }

  /** Destroys every object, most recent first, logging each handle destroyed. */
  function DestroyCondVars(w: World): (s: Step<seq<Handle>>)
    ensures s.world.condvars == []
    decreases |w.condvars|
  {
    if |w.condvars| == 0 then Step(w, [])
    else
      var d := DropCondVar(w);
      var rest := DestroyCondVars(d.world);
      Step(rest.world, Released(d.result) + rest.result)
  }

  // Every operation keeps the ownership discipline.

  lemma NewCondVarKeepsGood(w: World, created: Option<Handle>)
    requires Good(w)
    ensures Good(NewCondVar(w, created).world)
  {
    if created.Some? {
      OwnedAppend(w.condvars, CondVar(created), CondHandle);
    }
  }

  lemma MoveCondVarKeepsGood(w: World, i: nat)
    requires Good(w) && i < |w.condvars|
    ensures Good(MoveCondVar(w, i).world)
  {
    OwnedMoveOut(w.condvars, i, CondVar(None), CondHandle);
  }

  lemma AssignCondVarKeepsGood(w: World, i: nat, j: nat)
    requires Good(w) && i < |w.condvars| && j < |w.condvars|
    ensures Good(AssignCondVar(w, i, j).world)
  {
    if i != j {
      OwnedMoveAssign(w.condvars, i, j, CondVar(None), CondHandle);
    }
  }

  lemma SwapCondVarsKeepsGood(w: World, i: nat, j: nat)
    requires Good(w) && i < |w.condvars| && j < |w.condvars|
    ensures Good(SwapCondVars(w, i, j))
  {
    OwnedSwap(w.condvars, i, j, CondHandle);
  }

  lemma DropCondVarKeepsGood(w: World)
    requires Good(w) && |w.condvars| > 0
    ensures Good(DropCondVar(w).world)
  {
    OwnedDropLast(w.condvars, CondHandle);
  }

  /** Leaving the scope destroys exactly the live handles, each once, and leaves nothing behind. */
  lemma {:induction false} DestroyCondVarsDestroysEachOnce(w: World)
    requires Good(w)
    ensures var s := DestroyCondVars(w); multiset(s.result) == w.live && s.world == World([], multiset{})
    decreases |w.condvars|
  {
    if |w.condvars| > 0 {
      var d := DropCondVar(w);
      DropCondVarKeepsGood(w);
      DestroyCondVarsDestroysEachOnce(d.world);
      OwnedContains(w.condvars, |w.condvars| - 1, CondHandle);
      AddBack(w.live, Own(d.result));
    }
  }

  /**
   * After `condvars[i] = std::move(condvars[j])` between distinct objects,
   * every operation on `j` fails with `InvalidCondVarError` before reaching
   * the platform, and `i` behaves as `j` did.
   */
  lemma AssignedCondVarBehaves(w: World, i: nat, j: nat, ops: seq<Op>)
    requires i < |w.condvars| && j < |w.condvars| && i != j
    ensures var a := AssignCondVar(w, i, j).world;
      && Run(a.condvars[i], ops) == Run(w.condvars[j], ops)
      && forall k :: 0 <= k < |ops| ==> Run(a.condvars[j], ops)[k] == Outcome(Err(InvalidCondVarError), None)
  {
    var a := AssignCondVar(w, i, j).world;
    assert a.condvars[i] == w.condvars[j];
    assert a.condvars[j] == CondVar(None);
    MovedToBehavesAsOriginal(w.condvars[j], ops);
    MovedFromAlwaysInvalid(w.condvars[j], ops);
  }
}
