/**
 * Platform handles and who is responsible for releasing them.
 *
 * A handle is an opaque platform resource (a mutex, a condition variable, or
 * a held lock); `None` stands for the null handle a moved-from object keeps.
 * `Owned` counts, for a sequence of objects, the handles they will release
 * when they are destroyed. The lemmas here are the conservation laws of the
 * move-only design: a move construction, a swap or a self-assignment
 * neither duplicates nor loses a responsibility, and a move assignment or a
 * destruction gives up exactly the handle it releases.
 */
module Handles {
  import opened Options

  type Handle = nat

  /** Two objects' states after a move construction (`fst` the new object, `snd` the source) or a swap. */
  datatype Pair<X> = Pair(fst: X, snd: X)

  /** Two objects' states after `dst = std::move(src)`, and the handle released on the way. */
  datatype Assigned<X> = Assigned(dst: X, src: X, released: Option<Handle>)

  /** The handles one object with handle `h` will release: none when `h` is null. */
  function Own(h: Option<Handle>): multiset<Handle> {
    match h
    case None => multiset{}
    case Some(x) => multiset{x}
  }

  /** The log entry for one object's release: its handle, or nothing when it is null. */
  function Released(h: Option<Handle>): (log: seq<Handle>)
    ensures multiset(log) == Own(h)
  {
    match h
    case None => []
    case Some(x) => [x]
  }

  /** The handles a sequence of objects will release, one per object with a non-null handle. */
  function Owned<X>(xs: seq<X>, handleOf: X -> Option<Handle>): multiset<Handle>
    decreases |xs|
  {
    if |xs| == 0 then multiset{}
    else Owned(xs[..|xs| - 1], handleOf) + Own(handleOf(xs[|xs| - 1]))
  }

  /** A new object adds exactly its own handle. */
  lemma OwnedAppend<X>(xs: seq<X>, x: X, handleOf: X -> Option<Handle>)
    ensures Owned(xs + [x], handleOf) == Owned(xs, handleOf) + Own(handleOf(x))
  {
    assert (xs + [x])[..|xs|] == xs;
  }

  /** Destroying the last object gives up exactly its own handle. */
  lemma OwnedDropLast<X>(xs: seq<X>, handleOf: X -> Option<Handle>)
    requires |xs| > 0
    ensures Owned(xs[..|xs| - 1], handleOf) == Owned(xs, handleOf) - Own(handleOf(xs[|xs| - 1]))
  {
    var n := |xs| - 1;
    assert Owned(xs, handleOf) == Owned(xs[..n], handleOf) + Own(handleOf(xs[n]));
  }

  /** Overwriting one object trades its handle for the new object's handle. */
  lemma {:induction false} OwnedUpdate<X>(xs: seq<X>, i: nat, x: X, handleOf: X -> Option<Handle>)
    requires i < |xs|
    ensures Owned(xs[i := x], handleOf) + Own(handleOf(xs[i])) == Owned(xs, handleOf) + Own(handleOf(x))
    decreases |xs|
  {
    var n := |xs| - 1;
    var ys := xs[i := x];
    if i == n {
      assert ys[..n] == xs[..n];
    } else {
      var init := xs[..n];
      assert ys[..n] == init[i := x];
      assert init[i] == xs[i];
      OwnedUpdate(init, i, x, handleOf);
      var a, b, c := Owned(init[i := x], handleOf), Own(handleOf(xs[n])), Own(handleOf(xs[i]));
      calc {
        Owned(ys, handleOf) + c;
        a + b + c;
        (a + c) + b;
        Owned(init, handleOf) + Own(handleOf(x)) + b;
        (Owned(init, handleOf) + b) + Own(handleOf(x));
        Owned(xs, handleOf) + Own(handleOf(x));
      }
    }
  }

  /** An object's handle is among the owned ones. */
  lemma {:induction false} OwnedContains<X>(xs: seq<X>, i: nat, handleOf: X -> Option<Handle>)
    requires i < |xs|
    ensures Own(handleOf(xs[i])) <= Owned(xs, handleOf)
    decreases |xs|
  {
    var n := |xs| - 1;
    assert Owned(xs, handleOf) == Owned(xs[..n], handleOf) + Own(handleOf(xs[n]));
    if i < n {
      assert xs[..n][i] == xs[i];
      OwnedContains(xs[..n], i, handleOf);
    }
  }

  /** Multiset cancellation: what is traded for `c` can be computed by taking `c` away. */
  lemma Cancel(a: multiset<Handle>, b: multiset<Handle>, c: multiset<Handle>, d: multiset<Handle>)
    requires a + c == b + d && c <= b
    ensures a == b - c + d
  {
    forall h
      ensures a[h] == (b - c + d)[h]
    {
      assert (a + c)[h] == (b + d)[h];
      assert c[h] <= b[h];
    }
  }

  /** Multiset arithmetic: a common part cancels. */
  lemma CancelCommon(a: multiset<Handle>, b: multiset<Handle>, c: multiset<Handle>)
    requires a + c == b + c
    ensures a == b
  {
    forall h
      ensures a[h] == b[h]
    {
      assert (a + c)[h] == (b + c)[h];
    }
  }

  /** Multiset arithmetic: taking away a part and adding it back restores the whole. */
  lemma AddBack(b: multiset<Handle>, c: multiset<Handle>)
    requires c <= b
    ensures b - c + c == b
  {
    forall h
      ensures (b - c + c)[h] == b[h]
    {
      assert c[h] <= b[h];
    }
  }

  /** Overwriting one object gives up its handle and takes on the new object's. */
  lemma OwnedReplace<X>(xs: seq<X>, i: nat, x: X, handleOf: X -> Option<Handle>)
    requires i < |xs|
    ensures Owned(xs[i := x], handleOf) == Owned(xs, handleOf) - Own(handleOf(xs[i])) + Own(handleOf(x))
  {
    OwnedUpdate(xs, i, x, handleOf);
    OwnedContains(xs, i, handleOf);
    Cancel(Owned(xs[i := x], handleOf), Owned(xs, handleOf), Own(handleOf(xs[i])), Own(handleOf(x)));
  }

  /** Move construction: the source is nulled and a new object takes its handle; nothing changes hands. */
  lemma OwnedMoveOut<X>(xs: seq<X>, i: nat, nulled: X, handleOf: X -> Option<Handle>)
    requires i < |xs| && handleOf(nulled).None?
    ensures Owned(xs[i := nulled] + [xs[i]], handleOf) == Owned(xs, handleOf)
  {
    var ys := xs[i := nulled];
    OwnedReplace(xs, i, nulled, handleOf);
    OwnedAppend(ys, xs[i], handleOf);
    OwnedContains(xs, i, handleOf);
    var all, mine := Owned(xs, handleOf), Own(handleOf(xs[i]));
    assert Owned(ys, handleOf) == all - mine;
    AddBack(all, mine);
  }

  /** Swap of two objects: nothing changes hands. */
  lemma OwnedSwap<X>(xs: seq<X>, i: nat, j: nat, handleOf: X -> Option<Handle>)
    requires i < |xs| && j < |xs|
    ensures Owned(xs[i := xs[j]][j := xs[i]], handleOf) == Owned(xs, handleOf)
  {
    if i != j {
      var ys := xs[i := xs[j]];
      OwnedUpdate(xs, i, xs[j], handleOf);
      OwnedUpdate(ys, j, xs[i], handleOf);
      assert ys[j] == xs[j];
      var a, b, all := Owned(ys[j := xs[i]], handleOf), Owned(ys, handleOf), Owned(xs, handleOf);
      var oi, oj := Own(handleOf(xs[i])), Own(handleOf(xs[j]));
      assert b + oi == all + oj;
      assert a + oj == b + oi;
      CancelCommon(a, all, oj);
    } else {
      assert xs[i := xs[j]][j := xs[i]] == xs;
    }
  }

  /**
   * Move assignment `xs[i] = move(xs[j])` between distinct objects: the
   * source is nulled, the target takes its handle, and exactly the target's
   * old handle is given up.
   */
  lemma OwnedMoveAssign<X>(xs: seq<X>, i: nat, j: nat, nulled: X, handleOf: X -> Option<Handle>)
    requires i < |xs| && j < |xs| && i != j && handleOf(nulled).None?
    ensures Owned(xs[i := xs[j]][j := nulled], handleOf) == Owned(xs, handleOf) - Own(handleOf(xs[i]))
  {
    var ys := xs[i := xs[j]];
    OwnedReplace(xs, i, xs[j], handleOf);
    OwnedReplace(ys, j, nulled, handleOf);
  }
}
