/**
 * The s6i_result `Result<T, E>`: exactly one of a success value of type `T`
 * or a failure value of type `E`, with its accessors and combinators.
 *
 * Accessors that stop the program by assertion when called on the wrong
 * variant (`unwrap`, `ref_ok`, `unwrap_err`, `ref_err`) take that variant as
 * a precondition. Callbacks are pure functions; `inspect_ok` and
 * `inspect_err` report the observation their callback made instead of
 * performing a side effect.
 */
module Results {
  import opened Options

  datatype Result<T, E> = Ok(value: T) | Err(error: E)

  /** Holds when `r` carries a failure value. */
  predicate IsErr<T, E>(r: Result<T, E>) {
    r.Err?
  }

  /** `is_ok`: holds when `r` carries a success value, which is exactly when it carries no failure value. */
  function IsOk<T, E>(r: Result<T, E>): (b: bool)
    ensures b != IsErr(r)
  {
    r.Ok?
  }

  /** `make_ok`: a Result built from a success value is Ok and gives that value back. */
  function MakeOk<T, E>(v: T): (r: Result<T, E>)
    ensures IsOk(r) && Unwrap(r) == v
  {
    Ok(v)
  }

  /** `make_err`: a Result built from a failure value is Err and gives that value back. */
  function MakeErr<T, E>(e: E): (r: Result<T, E>)
    ensures IsErr(r) && UnwrapErr(r) == e
  {
    Err(e)
  }

  /** `unwrap`: the success value; `r` is exactly Ok of what is returned. */
  function Unwrap<T, E>(r: Result<T, E>): (v: T)
    requires IsOk(r)
    ensures r == Ok(v)
  {
    r.value
  }

  /** `unwrap_err`: the failure value; `r` is exactly Err of what is returned. */
  function UnwrapErr<T, E>(r: Result<T, E>): (e: E)
    requires IsErr(r)
    ensures r == Err(e)
  {
    r.error
  }

  /** `unwrap_or`: the success value, or `default` on failure; never stops the program. */
  function UnwrapOr<T, E>(r: Result<T, E>, default: T): (v: T)
    ensures IsOk(r) ==> v == Unwrap(r)
    ensures IsErr(r) ==> v == default
  {
    match r
    case Ok(x) => x
    case Err(_) => default
  }

  /** `ref_ok` read without consuming: the same value `unwrap` would give. */
  function RefOk<T, E>(r: Result<T, E>): (v: T)
    requires IsOk(r)
    ensures v == Unwrap(r)
  {
    r.value
  }

  /** Assignment through `ref_ok()`: the Result stays Ok and now holds `v`. */
  function AssignOk<T, E>(r: Result<T, E>, v: T): (r': Result<T, E>)
    requires IsOk(r)
    ensures IsOk(r') && RefOk(r') == v
  {
    r.(value := v)
  }

  /** `ref_err` read without consuming: the same value `unwrap_err` would give. */
  function RefErr<T, E>(r: Result<T, E>): (e: E)
    requires IsErr(r)
    ensures e == UnwrapErr(r)
  {
    r.error
  }

  /** Assignment through `ref_err()`: the Result stays Err and now holds `e`. */
  function AssignErr<T, E>(r: Result<T, E>, e: E): (r': Result<T, E>)
    requires IsErr(r)
    ensures IsErr(r') && RefErr(r') == e
  {
    r.(error := e)
  }

  /** `map`: transforms the success value, keeps the variant and leaves a failure untouched. */
  function Map<T, E, U>(r: Result<T, E>, f: T -> U): (m: Result<U, E>)
    ensures IsOk(m) == IsOk(r)
    ensures IsOk(r) ==> Unwrap(m) == f(Unwrap(r))
    ensures IsErr(r) ==> UnwrapErr(m) == UnwrapErr(r)
  {
    match r
    case Ok(v) => Ok(f(v))
    case Err(e) => Err(e)
  }

  /** `map_err`: transforms the failure value, keeps the variant and leaves a success untouched. */
  function MapErr<T, E, F>(r: Result<T, E>, f: E -> F): (m: Result<T, F>)
    ensures IsErr(m) == IsErr(r)
    ensures IsErr(r) ==> UnwrapErr(m) == f(UnwrapErr(r))
    ensures IsOk(r) ==> Unwrap(m) == Unwrap(r)
  {
    match r
    case Ok(v) => Ok(v)
    case Err(e) => Err(f(e))
  }

  /** What an `inspect_*` call hands back: the unchanged Result and the callback's observation, if it ran. */
  datatype Inspected<T, E, O> = Inspected(result: Result<T, E>, observed: Option<O>)

  /** `inspect_ok`: the Result comes back unchanged; the callback runs on the success value, and only then. */
  function InspectOk<T, E, O>(r: Result<T, E>, f: T -> O): (i: Inspected<T, E, O>)
    ensures i.result == r
    ensures i.observed.Some? <==> IsOk(r)
    ensures IsOk(r) ==> i.observed.value == f(Unwrap(r))
  {
    match r
    case Ok(v) => Inspected(r, Some(f(v)))
    case Err(_) => Inspected(r, None)
  }

  /** `inspect_err`: the Result comes back unchanged; the callback runs on the failure value, and only then. */
  function InspectErr<T, E, O>(r: Result<T, E>, f: E -> O): (i: Inspected<T, E, O>)
    ensures i.result == r
    ensures i.observed.Some? <==> IsErr(r)
    ensures IsErr(r) ==> i.observed.value == f(UnwrapErr(r))
  {
    match r
    case Ok(_) => Inspected(r, None)
    case Err(e) => Inspected(r, Some(f(e)))
  }

  /** `and_then`: continues with `f` on success; a failure short-circuits with its error untouched. */
  function AndThen<T, E, U>(r: Result<T, E>, f: T -> Result<U, E>): (a: Result<U, E>)
    ensures IsOk(r) ==> a == f(Unwrap(r))
    ensures IsErr(r) ==> IsErr(a) && UnwrapErr(a) == UnwrapErr(r)
  {
    match r
    case Ok(v) => f(v)
    case Err(e) => Err(e)
  }

  /**
   * A pipeline `r.and_then(fs[0]).and_then(fs[1])...`. A failure going in
   * comes out unchanged, whatever the steps.
   */
  function Chain<T, E>(r: Result<T, E>, fs: seq<T -> Result<T, E>>): (c: Result<T, E>)
    ensures IsErr(r) ==> c == r
    decreases |fs|
  {
    if |fs| == 0 then r else Chain(AndThen(r, fs[0]), fs[1..])
  }

  // What a consuming call leaves in the variable it was called on.

  /**
   * The accessors `unwrap`, `unwrap_or` and `unwrap_err` move the payload
   * out of the Result, and the combinators first move the whole Result into
   * a local. The variable the call was made on still holds its alternative,
   * but with the moved-from contents of the payload's type, which C++ leaves
   * unspecified and which the model takes as a `residue` parameter. `out`
   * is what the call returns, `source` what stays in the variable.
   */
  datatype Consumed<X, T, E> = Consumed(out: X, source: Result<T, E>)

  /**
   * A combinator call on a variable (`map`, `map_err`, `inspect_ok`,
   * `inspect_err`, `and_then`): `op` runs on the whole original Result, and
   * the variable keeps its alternative with the residue as payload.
   */
  function Consume<T, E, X>(r: Result<T, E>, okResidue: T, errResidue: E, op: Result<T, E> -> X): (c: Consumed<X, T, E>)
    ensures c.out == op(r)
    ensures IsOk(c.source) == IsOk(r)
    ensures IsOk(r) ==> Unwrap(c.source) == okResidue
    ensures IsErr(r) ==> UnwrapErr(c.source) == errResidue
  {
    match r
    case Ok(_) => Consumed(op(r), Ok(okResidue))
    case Err(_) => Consumed(op(r), Err(errResidue))
  }

  /** `unwrap` on a variable: returns the whole success value and leaves the variable Ok with the residue. */
  function UnwrapMove<T, E>(r: Result<T, E>, okResidue: T): (c: Consumed<T, T, E>)
    requires IsOk(r)
    ensures MakeOk(c.out) == r
    ensures IsOk(c.source) && Unwrap(c.source) == okResidue
  {
    Consumed(r.value, Ok(okResidue))
  }

  /** `unwrap_err` on a variable: returns the whole failure value and leaves the variable Err with the residue. */
  function UnwrapErrMove<T, E>(r: Result<T, E>, errResidue: E): (c: Consumed<E, T, E>)
    requires IsErr(r)
    ensures MakeErr(c.out) == r
    ensures IsErr(c.source) && UnwrapErr(c.source) == errResidue
  {
    Consumed(r.error, Err(errResidue))
  }

  /**
   * `unwrap_or` on a variable: on success the value is moved out and the
   * variable is left with the residue; on failure the default is returned
   * and the variable is untouched.
   */
  function UnwrapOrMove<T, E>(r: Result<T, E>, default: T, okResidue: T): (c: Consumed<T, T, E>)
    ensures IsOk(r) ==> MakeOk(c.out) == r && c.source == Ok(okResidue)
    ensures IsErr(r) ==> c.out == default && c.source == r
  {
    match r
    case Ok(v) => Consumed(v, Ok(okResidue))
    case Err(_) => Consumed(default, r)
  }

  // Laws relating the combinators to each other.

  /** Inspecting for success and inspecting for failure: exactly one of the two callbacks runs. */
  lemma InspectExactlyOneFires<T, E, O, P>(r: Result<T, E>, f: T -> O, g: E -> P)
    ensures InspectOk(r, f).observed.Some? != InspectErr(r, g).observed.Some?
  {
  }

  /** `map` with the identity function gives the same Result back. */
  lemma MapIdentity<T, E>(r: Result<T, E>)
    ensures Map(r, x => x) == r
  {
  }

  /** Two `map`s in a row are one `map` of the composed function. */
  lemma MapCompose<T, E, U, V>(r: Result<T, E>, f: T -> U, g: U -> V)
    ensures Map(Map(r, f), g) == Map(r, x => g(f(x)))
  {
  }

  /** `map_err` with the identity function gives the same Result back. */
  lemma MapErrIdentity<T, E>(r: Result<T, E>)
    ensures MapErr(r, x => x) == r
  {
  }

  /** Two `map_err`s in a row are one `map_err` of the composed function. */
  lemma MapErrCompose<T, E, F, G>(r: Result<T, E>, f: E -> F, g: F -> G)
    ensures MapErr(MapErr(r, f), g) == MapErr(r, x => g(f(x)))
  {
  }

  /** `map` and `map_err` act on different sides and commute. */
  lemma MapMapErrCommute<T, E, U, F>(r: Result<T, E>, f: T -> U, g: E -> F)
    ensures MapErr(Map(r, f), g) == Map(MapErr(r, g), f)
  {
  }

  /** `map(f)` is `and_then` with a step that always succeeds with `f`'s value. */
  lemma MapIsAndThenOk<T, E, U>(r: Result<T, E>, f: T -> U)
    ensures Map(r, f) == AndThen(r, x => Ok(f(x)))
  {
  }

  /** `and_then` on a freshly made success is the step itself. */
  lemma AndThenLeftIdentity<T, E, U>(v: T, f: T -> Result<U, E>)
    ensures AndThen(MakeOk(v), f) == f(v)
  {
  }

  /** `and_then` with a step that just succeeds gives the same Result back. */
  lemma AndThenRightIdentity<T, E>(r: Result<T, E>)
    ensures AndThen(r, x => Ok(x)) == r
  {
  }

  /** Chaining is associative: grouping the steps differently gives the same Result. */
  lemma AndThenAssociative<T, E, U, V>(r: Result<T, E>, f: T -> Result<U, E>, g: U -> Result<V, E>)
    ensures AndThen(AndThen(r, f), g) == AndThen(r, x => AndThen(f(x), g))
  {
  }

  /** `unwrap_or` agrees with `unwrap` on every success, whatever the default. */
  lemma UnwrapOrIgnoresDefaultOnOk<T, E>(r: Result<T, E>, d1: T, d2: T)
    requires IsOk(r)
    ensures UnwrapOr(r, d1) == UnwrapOr(r, d2) == Unwrap(r)
  {
  }

  /**
   * A consumed variable still answers `is_ok` as before, but a second
   * `unwrap` or `unwrap_or` on it gives the moved-from residue, not the value.
   */
  lemma UnwrapTwiceGivesResidue<T, E>(r: Result<T, E>, residue1: T, residue2: T, default: T)
    requires IsOk(r)
    ensures var c := UnwrapMove(r, residue1);
      && IsOk(c.source)
      && UnwrapMove(c.source, residue2).out == residue1
      && UnwrapOrMove(c.source, default, residue2).out == residue1
  {
  }

  /** A combinator call leaves the variable with the same alternative whichever combinator it was. */
  lemma ConsumeKeepsAlternative<T, E, X, Y>(r: Result<T, E>, okResidue: T, errResidue: E, f: Result<T, E> -> X, g: Result<T, E> -> Y)
    ensures Consume(r, okResidue, errResidue, f).source == Consume(r, okResidue, errResidue, g).source
    ensures IsErr(Consume(r, okResidue, errResidue, f).source) == IsErr(r)
  {
  }

  /** A pipeline split in two runs the first part and feeds its Result to the second. */
  lemma {:induction false} ChainAppend<T, E>(r: Result<T, E>, fs: seq<T -> Result<T, E>>, gs: seq<T -> Result<T, E>>)
    ensures Chain(r, fs + gs) == Chain(Chain(r, fs), gs)
    decreases |fs|
  {
    if |fs| == 0 {
      assert fs + gs == gs;
    } else {
      assert (fs + gs)[0] == fs[0];
      assert (fs + gs)[1..] == fs[1..] + gs;
      ChainAppend(AndThen(r, fs[0]), fs[1..], gs);
    }
  }

  /**
   * Short-circuiting: once the first `k` steps of a pipeline have failed, the
   * whole pipeline ends with that same failure and no later step matters.
   */
  lemma ChainStopsAtFirstErr<T, E>(r: Result<T, E>, fs: seq<T -> Result<T, E>>, k: nat)
    requires k <= |fs|
    requires IsErr(Chain(r, fs[..k]))
    ensures Chain(r, fs) == Chain(r, fs[..k])
  {
    assert fs == fs[..k] + fs[k..];
    ChainAppend(r, fs[..k], fs[k..]);
  }
}
