/** The `Result` container of package `do` together with its constructors,
    accessors and short-circuiting combinators. */
module Do {
  import opened Nilable

  /** A value of type `T` and an error that is `None` when the result is ok. */
  datatype Result<T, E> = Result(val: T, err: Option<E>) {

    /** True exactly when the result carries a non-nil error. */
    predicate IsError(): (b: bool)
      ensures b <==> Err().Some?
    {
      err != None
    }

    /** The encapsulated error (`None` for an ok result). */
    function Err(): (e: Option<E>)
      ensures e == Return().1
    {
      err
    }

    /** The wrapped value; meaningless (but still returned) when `IsError()`. */
    function Val(): (v: T)
      ensures v == Return().0
    {
      val
    }

    /** Both fields, in the shape of a Go `(T, error)` return. */
    function Return(): (T, Option<E>)
    {
      (val, err)
    }
  }

  /** Wraps a Go-style `(value, error)` pair; the value is kept even when the
      error is non-nil. */
  function WithReturn<T, E>(val: T, err: Option<E>): (r: Result<T, E>)
    ensures r.Return() == (val, err)
    ensures r.IsError() <==> err.Some?
  {
    Result(val, err)
  }

  /** Wraps a plain value; never an error. */
  function WithJust<T, E>(val: T): (r: Result<T, E>)
    ensures !r.IsError()
    ensures r.Val() == val
  {
    Result(val, None)
  }

  /** Applies `mapFn` to an ok value. On an errored input the error is forwarded
      and `mapFn` is not called; the new value is then Go's zero value of the
      target type, passed in as `zero`. */
  function Map<T, U, E>(input: Result<T, E>, mapFn: T -> U, zero: U): (r: Result<U, E>)
    ensures r.Err() == input.Err()
    ensures !input.IsError() ==> r.Val() == mapFn(input.Val())
  {
    if input.IsError() then
      Result(zero, input.err)
    else
      Result(mapFn(input.val), None)
  }

  /** Like `Map`, but `mapFn` may fail; on an ok input the result is exactly the
      pair `mapFn` returned, value included even beside a non-nil error. */
  function MapOrErr<T, U, E>(input: Result<T, E>, mapFn: T -> (U, Option<E>), zero: U): (r: Result<U, E>)
    ensures input.IsError() ==> r.Err() == input.Err()
    ensures !input.IsError() ==> r.Return() == mapFn(input.Val())
  {
    if input.IsError() then
      Result(zero, input.err)
    else
      var (newVal, newErr) := mapFn(input.val);
      Result(newVal, newErr)
  }

  /** Calls `errFn` with the error when `input.IsError()`, otherwise `okFn` with
      the value. The Go callbacks return nothing; here each yields a value of
      type `R` standing for what it did. */
  function Fold<T, E, R>(input: Result<T, E>, okFn: T -> R, errFn: E -> R): (r: R)
    ensures input.IsError() ==> r == errFn(input.Err().value)
    ensures !input.IsError() ==> r == okFn(input.Val())
  {
    if input.IsError() then errFn(input.err.value) else okFn(input.val)
  }

  // ---------------------------------------------------------------------------
  // Properties of single calls
  // ---------------------------------------------------------------------------

  /** `Return` undoes `WithReturn`, and `WithReturn` rebuilds any result from
      its `Return` pair. */
  lemma ReturnRoundTrip<T, E>(val: T, err: Option<E>, r: Result<T, E>)
    ensures WithReturn(val, err).Return() == (val, err)
    ensures WithReturn(r.Return().0, r.Return().1) == r
  {
  }

  /** `Err` returns the held error, which is non-nil on an errored result and
      nil on an ok one. A corollary of the ensures of `IsError`, kept to record
      that the code, not the doc comment on `Err`, decides this. */
  lemma ErrNonNilOnError<T, E>(r: Result<T, E>)
    ensures r.IsError() ==> r.Err() != None
    ensures !r.IsError() ==> r.Err() == None
  {
  }

  /** An errored input gives the same result whatever mapping function is
      passed: the function is never applied. */
  lemma MapSkipsMapFn<T, U, E>(input: Result<T, E>, f: T -> U, g: T -> U, zero: U)
    requires input.IsError()
    ensures Map(input, f, zero) == Map(input, g, zero)
    ensures Map(input, f, zero).IsError()
  {
  }

  /** On an ok input `Map` yields an ok result holding the mapped value. */
  lemma MapOnOk<T, U, E>(input: Result<T, E>, mapFn: T -> U, zero: U)
    requires !input.IsError()
    ensures !Map(input, mapFn, zero).IsError()
    ensures Map(input, mapFn, zero).Val() == mapFn(input.Val())
  {
  }

  /** Mapping the identity keeps an ok result as it is. */
  lemma MapIdentity<T, E>(input: Result<T, E>, zero: T)
    requires !input.IsError()
    ensures Map(input, x => x, zero) == input
  {
  }

  /** Two maps in a row are one map by the composed function. */
  lemma MapComposes<T, U, V, E>(input: Result<T, E>, f: T -> U, g: U -> V, zeroU: U, zeroV: V)
    ensures Map(Map(input, f, zeroU), g, zeroV) == Map(input, x => g(f(x)), zeroV)
  {
  }

  /** An errored input gives the same result whatever fallible function is
      passed: the function is never applied. */
  lemma MapOrErrSkipsMapFn<T, U, E>(input: Result<T, E>, f: T -> (U, Option<E>), g: T -> (U, Option<E>), zero: U)
    requires input.IsError()
    ensures MapOrErr(input, f, zero) == MapOrErr(input, g, zero)
    ensures MapOrErr(input, f, zero).Err() == input.Err()
  {
  }

  /** `Map` is `MapOrErr` with a function that never fails. */
  lemma MapIsMapOrErr<T, U, E>(input: Result<T, E>, f: T -> U, zero: U)
    ensures Map(input, f, zero) == MapOrErr(input, x => (f(x), None), zero)
  {
  }

  /** `Fold` depends only on the callback of the branch it takes. */
  lemma FoldRunsOneBranch<T, E, R>(input: Result<T, E>, ok1: T -> R, ok2: T -> R, err1: E -> R, err2: E -> R)
    ensures input.IsError() ==> Fold(input, ok1, err1) == Fold(input, ok2, err1)
    ensures !input.IsError() ==> Fold(input, ok1, err1) == Fold(input, ok1, err2)
  {
  }

  // ---------------------------------------------------------------------------
  // Chains of combinators
  // ---------------------------------------------------------------------------

  /** One link of a chain: a `Map` or a `MapOrErr` call. The model keeps the
      value type fixed along a chain. */
  datatype Step<!T, E> = MapStep(f: T -> T) | MapOrErrStep(g: T -> (T, Option<E>))

  /** Applies one link to a result. */
  function Apply<T, E>(input: Result<T, E>, step: Step<T, E>, zero: T): (r: Result<T, E>)
    ensures input.IsError() ==> r.Err() == input.Err()
  {
    match step
    case MapStep(f) => Map(input, f, zero)
    case MapOrErrStep(g) => MapOrErr(input, g, zero)
  }

  /** Threads a result through the links in order, as in
      `r = Map(r, f); r = MapOrErr(r, g); ...`. */
  function Run<T, E>(input: Result<T, E>, steps: seq<Step<T, E>>, zero: T): (r: Result<T, E>)
    ensures input.IsError() ==> r.Err() == input.Err()
    decreases |steps|
  {
    if steps == [] then input else Run(Apply(input, steps[0], zero), steps[1..], zero)
  }

  /** Running two chains one after the other is running their concatenation. */
  lemma {:induction false} RunAppend<T, E>(input: Result<T, E>, a: seq<Step<T, E>>, b: seq<Step<T, E>>, zero: T)
    ensures Run(input, a + b, zero) == Run(Run(input, a, zero), b, zero)
    decreases |a|
  {
    if a == [] {
      assert a + b == b;
    } else {
      assert (a + b)[0] == a[0];
      assert (a + b)[1..] == a[1..] + b;
      RunAppend(Apply(input, a[0], zero), a[1..], b, zero);
    }
  }

  /** After an errored input, no link of a chain is applied: any chain of the
      same length gives the same result. */
  lemma {:induction false} RunSkipsAllSteps<T, E>(input: Result<T, E>, s1: seq<Step<T, E>>, s2: seq<Step<T, E>>, zero: T)
    requires input.IsError()
    requires |s1| == |s2|
    ensures Run(input, s1, zero) == Run(input, s2, zero)
    decreases |s1|
  {
    if s1 != [] {
      var next := Apply(input, s1[0], zero);
      assert next == Apply(input, s2[0], zero) == Result(zero, input.err);
      RunSkipsAllSteps(next, s1[1..], s2[1..], zero);
    }
  }

  /** The closed form of a skipped chain: on an errored input, any non-empty
      chain ends in the input's error beside the zero value, whatever its
      links are. */
  lemma {:induction false} RunOnErrorIsZero<T, E>(input: Result<T, E>, steps: seq<Step<T, E>>, zero: T)
    requires input.IsError()
    requires steps != []
    ensures Run(input, steps, zero) == Result(zero, input.err)
    decreases |steps|
  {
    var next := Apply(input, steps[0], zero);
    assert next == Result(zero, input.err);
    if |steps| > 1 {
      RunOnErrorIsZero(next, steps[1..], zero);
    }
  }

  /** Once an error enters a chain after its first `k` links, the final
      result carries that same error. */
  lemma ErrorSticks<T, E>(input: Result<T, E>, steps: seq<Step<T, E>>, k: nat, zero: T)
    requires k <= |steps|
    requires Run(input, steps[..k], zero).IsError()
    ensures Run(input, steps, zero).Err() == Run(input, steps[..k], zero).Err()
  {
    assert steps == steps[..k] + steps[k..];
    RunAppend(input, steps[..k], steps[k..], zero);
  }

  /** A value looked up by a fallible function and then transformed: when the
      lookup fails, the transformation is never applied and the final error is
      the lookup's. */
  lemma LookupThenTransform<T, U, V, E>(v: T, lookup: T -> (U, Option<E>), t1: U -> V, t2: U -> V, zeroU: U, zeroV: V)
    requires lookup(v).1.Some?
    ensures Map(MapOrErr(WithJust(v), lookup, zeroU), t1, zeroV).Err() == lookup(v).1
    ensures Map(MapOrErr(WithJust(v), lookup, zeroU), t1, zeroV) == Map(MapOrErr(WithJust(v), lookup, zeroU), t2, zeroV)
  {
  }
}
