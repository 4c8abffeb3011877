/** The `Either` container of package `is`: the same value/error pair as
    `Do.Result`, with `Check` as constructor, `Fold` as the pair accessor and
    `Map`/`MapErr` as combinators. */
module Is {
  import opened Nilable

  /** A value of type `T` and an error that is `None` when there is none. */
  datatype Either<T, E> = Either(val: T, err: Option<E>) {

    /** True exactly when a non-nil error is held. */
    predicate IsError(): (b: bool)
      ensures b <==> Err().Some?
    {
      err != None
    }

    /** The held error (`None` when there is none). */
    function Err(): (e: Option<E>)
      ensures e == Fold().1
    {
      err
    }

    /** The held value; meaningless (but still returned) when `IsError()`. */
    function Val(): (v: T)
      ensures v == Fold().0
    {
      val
    }

    /** Both fields as a Go `(T, error)` pair. */
    function Fold(): (T, Option<E>)
    {
      (val, err)
    }
  }

  /** Wraps a Go-style `(value, error)` pair, keeping the value beside a
      non-nil error. */
  function Check<T, E>(v: T, err: Option<E>): (r: Either<T, E>)
    ensures r.Fold() == (v, err)
    ensures r.IsError() <==> err.Some?
  {
    Either(v, err)
  }

  /** Applies `fn` to a value; on an errored input the error is forwarded and
      `fn` is not called, the new value being Go's zero value `zero`. */
  function Map<T, U, E>(e: Either<T, E>, fn: T -> U, zero: U): (r: Either<U, E>)
    ensures r.Err() == e.Err()
    ensures !e.IsError() ==> r.Val() == fn(e.Val())
  {
    if e.IsError() then
      Either(zero, e.err)
    else
      Either(fn(e.val), None)
  }

  /** Like `Map`, but `fn` may fail; on an ok input the result is exactly the
      pair `fn` returned. */
  function MapErr<T, U, E>(e: Either<T, E>, fn: T -> (U, Option<E>), zero: U): (r: Either<U, E>)
    ensures e.IsError() ==> r.Err() == e.Err()
    ensures !e.IsError() ==> r.Fold() == fn(e.Val())
  {
    if e.IsError() then
      Either(zero, e.err)
    else
      var (newVal, newErr) := fn(e.val);
      Either(newVal, newErr)
  }

  /** `Fold` undoes `Check`, and `Check` rebuilds any value from its `Fold`
      pair. */
  lemma CheckFoldRoundTrip<T, E>(v: T, err: Option<E>, e: Either<T, E>)
    ensures Check(v, err).Fold() == (v, err)
    ensures Check(e.Fold().0, e.Fold().1) == e
  {
  }

  /** On an errored input `Map` gives the same result whatever `fn` is. */
  lemma MapSkipsFn<T, U, E>(e: Either<T, E>, f: T -> U, g: T -> U, zero: U)
    requires e.IsError()
    ensures Map(e, f, zero) == Map(e, g, zero)
    ensures Map(e, f, zero).IsError()
  {
  }

  /** On an ok input `Map` has no error and holds the mapped value. */
  lemma MapOnOk<T, U, E>(e: Either<T, E>, fn: T -> U, zero: U)
    requires !e.IsError()
    ensures !Map(e, fn, zero).IsError()
    ensures Map(e, fn, zero).Val() == fn(e.Val())
  {
  }

  /** On an errored input `MapErr` gives the same result whatever `fn` is. */
  lemma MapErrSkipsFn<T, U, E>(e: Either<T, E>, f: T -> (U, Option<E>), g: T -> (U, Option<E>), zero: U)
    requires e.IsError()
    ensures MapErr(e, f, zero) == MapErr(e, g, zero)
    ensures MapErr(e, f, zero).Err() == e.Err()
  {
  }

  /** `Map(e, f)` is `MapErr(e, x => (f(x), nil))` for every `e`. */
  lemma MapIsMapErr<T, U, E>(e: Either<T, E>, f: T -> U, zero: U)
    ensures Map(e, f, zero) == MapErr(e, x => (f(x), None), zero)
  {
  }
}
