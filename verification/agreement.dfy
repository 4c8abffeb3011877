/** Package `is` is a near-identical copy of package `do`: this module maps an
    `Either` to the `Result` with the same fields and shows that every
    operation of one corresponds to an operation of the other. */
module Agreement {
  import opened Nilable
  import Do
  import Is

  /** The `Result` holding the same value and error as `e`. */
  function ToResult<T, E>(e: Is.Either<T, E>): (r: Do.Result<T, E>)
    ensures r.Return() == e.Fold()
    ensures r.IsError() == e.IsError()
  {
    Do.Result(e.val, e.err)
  }

  /** `ToResult` is one-to-one, so equal images mean equal `Either`s. */
  lemma ToResultInjective<T, E>(a: Is.Either<T, E>, b: Is.Either<T, E>)
    requires ToResult(a) == ToResult(b)
    ensures a == b
  {
  }

  /** `Check` builds what `WithReturn` builds. */
  lemma CheckIsWithReturn<T, E>(v: T, err: Option<E>)
    ensures ToResult(Is.Check(v, err)) == Do.WithReturn(v, err)
  {
  }

  /** The accessors agree. */
  lemma AccessorsAgree<T, E>(e: Is.Either<T, E>)
    ensures ToResult(e).Val() == e.Val()
    ensures ToResult(e).Err() == e.Err()
    ensures ToResult(e).Return() == e.Fold()
  {
  }

  /** `Is.Map` is `Do.Map`. */
  lemma MapAgrees<T, U, E>(e: Is.Either<T, E>, f: T -> U, zero: U)
    ensures ToResult(Is.Map(e, f, zero)) == Do.Map(ToResult(e), f, zero)
  {
  }

  /** `Is.MapErr` is `Do.MapOrErr`. */
  lemma MapErrIsMapOrErr<T, U, E>(e: Is.Either<T, E>, f: T -> (U, Option<E>), zero: U)
    ensures ToResult(Is.MapErr(e, f, zero)) == Do.MapOrErr(ToResult(e), f, zero)
  {
  }
}
