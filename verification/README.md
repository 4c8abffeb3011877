# do / is — Result and Either containers in Dafny

This project models the Go library `do`, a generic container for
short-circuiting error handling. Its package `do` defines `Result[T]`, a struct
holding a value `val` and an `error` `err`. It has the constructors `WithReturn`
and `WithJust`, the accessors `IsError`, `Err`, `Val` and `Return`, and the
combinators `Map`, `MapOrErr` and `Fold`. Package `is` holds a near-identical copy of
the same struct, `Either[T]`. It has `Check`, `IsError`, `Err`, `Val`, a
pair-returning `Fold`, and `Map` and `MapErr`.

Files:
- `nilable.dfy` (module `Nilable`): `Option`. Go's nil `error` is `None`.
- `result.dfy` (module `Do`): `Result` and its operations. It also models chains
  of `Map`/`MapOrErr` calls (`Step`, `Apply`, `Run`) and proves that an error
  entering a chain is the error at its end.
- `either.dfy` (module `Is`): `Either` and its operations.
- `agreement.dfy` (module `Agreement`): the two packages agree operation by
  operation.

The error type is a type parameter `E`. Go's zero value of a combinator's
target type is an explicit argument `zero`. `Map`, `MapOrErr` and `MapErr`
put `zero` into the result they build on the error branch.

"The callback is not called" becomes "the result does not depend on the
callback". Each `...Skips...` lemma shows that two different callbacks give the
same result on an errored input.

The doc comments and the code disagree in several places, and the model
follows the code:
- The comment on `Err` at result.go:40-41 says it returns nil when the result
  is an error. The body at result.go:42-44 returns the held error, which is
  non-nil exactly when `IsError()` holds, as `Do.ErrNonNilOnError` states.
- result.go:11 and doc.go:24-25 say a `Result` holds either a value or an
  error. `WithReturn` (result.go:21-26) and `MapOrErr` (result.go:106-110)
  keep a value beside a non-nil error, and so does the model.
- doc.go:36, doc.go:45 and doc.go:47 use a `do.Check` combinator that
  result.go does not define; it is listed under "## Left out".

In package `is`, `Check` likewise keeps the value beside a non-nil error
(either.go:8-13). In both packages `Val` returns the field even on an errored result and does
not panic (result.go:46-50, either.go:23-25).

## Model

| member | source | states |
|---|---|---|
| Do.Result.IsError | result.go:35-38 | a result is an error exactly when its error is non-nil |
| Do.Result.Err | result.go:40-44 | `Err` is the error half of the `Return` pair |
| Do.ErrNonNilOnError | result.go:40-44 | `Err` is non-nil exactly when the result is an error, so it is not nil on an errored result |
| Do.Result.Val | result.go:46-50 | `Val` is the value half of the `Return` pair, with no precondition |
| Do.Result.Return | result.go:52-62 | its contract is the round trip in `Do.ReturnRoundTrip` together with the ensures of `Err` and `Val`, which name its two halves |
| Do.WithReturn | result.go:17-26 | `Return` gives back exactly the pair passed in, value kept even beside an error; the result is an error exactly when that error is non-nil |
| Do.WithJust | result.go:28-33 | the result is never an error and `Val` is the wrapped value |
| Do.ReturnRoundTrip | result.go:52-62 | `WithReturn` then `Return` is the identity on pairs, and `Return` then `WithReturn` is the identity on results |
| Do.Map | result.go:64-78 | the error is forwarded unchanged in both branches; on an ok input the value is `mapFn` of the input's value |
| Do.MapSkipsMapFn | result.go:67-74 | on an errored input the result is the same for any mapping function and is still an error |
| Do.MapOnOk | result.go:75-77 | on an ok input the result is ok and holds the mapped value |
| Do.MapIdentity | result.go:75-77 | mapping the identity returns an ok result unchanged |
| Do.MapComposes | result.go:69-78 | `Map(Map(r, f), g)` equals `Map(r, g∘f)` for every input |
| Do.MapOrErr | result.go:97-111 | on an errored input the error is forwarded; on an ok input `(Val, Err)` is exactly the pair `mapFn` returned |
| Do.MapOrErrSkipsMapFn | result.go:100-105 | on an errored input the result is the same for any fallible function and keeps the input's error |
| Do.MapIsMapOrErr | result.go:97-111 | `Map` equals `MapOrErr` with a function that never fails |
| Do.Fold | result.go:80-95 | on an error `errFn` is applied to the error, otherwise `okFn` to the value |
| Do.FoldRunsOneBranch | result.go:89-95 | the outcome of `Fold` depends only on the callback of the branch its input selects |
| Do.Apply | doc.go:44-49 | one chain link, `r = Map(r, f)` or `r = MapOrErr(r, g)`, forwards an error it receives unchanged |
| Do.Run | doc.go:36-39 | a chain of `Map`/`MapOrErr` calls started on an errored result ends with that error |
| Do.RunAppend | doc.go:36-39 | running two chains one after the other equals running their concatenation |
| Do.RunSkipsAllSteps | doc.go:36-39 | on an errored input no link of a chain is applied: any chain of the same length gives the same result |
| Do.RunOnErrorIsZero | doc.go:37-39 | on an errored input every non-empty chain ends in exactly the input's error beside the zero value, whatever its links are |
| Do.ErrorSticks | doc.go:36-39 | if a chain's first k links produce an error, the whole chain ends with that same error |
| Do.LookupThenTransform | doc.go:37-39 | when a `MapOrErr` lookup fails, the following `Map` is not applied and the final error is the lookup's |
| Is.Either.IsError | either.go:15-17 | an `Either` is an error exactly when its error is non-nil |
| Is.Either.Err | either.go:19-21 | `Err` is the error half of the `Fold` pair |
| Is.Either.Val | either.go:23-25 | `Val` is the value half of the `Fold` pair, with no precondition |
| Is.Either.Fold | either.go:27-29 | its contract is the round trip in `Is.CheckFoldRoundTrip` together with the ensures of `Err` and `Val`, which name its two halves |
| Is.Check | either.go:8-13 | `Fold` gives back exactly the pair passed in; an error exactly when that error is non-nil |
| Is.CheckFoldRoundTrip | either.go:27-29 | `Check` then `Fold` is the identity on pairs, and `Fold` then `Check` is the identity on `Either`s |
| Is.Map | either.go:31-40 | the error is forwarded unchanged; on an ok input the value is `fn` of the input's value |
| Is.MapSkipsFn | either.go:31-36 | on an errored input the result is the same for any `fn` and is still an error |
| Is.MapOnOk | either.go:37-39 | on an ok input the result has no error and holds `fn` of the value |
| Is.MapErr | either.go:42-53 | on an errored input the error is forwarded; on an ok input the result is exactly the pair `fn` returned |
| Is.MapErrSkipsFn | either.go:42-47 | on an errored input the result is the same for any `fn` and keeps the input's error |
| Is.MapIsMapErr | either.go:31-53 | `Map(e, f)` equals `MapErr(e, x => (f(x), nil))` for every `e` |
| Agreement.ToResult | either.go:3-6 | an `Either` and its `Result` image have the same fields and the same error state |
| Agreement.ToResultInjective | either.go:3-6 | distinct `Either`s have distinct `Result` images |
| Agreement.CheckIsWithReturn | either.go:8-13 | `Check` builds what `WithReturn` builds |
| Agreement.AccessorsAgree | either.go:15-29 | `Val`, `Err` and the pair accessor agree across the two packages |
| Agreement.MapAgrees | either.go:31-40 | `Is.Map` corresponds to `Do.Map` |
| Agreement.MapErrIsMapOrErr | either.go:42-53 | `Is.MapErr` corresponds to `Do.MapOrErr` |

## Left out

- Side effects of the callbacks: `Fold`'s callbacks return nothing in Go. Here each callback returns a value that stands for what it did. Nothing is modelled about how the side effects of different callbacks are ordered.
- Do.Run: a chain keeps one value type throughout. Go chains may change the type at each `Map`/`MapOrErr`, which a single Dafny sequence of steps cannot hold. The single-call lemmas cover each type change.
- Go's zero value of a type: it is an explicit `zero` argument, because Dafny has no default-value expression.
- Go interface nil-ness, for example a typed nil pointer stored in a non-nil `error`: the error is abstract, and non-nil is `Some`.
- A panic on reading the value of an errored result: the code returns the field and does not panic.
- The `do.Check(result, validator)` combinator used in the package documentation (doc.go:45): it is not defined in result.go, so the model does not invent it.
- The example HTTP handlers, the JSON helpers, the file-reading tests and the documentation build file: they demonstrate the library and are not part of it.
