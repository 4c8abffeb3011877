/** Go's `error` is an interface value that may be nil. The model keeps the
    error type abstract (a type parameter `E`) and writes a nil error as `None`. */
module Nilable {

  /** `None` is Go's nil error; `Some(e)` is a non-nil error `e`. */
  datatype Option<+T> = None | Some(value: T)
}
