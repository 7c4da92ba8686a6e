/** Option and Result, the shapes used for Go's `(value, error)` returns. */
module Wrappers {

  datatype Option<+T> = None | Some(value: T)

  /** `Success(v)` stands for Go's `(v, nil)`, `Failure(e)` for `(zero, e)`. */
  datatype Result<+R, +E> = Success(value: R) | Failure(error: E)
}
