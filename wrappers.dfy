/** Option and Result, used for Go's nil-or-error returns and (value, error) pairs. */
module Wrappers {

  /** `None` stands for Go's nil, `Some(v)` for a non-nil value. */
  datatype Option<+T> = None | Some(value: T)

  /** A Go `(value, error)` pair in which exactly one side is meaningful. */
  datatype Result<+T, +E> = Success(value: T) | Failure(error: E)
}
