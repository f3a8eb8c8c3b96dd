/** Option and Result: the model's stand-ins for Go's nil pointers and (value, error) pairs. */
module Wrappers {

  /** A Go pointer or optional value: `None` is nil. */
  datatype Option<+T> = None | Some(value: T)

  /** A Go `(value, error)` pair in which exactly one side is meaningful. */
  datatype Result<+T, +E> = Success(value: T) | Failure(error: E)

  /** The text of a Go `error` value (what its `Error()` method returns). */
  type Error = string
}
