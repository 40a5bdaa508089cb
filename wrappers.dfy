/** Failure-carrying wrappers used throughout the model. */
module Wrappers {

  /** A value that may be absent: a decoded JSON body that did not parse, a Go nil pointer. */
  datatype Option<+T> = None | Some(value: T)

  /** A value or an error, as Go's `(value, error)` return pairs. */
  datatype Result<+R, +E> = Success(value: R) | Failure(error: E)
}
