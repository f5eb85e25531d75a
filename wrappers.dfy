/** Option and error-or-value wrappers standing in for Go's nil pointers and (value, error) pairs. */
module Wrappers {

  /** A Go pointer or slice that may be nil. */
  datatype Option<+T> = None | Some(value: T)

  /** A Go `(value, error)` return: Failure when the error is non-nil. */
  datatype Fallible<+T> = Success(value: T) | Failure(error: string)
}
