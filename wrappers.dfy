/** Failure-compatible wrappers shared by the modules of this model. */
module Wrappers {

  /** A value that may be absent, used for a Go pointer that may be nil. */
  datatype Option<+T> = None | Some(value: T)

  /** The outcome of a Go function returning `(value, error)`. */
  datatype Result<+T, +E> = Success(value: T) | Failure(error: E)
}
