/** Failure-carrying datatypes shared by the whole model. */
module Wrappers {

  /** An optional value: a lookup that may miss, a reference that may be nil. */
  datatype Option<+T> = None | Some(value: T)

  /** A value or an error, as Go's `(T, error)` pairs are used here. */
  datatype Result<+T, +E> = Success(value: T) | Failure(error: E)
}
