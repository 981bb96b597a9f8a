/** Failure-compatible wrappers shared by the other modules. */
module Wrappers {

  /** A value that may be absent: a nil map, a failed parse, a missing tenant. */
  datatype Option<+T> = None | Some(value: T)

  /** Either a computed value or the error that stopped the computation. */
  datatype Result<+T, +E> = Success(value: T) | Failure(error: E)
}
