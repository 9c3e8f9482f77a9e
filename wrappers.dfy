/** Option and Result, the optional values and error returns of the modelled code. */
module Wrappers {

  /** Swift's `Optional`. */
  datatype Option<+T> = None | Some(value: T)

  /** A value or the error that replaced it (a Swift `throw`, a `guard ... else { return }`). */
  datatype Result<+T, +E> = Success(value: T) | Failure(error: E)
}
