/** Option and Result: JavaScript's null/undefined and thrown invariant failures. */
module Wrappers {

  /** `None` stands for a JavaScript `null` or `undefined`. */
  datatype Option<+T> = None | Some(value: T)

  /** `Failure` stands for an exception thrown by an `invariant(...)` check. */
  datatype Result<+R, +E> = Success(value: R) | Failure(error: E)
}
