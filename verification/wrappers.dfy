/** `Option` and `Result`, shared by the chart modules. */
module Wrappers {

  /** A value that may be missing; stands for PHP's `null` and JavaScript's falsy references. */
  datatype Option<+T> = None | Some(value: T)

  /** The outcome of an operation that may throw instead of returning. */
  datatype Result<+T, +E> = Success(value: T) | Failure(error: E)
}
