/** Optional values and results with an error, used across the model. */
module Wrappers {

  /** `Some(v)` for a present value, `None` for JavaScript's `null`/absent entry. */
  datatype Option<+T> = None | Some(value: T)

  /** The outcome of an operation that either returns a value or throws an error. */
  datatype Result<+T, +E> = Success(value: T) | Failure(error: E)
}
