/** Optional values and results with an error value, shared by every module. */
module Wrappers {

  /** `None` stands for JavaScript's `undefined` or `null` where a value may be absent. */
  datatype Option<+T> = None | Some(value: T)

  /** The outcome of an operation that either yields a value or fails with an error. */
  datatype Result<+T, +E> = Success(value: T) | Failure(error: E)
}
