/** Optional values and fallible results shared by the other modules. */
module Wrappers {

  /** A value that may be absent: the model of a TypeScript optional parameter. */
  datatype Option<+T> = None | Some(value: T)

  /** The outcome of an operation that either produces a value or fails with an error. */
  datatype Result<+R, +E> = Success(value: R) | Failure(error: E)
}
