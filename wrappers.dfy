/** Optional values and results with an error, shared by the other modules. */
module Wrappers {

  /** `None` plays the part of JavaScript's `undefined`. */
  datatype Option<T> = None | Some(value: T)

  datatype Result<T, E> = Success(value: T) | Failure(error: E)
}
