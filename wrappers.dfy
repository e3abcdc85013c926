/** Optional values and results with an error, as used by every other module. */
module Wrappers {

  /** `optional<T>` of the engine: `None` is `nullopt`. */
  datatype Option<+T> = None | Some(value: T)

  /** The outcome of a graphics tool step: a value, or the error it raises. */
  datatype Result<+R, +E> = Success(value: R) | Failure(error: E)
}
