/** Optional values and results shared by the whole model. */
module Wrappers {

  /** A value that may be absent: a grid cell outside the convex hull, a NaN, an unset attribute. */
  datatype Option<+T> = None | Some(value: T)

  /** The outcome of an operation that can raise an exception in the original program. */
  datatype Result<+T, +E> = Success(value: T) | Failure(error: E)
}
