/** Optional values and fallible results, shared by the other modules. */
module Wrappers {

  /** Python's `None` or a present value. */
  datatype Option<+T> = None | Some(value: T)

  /** A value, or the exception that a constructor raised instead. */
  datatype Result<+R, +E> = Success(value: R) | Failure(error: E)
}
