/** Option and Result: Python's `None`-able values and raised exceptions, as values. */
module Wrappers {

  datatype Option<+T> = None | Some(value: T)

  /** A call that either returns `value` or raises `error`. */
  datatype Result<+R, +E> = Success(value: R) | Failure(error: E)
}
