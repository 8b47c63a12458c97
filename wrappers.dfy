/** Optional values and results with an error, used for Python's `None` and for raised errors. */
module Wrappers {

  /** `None` stands for Python's `None`; `Some(v)` for a present value. */
  datatype Option<+T> = None | Some(value: T)

  /** `Failure(e)` stands for an exception the source raises, `e` being its message. */
  datatype Result<+R, +E> = Success(value: R) | Failure(error: E)
}
