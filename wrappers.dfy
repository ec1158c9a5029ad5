/** Option and Result datatypes, used for Python's `None` and for raised exceptions. */
module Wrappers {

  /** An optional value: `None` stands for Python's `None` or for an absent dictionary key. */
  datatype Option<+T> = None | Some(value: T)

  /** The outcome of a call that may raise: `Failure` carries the exception's message, `str(e)`. */
  datatype Result<+R, +E> = Success(value: R) | Failure(error: E)
}
