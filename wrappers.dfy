/** Option and Result, the two shapes the client's values take: a Ruby value
    that may be nil, and a call that either returns or raises. */
module Wrappers {

  /** A Ruby value that may be `nil` (`None`). */
  datatype Option<+T> = None | Some(value: T)

  /** The outcome of a Ruby call: the value it returns, or the exception it raises. */
  datatype Result<+R, +E> = Success(value: R) | Failure(error: E)
}
