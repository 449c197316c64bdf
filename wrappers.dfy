/** Option and Result, the two shapes every model of a Python call needs:
    a value that may be `None`, and a call that either returns or raises. */
module Wrappers {

  datatype Option<+T> = None | Some(value: T)

  datatype Result<+R, +E> = Success(value: R) | Failure(error: E)
}
