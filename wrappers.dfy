/** Option and Result, used for the parse outcome of a decimal string and for
    the error returns of the startup checks. */
module Wrappers {

  datatype Option<+T> = None | Some(value: T)

  datatype Result<+R, +E> = Success(value: R) | Failure(error: E)
}
