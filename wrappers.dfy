/** Option and Result, used for JavaScript values that may be absent and for handlers that
    either stop with an error message or go ahead. */
module Wrappers {

  datatype Option<+T> = None | Some(value: T)

  datatype Result<+R, +E> = Success(value: R) | Failure(error: E)
}
