/** Option and Result, used for optional request fields and for the
    HTTP error path of the server's handlers. */
module Wrappers {

  datatype Option<+T> = None | Some(value: T)

  datatype Result<+R, +E> = Success(value: R) | Failure(error: E)
}
