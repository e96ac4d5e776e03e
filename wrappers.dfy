/** Option and Result, used for Ruby's nil and for the exceptions `run` lets escape. */
module Wrappers {

  datatype Option<+T> = None | Some(value: T)

  datatype Result<+T, +E> = Success(value: T) | Failure(error: E)
}
