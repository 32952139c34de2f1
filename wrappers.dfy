/** Option and Result, used for Python's None-or-value lookups and for the
    exceptions the invoice pipeline raises. */
module Wrappers {

  datatype Option<+T> = None | Some(value: T)

  datatype Result<+R, +E> = Success(value: R) | Failure(error: E)
}
