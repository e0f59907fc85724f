/** Option and Result, standing for the values pandas may hold as NaN and
    for the exceptions the dashboard callback can raise. */
module Wrappers {

  datatype Option<+T> = None | Some(value: T)

  datatype Result<+T, +E> = Success(value: T) | Failure(error: E)
}
