/** Option and Result values for the operations of ecl_quantile that either
    produce a value or stop the program with a diagnostic. */
module Fallible {

  datatype Option<+T> = None | Some(value: T)

  datatype Result<+T, +E> = Success(value: T) | Failure(error: E)
}
