/** Option and Result, used for Ruby's nil-or-value answers and for the
    runtime errors that the Ruby code raises implicitly. */
module Wrappers {

  datatype Option<+T> = None | Some(value: T)

  datatype Result<+T, +E> = Ok(value: T) | Err(error: E)
}
