/** Option and Result: the "absent → null" and "throws" outcomes of the services, as values. */
module Wrappers {

  /** A value that may be missing: the services' nullable return values. */
  datatype Option<+T> = None | Some(value: T)

  /** Either a value or the error that the source raises as an exception. */
  datatype Result<+T, +E> = Ok(value: T) | Err(error: E)
}
