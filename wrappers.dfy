/** Option and Result, for missing values and for the errors the source raises. */
module Wrappers {

  /** A value that may be absent: pandas' NaN in a numeric column, or a missing dictionary key. */
  datatype Option<+T> = None | Some(value: T)

  /** The outcome of an operation that may raise instead of returning a value. */
  datatype Result<+T, +E> = Ok(value: T) | Err(error: E)
}
