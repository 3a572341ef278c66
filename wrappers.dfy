/** Option and Result, the two failure-carrying datatypes the model uses for Go's
    `(value, ok)` lookups and `(value, error)` returns. */
module Wrappers {

  datatype Option<+T> = None | Some(value: T)

  datatype Result<+T, +E> = Ok(value: T) | Err(error: E)
}
