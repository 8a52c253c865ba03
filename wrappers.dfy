/** Option and Result, the two failure-carrying datatypes the model uses
    for Go's `(value, error)` returns and for values that may be absent. */
module Wrappers {

  datatype Option<+T> = None | Some(value: T)

  datatype Result<+R, +E> = Ok(value: R) | Err(error: E)
}
