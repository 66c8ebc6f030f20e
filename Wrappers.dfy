/** Option and Result values, standing in for JavaScript's `null` and for a
    call that either resolves or throws. */
module Wrappers {

  datatype Option<+T> = None | Some(value: T)

  datatype Result<+T, +E> = Ok(value: T) | Err(error: E)
}
