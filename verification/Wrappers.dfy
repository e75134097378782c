/** The optional value and the outcome of a call that can fail, where the original has a nil
    pointer or an error result. */
module Wrappers {
  datatype Option<+T> = None | Some(value: T)

  datatype Result<+T, +E> = Ok(value: T) | Err(error: E)
}
