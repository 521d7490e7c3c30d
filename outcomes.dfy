/** Option and Result values: the model's stand-ins for Python's `None` and
    for exceptions that a caller sees. */
module Outcomes {

  datatype Option<+T> = None | Some(value: T)

  datatype Result<+T, +E> = Ok(value: T) | Err(error: E)
}
