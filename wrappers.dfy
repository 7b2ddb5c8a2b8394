/** Option, Result and Outcome: the model's stand-ins for JavaScript's `null`,
    for "a value or an Error instance" and for "true or an Error instance". */
module Wrappers {

  datatype Option<+T> = None | Some(value: T)

  datatype Result<+T, +E> = Ok(value: T) | Err(error: E)

  /** `Pass` is the `true` a response validator returns; `Fail(e)` the Error it returns. */
  datatype Outcome<+E> = Pass | Fail(error: E)
}
