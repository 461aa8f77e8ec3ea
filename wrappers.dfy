/** Plain wrapper datatypes shared by the model: an optional value (a pointer that may be
    null), a result that is either a value or an error, and an outcome that is either a pass or
    an error (a `void` call that may throw). */
module Wrappers {

  datatype Option<+T> = None | Some(value: T)

  datatype Result<+R, +E> = Ok(value: R) | Err(error: E)

  datatype Outcome<+E> = Pass | Fail(error: E)
}
