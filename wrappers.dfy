/** The optional-value and success-or-error datatypes the model uses. */
module Wrappers {

  /** A value that may be absent (a Python `None`/`False` field). */
  datatype Option<+T> = None | Some(value: T)

  /** The outcome of an action that may raise an error instead of returning. */
  datatype Result<+R, +E> = Ok(value: R) | Err(error: E)
}
