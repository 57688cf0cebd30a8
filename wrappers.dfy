/** Option, Result and Outcome values shared by the whole model. */
module Wrappers {

  /** A value that may be absent (Python's `None`). */
  datatype Option<+T> = None | Some(value: T)

  /** Either a value or the exception the source would raise instead. */
  datatype Result<+T, +E> = Ok(value: T) | Err(error: E)

  /** Success, or the exception a statement sequence raised. */
  datatype Outcome<+E> = Pass | Fail(error: E)
}
