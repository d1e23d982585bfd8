/** Failure-compatible value types shared by the other modules. */
module Wrappers {

  datatype Option<+T> = None | Some(value: T)

  /** A value or the error the source would raise instead of returning it. */
  datatype Result<+R, +E> = Ok(value: R) | Err(error: E)

  /** Success without a value (a Python coroutine returning None), or an error. */
  datatype Outcome<+E> = Pass | Fail(error: E)
}
