/** Option, Result and Outcome: the failure-carrying values that stand in
    for Python's `None` and for raised exceptions throughout the model. */
module Wrappers {

  /** A value that may be absent (`Optional[...]` / `None`). */
  datatype Option<+T> = None | Some(value: T)

  /** A computation that returns a value or raises an error. */
  datatype Result<+T, +E> = Ok(value: T) | Err(error: E)

  /** A computation that returns nothing or raises an error. */
  datatype Outcome<+E> = Pass | Fail(error: E)
}
