/** Tagged optional values and results, used where the source returns `None`
    or raises an exception. */
module Wrappers {

  /** `None` is the source's `None`; `Some(v)` a value that was found. */
  datatype Option<+T> = None | Some(value: T)

  /** `Err(e)` stands for an exception the source raises, `e` naming its cause. */
  datatype Result<+T, +E> = Ok(value: T) | Err(error: E)
}
