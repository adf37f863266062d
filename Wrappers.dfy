/** Optional values and results with an error, as used by the movement-state model. */
module Wrappers {

  /** `None` stands for the `null` that an `update` returns when no transition fires. */
  datatype Option<+T> = None | Some(value: T)

  /** `Err` stands for an exception thrown by a constructor. */
  datatype Result<+T, +E> = Ok(value: T) | Err(error: E)
}
