/** Optional values and results, for the Python engine's `None` and raised exceptions. */
module Outcomes {

  /** `None` in the Python source, or a present value. */
  datatype Option<+T> = None | Some(value: T)

  /** A computation that either returns a value or raises an error. */
  datatype Result<+T, +E> = Ok(value: T) | Err(error: E)
}
