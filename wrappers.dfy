/** Optional and fallible values, used where the source returns `null` or throws. */
module Wrappers {

  /** `None` stands for the source's `null` (or an absent property). */
  datatype Option<+T> = None | Some(value: T)

  /** `Err` carries the message of the `Error` the source throws. */
  datatype Result<+T, +E> = Ok(value: T) | Err(error: E)
}
