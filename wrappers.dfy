/** Optional values and success/failure results shared by every module. */
module Wrappers {

  /** `None` stands for JavaScript's `undefined` / `null`. */
  datatype Option<+T> = None | Some(value: T)

  datatype Result<+R, +E> = Ok(value: R) | Err(error: E)
}
