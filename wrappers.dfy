/** Optional values and results with an error, used wherever the front end
    returns `null`/`undefined` or throws. */
module Wrappers {

  datatype Option<+T> = None | Some(value: T)

  /** `Err` carries what the TypeScript code throws. */
  datatype Result<+T, +E> = Ok(value: T) | Err(error: E)
}
