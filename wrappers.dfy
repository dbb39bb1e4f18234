/** Optional values and results with an error, used for the checker's
    exceptions instead of preconditions that forbid them. */
module Wrappers {

  datatype Option<+T> = None | Some(value: T)

  datatype Result<+T, +E> = Ok(value: T) | Err(error: E)
}
