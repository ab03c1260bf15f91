/** Optional values and results with an error channel, used where the runtime
    returns `null` or throws a script error. */
module Outcomes {

  datatype Option<+T> = None | Some(value: T)

  datatype Result<+T, +E> = Ok(value: T) | Err(error: E)
}
