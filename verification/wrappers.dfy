/** Optional values and results with an error, used for the fetch-exhaustion
    and unimplemented-instruction paths of the CPU. */
module Wrappers {
  datatype Option<+T> = None | Some(value: T)

  datatype Result<+T, +E> = Ok(value: T) | Err(error: E)
}
