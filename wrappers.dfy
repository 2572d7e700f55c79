/** Optional values and results with an error, used for the chain's answers and for the outcome of a cycle. */
module Wrappers {

  datatype Option<+T> = None | Some(value: T)

  datatype Result<+T, +E> = Ok(value: T) | Err(error: E)
}
