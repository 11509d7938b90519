/** Results of calls that may fail, and values that may be absent. */
module Wrappers {

  datatype Option<+T> = None | Some(value: T)

  /** A Go `(value, error)` pair: the error carries no more than what callers branch on. */
  datatype Result<+T> = Ok(value: T) | Err
}
