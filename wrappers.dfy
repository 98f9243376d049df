/** Failure-carrying results used wherever the app waits on the network. */
module Wrappers {

  /** A nullable value, such as the store's `error: string | null`. */
  datatype Option<+T> = None | Some(value: T)

  /** A call that yields a value or rejects with an error. */
  datatype Result<+T, +E> = Ok(value: T) | Err(error: E)

  /** A call that yields nothing useful, or rejects with an error. */
  datatype Outcome<+E> = Pass | Fail(error: E)
}
