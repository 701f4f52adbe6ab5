/** Optional values and pass/fail outcomes used across the model. */
module Wrappers {

  datatype Option<+T> = None | Some(value: T)

  /** The result of an operation that either returns normally or raises `error`. */
  datatype Outcome<+E> = Pass | Fail(error: E)
}
