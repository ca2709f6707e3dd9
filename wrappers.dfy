/** Optional values and pass/fail outcomes used across the model. */
module Wrappers {

  /** A value that may be absent: `null` / `undefined` in the front-end. */
  datatype Option<+T> = None | Some(value: T)

  /** The result of an async operation that either resolves or rejects with a message. */
  datatype Outcome = Pass | Fail(message: string)
}
