/** Small failure-carrying datatypes shared by the other modules. */
module Wrappers {

  /** A value that may be absent, as a Redis GET or ZSCORE on a missing key or member. */
  datatype Option<+T> = None | Some(value: T)

  /** The outcome of a call into the store: a value, or an opaque failure (the Go `error`). */
  datatype Result<+T> = Ok(value: T) | Failure

  /** The outcome of a call that returns only an error: success, or an opaque failure. */
  datatype Outcome = Pass | Fail
}
