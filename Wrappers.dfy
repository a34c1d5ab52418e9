/** Option and a failure-carrying result, shared by the other modules. */
module Wrappers {

  /** `Some(v)` for a value, `None` for C#'s `null` (or an absent entry). */
  datatype Option<+T> = None | Some(value: T)

  /** The result of a step that may throw: `Failure` stands for any exception. */
  datatype Result<+T> = Ok(value: T) | Failure
}
