/** Failure-carrying values shared by every module: the source's `Option`,
    its `Result<T, String>` (errors are human-readable messages) and the
    `Result<()>` of an operation that only succeeds or fails. */
module Wrappers {

  datatype Option<+T> = None | Some(value: T)

  /** `Result<T, String>`: a value or an error message. */
  datatype Result<+T> = Ok(value: T) | Err(error: string)

  /** `Result<(), String>` of an action whose success carries nothing. */
  datatype Outcome = Pass | Fail(error: string)
}
