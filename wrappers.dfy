/** Failure-compatible wrappers shared by every module of the model. */
module Wrappers {

  /** A value that may be absent (Python's `None`, JavaScript's `null`/`undefined`). */
  datatype Option<+T> = None | Some(value: T)

  /** A call that either returns a value or raises; the error is the exception's text. */
  datatype Result<+T> = Ok(value: T) | Err(error: string)

  /** A call that returns nothing of interest or raises. */
  datatype Outcome = Pass | Fail(error: string)

  /** Python's truth test on an optional string: present and non-empty. */
  predicate Truthy(s: Option<string>) {
    s.Some? && s.value != ""
  }

  function Min(a: int, b: int): int { if a <= b then a else b }

  function Max(a: int, b: int): int { if a <= b then b else a }
}
