/** Optional values and the outcome of a remote call. */
module Outcomes {

  /** A value that may be absent (JavaScript's null / undefined). */
  datatype Option<+T> = None | Some(value: T)

  /** What an awaited request produced: the decoded value, or a rejection
      (a thrown fetch or a body that is not valid JSON). */
  datatype Outcome<+T> = Success(value: T) | Failure
}
