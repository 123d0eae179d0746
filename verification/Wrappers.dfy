/**
 * Optional values and results with an error, for the source's null/undefined
 * and thrown errors, and sequences without repeats.
 */
module Wrappers {

  datatype Option<+T> = None | Some(value: T) {
    /** `x ?? d` when x is a nullable value. */
    function GetOr(default: T): T {
      match this
      case Some(v) => v
      case None => default
    }
  }

  /** A value, or the message of the Error the source throws or rejects with. */
  datatype Result<+T, +E> = Ok(value: T) | Err(error: E)

  /** No element occurs twice. */
  predicate Distinct<T(==)>(s: seq<T>) {
    forall i, j | 0 <= i < j < |s| :: s[i] != s[j]
  }
}
