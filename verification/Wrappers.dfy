/** The optional values and the verdicts the other modules return. */
module Wrappers {

  /** A value that a reply, a record or a lookup may lack. */
  datatype Option<+T> = None | Some(value: T) {
    function GetOr(default: T): T {
      if Some? then value else default
    }
  }

  /** A returned value, or the error that the source raises. */
  datatype Result<+R, +E> = Success(value: R) | Failure(error: E)

  /** A check that returns nothing when it accepts and raises when it refuses. */
  datatype Verdict = Accepted | Refused(reason: string)
}
