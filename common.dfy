/** Shared value types: JavaScript's `null`-or-value and the store's error-or-row replies. */
module Common {

  /** `T | null` in the source: `None` is `null` (or `undefined`). */
  datatype Option<+T> = None | Some(value: T) {
    /** `x ?? d`: the value, or `d` when absent */
    function GetOr(d: T): T {
      match this
      case Some(v) => v
      case None => d
    }
  }

  /** A store call's `{ data, error }` reply: either the data or the error's message. */
  datatype Result<+T> = Success(value: T) | Failure(error: string)

  /** JavaScript's `parseFloat`, left abstract: `None` stands for `NaN`. */
  type Parser = string -> Option<real>
}
