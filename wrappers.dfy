/** Option and Result values used across the model. */
module Wrappers {

  /** A value that may be absent: JavaScript's `null`/`undefined` for a typed slot. */
  datatype Option<+T> = None | Some(value: T) {
    /**
     * `x ?? default`; for a string slot with default `''` it is also
     * `x || ''`, since the empty string is the only other falsy value.
     */
    function GetOr(default: T): T {
      match this
      case Some(v) => v
      case None => default
    }
  }

  /** The `{success: true, ...}` / `{success: false, error}` shape of an operation's outcome. */
  datatype Result<+T> = Success(value: T) | Failure(error: string)
}
