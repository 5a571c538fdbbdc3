/** Optional values, used for the JavaScript fields that may be absent (`undefined`/`null`). */
module Wrappers {

  datatype Option<+T> = None | Some(value: T) {

    /** The value, or `default` when absent (JavaScript's `x ?? default`). */
    function GetOr(default: T): T {
      match this
      case Some(v) => v
      case None => default
    }
  }

  /** The outcome of an operation that may throw: its value, or the error's message. */
  datatype Result<+T> = Ok(value: T) | Err(msg: string)

  /** `x || 0` and `x ?? 0` on a numeric field: an absent amount counts as zero. */
  function OrZero(x: Option<real>): (r: real)
    ensures x.Some? ==> r == x.value
    ensures x.None? ==> r == 0.0
  {
    x.GetOr(0.0)
  }
}
