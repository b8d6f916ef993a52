/** Option and Result, used for the source's `undefined` values and error returns. */
module Wrappers {
  datatype Option<+T> = None | Some(value: T) {
    function GetOr(default: T): T {
      match this
      case Some(v) => v
      case None => default
    }
  }

  datatype Result<+T, +E> = Ok(value: T) | Err(error: E)

  /** JavaScript's `x || 0` on an optional number: missing and zero both give zero. */
  function OrZero(x: Option<int>): int {
    match x
    case Some(v) => v
    case None => 0
  }
}
