/** Optional values and results with an error, for the JSON fields that may be
    missing and the calls that may raise, and the two-argument `min` of
    Python and JavaScript. */
module Wrappers {

  datatype Option<+T> = None | Some(value: T) {
    function GetOr(default: T): T {
      match this
      case Some(v) => v
      case None => default
    }
  }

  datatype Result<+R, +E> = Success(value: R) | Failure(error: E)

  function Min(a: int, b: int): int { if a < b then a else b }
}
