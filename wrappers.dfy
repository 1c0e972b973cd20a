/** Optional values: a JavaScript `null`/`undefined` (or an absent query
    parameter) is `None`. */
module Wrappers {

  datatype Option<+T> = None | Some(value: T) {

    /** `x ?? d`, `x || d` for values whose only falsy form is absence. */
    function GetOr(default: T): T {
      match this
      case Some(v) => v
      case None => default
    }
  }

  /** `amount || 0`: a missing amount counts as zero. */
  function OrZero(o: Option<int>): (r: int)
    ensures o.None? ==> r == 0
    ensures o.Some? ==> r == o.value
  {
    o.GetOr(0)
  }
}
