/** Option and Result, the failure-carrying datatypes the rest of the model uses. */
module Wrappers {

  /** A value that may be absent: JavaScript's `undefined`/`null` next to a present value. */
  datatype Option<+T> = None | Some(value: T) {

    /** The value, or `default` when absent (the `??` operator). */
    function GetOr(default: T): T {
      match this
      case Some(v) => v
      case None => default
    }
  }

  /** The outcome of an operation that may throw: the thrown error becomes `Failure`. */
  datatype Result<+R, +E> = Success(value: R) | Failure(error: E)

  /** JavaScript's `n || 0` on an optional number: absent (and zero) read as 0. */
  function OrZero(n: Option<int>): int {
    match n
    case Some(v) => v
    case None => 0
  }

  /** JavaScript's `s || fallback` on an optional string: absent or empty read as `fallback`. */
  function OrElse(s: Option<string>, fallback: string): (r: string)
    ensures s.Some? && s.value != [] ==> r == s.value
    ensures (s.None? || s.value == []) ==> r == fallback
  {
    match s
    case Some(v) => if v == [] then fallback else v
    case None => fallback
  }
}
