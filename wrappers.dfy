/** Option and Result values, Python's float and one arithmetic fact, shared by the modules of this model. */
module Wrappers {

  datatype Option<+T> = None | Some(value: T) {
    function GetOr(default: T): T {
      match this
      case Some(v) => v
      case None => default
    }
  }

  datatype Result<+R, +E> = Success(value: R) | Failure(error: E)

  /** A Python float: a finite number (kept exact) or NaN, for which every comparison is false. */
  datatype Float = Finite(r: real) | NaN

  /** A positive factor cancels from both sides of an equation between reals. */
  lemma CancelFactor(x: real, y: real, t: real)
    requires t > 0.0 && x * t == y * t
    ensures x == y
  {
  }
}
