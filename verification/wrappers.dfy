/** An optional value, a value-or-error result and a pass-or-fail outcome. */
module Wrappers {

  /** An optional value; `None` stands for JavaScript's `undefined` where a field may be absent. */
  datatype Option<+T> = None | Some(value: T) {

    /** The carried value, or `default` when absent (JavaScript's `x || default` on an absent `x`). */
    function GetOr(default: T): T {
      match this
      case Some(v) => v
      case None => default
    }
  }

  /** Either a value or the error a handler throws. */
  datatype Result<+T, +E> = Success(value: T) | Failure(error: E)

  /** A check that either lets its input through or fails with an error. */
  datatype Outcome<+E> = Pass | Fail(error: E)
}
