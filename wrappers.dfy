/** Failure-carrying wrappers shared by every module of the model. */
module Wrappers {

  /** A value that may be absent: PHP's `null`, a missing array key or a row not found. */
  datatype Option<+T> = None | Some(value: T) {
    function GetOr(default: T): T {
      match this
      case Some(v) => v
      case None => default
    }
  }

  /** The outcome of an operation that may throw: `Err` carries the exception's message (or code). */
  datatype Result<+R, +E> = Ok(value: R) | Err(error: E)

  /** An operation that returns nothing useful but may fail. */
  datatype Outcome<+E> = Pass | Fail(error: E)

  /** PHP's `??` on two optional values: the first one that is present. */
  function OrElse<T>(a: Option<T>, b: Option<T>): (r: Option<T>)
    ensures a.Some? ==> r == a
    ensures a.None? ==> r == b
  {
    if a.Some? then a else b
  }
}
