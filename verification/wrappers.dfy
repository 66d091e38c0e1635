/** The wrappers shared by the model: an optional value and a
    success-or-failure result. */
module Wrappers {

  /** A value that may be absent: JavaScript's `null`/`undefined` in the source. */
  datatype Option<+T> = None | Some(value: T) {

    /** The wrapped value, or `default` when there is none. */
    function GetOr(default: T): (r: T)
      ensures Some? ==> r == value
      ensures None? ==> r == default
    {
      match this
      case Some(v) => v
      case None => default
    }
  }

  /** The outcome of an event handler: the new value, or the fault it threw. */
  datatype Result<+R, +E> = Success(value: R) | Failure(error: E)
}
