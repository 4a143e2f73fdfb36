/** Optional values and failures: the model's stand-ins for C# `null` and for exceptions. */
module Wrappers {

  /** A value that may be absent; `None` models a C# `null` reference. */
  datatype Option<+T> = None | Some(value: T) {
    /** The value, or `default` when absent: C#'s `x ?? default`. */
    function GetOr(default: T): T {
      match this
      case Some(v) => v
      case None => default
    }
  }

  /** The outcome of a call that can throw: `Failure` carries the exception's message. */
  datatype Result<+R> = Success(value: R) | Failure(error: string)
}
