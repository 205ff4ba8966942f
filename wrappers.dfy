/** Option and Result values used throughout the model. */
module Wrappers {

  /** A value that may be absent; stands for JavaScript's `null`/`undefined`
      where the source uses them as "no value", and for `NaN` where the source
      parses a number. */
  datatype Option<+T> = None | Some(value: T) {

    /** The wrapped value, or `default` when there is none (`x ?? default`). */
    function GetOr(default: T): T {
      match this
      case Some(v) => v
      case None => default
    }
  }

  /** The result of a computation that may throw; `Failure` carries the name
      of the JavaScript exception. */
  datatype Result<+T> = Success(value: T) | Failure(error: string)
}
