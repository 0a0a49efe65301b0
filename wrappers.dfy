/** Optional values, standing for the C# null reference, and outcomes that may fail. */
module Wrappers {

  datatype Option<+T> = None | Some(value: T) {

    /** The value, or a default when there is none (the C# `?? default`). */
    function GetOr(default: T): T {
      match this
      case Some(v) => v
      case None => default
    }
  }

  /** An outcome that either succeeds with a value or fails with an exception message. */
  datatype Result<+T> = Success(value: T) | Failure(error: string)
}
