/** Swift's `Optional` and the SDK's own two-case `Result` (SbankenClient/Types/Result.swift). */
module Wrappers {

  datatype Option<+T> = None | Some(value: T) {

    /** Swift's nil-coalescing `self ?? default`. */
    function GetOr(default: T): T {
      if Some? then value else default
    }
  }

  /** What every completion handler of the SDK receives. */
  datatype Result<+T, +E> = Success(value: T) | Failure(error: E)
}
