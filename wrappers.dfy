/** Results and failures shared by every component of the broker.

    A C# method of the broker either returns a value or throws. Two kinds of
    exception matter to the callers: `HttpException(statusCode, message)`,
    which the middleware turns into that status and message, and every other
    exception, which it turns into a generic server error. */
module Wrappers {

  datatype Option<+T> = None | Some(value: T) {
    function GetOr(default: T): T {
      match this
      case Some(v) => v
      case None => default
    }
  }

  /** What a failed step threw. */
  datatype Failure =
    | HttpError(status: int, message: string)  // HttpException.cs: a typed error carrying its own status
    | Exception(message: string)               // any other exception (library, parse, network)

  datatype Result<+T> = Ok(value: T) | Err(failure: Failure)

  /** The result of a callback that returns no value (a `Func<.., Task>`). */
  datatype Outcome = Pass | Raise(failure: Failure)

  /** The range of a C# `int`. */
  const Int32Min: int := -0x8000_0000
  const Int32Max: int := 0x7fff_ffff

  predicate IsInt32(x: int) {
    Int32Min <= x <= Int32Max
  }
}
