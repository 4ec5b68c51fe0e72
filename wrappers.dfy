/** Option and Result, used for the source's nullable values and thrown exceptions. */
module Wrappers {

  datatype Option<+T> = None | Some(value: T) {
    function GetOr(default: T): T {
      match this
      case Some(v) => v
      case None => default
    }
  }

  datatype Result<+R, +E> = Success(value: R) | Failure(error: E)

  /** The exceptions the modelled code can raise, by .NET / Python class. */
  datatype Error =
    | ArgumentOutOfRange                // String.Substring with a bad start or length
    | InvalidOperation(message: string) // Enumerable.First on an empty sequence
    | GeneralException(message: string) // `throw new Exception(message)`
    | RuntimeError(message: string)     // Python `raise RuntimeError(message)`
    | TypeError                         // Python: slicing `None`
}
