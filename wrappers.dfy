/** Option and Result: the absent values and the thrown errors of the source. */
module Wrappers {
  datatype Option<T> = None | Some(value: T)
  {
    function GetOr(default: T): T
    {
      match this
      case None => default
      case Some(v) => v
    }
  }

  /** The outcome of an operation that may throw: the thrown message is the error. */
  datatype Result<T> = Success(value: T) | Failure(error: string)
  {
    predicate IsFailure() { Failure? }
  }
}
