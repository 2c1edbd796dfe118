/** Optional values and results with an error, used by every module of the model. */
module Wrappers {

  /** A value that may be absent: the model's rendering of a C# null. */
  datatype Option<+T> = None | Some(value: T) {

    /** The value, or `default` when absent: the C# `??` operator. */
    function GetOr(default: T): T
    {
      match this
      case Some(v) => v
      case None => default
    }
  }

  /** The outcome of an operation that can fail with an error of type E. */
  datatype Result<+T, +E> = Success(value: T) | Failure(error: E)
}
