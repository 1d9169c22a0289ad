/** A value that may be missing: a pandas NaN, a None, or an absent column. */
module Wrappers {
  datatype Option<T> = None | Some(value: T)
  {
    /** The value, or `default` when it is missing (pandas `fillna`). */
    function GetOr(default: T): T
    {
      match this
      case Some(v) => v
      case None => default
    }
  }

  /** The outcome of an operation that can fail, as a Python exception would. */
  datatype Result<T> = Success(value: T) | Failure(error: string)
}
