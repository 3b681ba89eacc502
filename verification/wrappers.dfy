/** Optional values and results shared by the speaker and alarm models. */
module Wrappers {

  /** An optional value; `None` stands for Python's missing dictionary key. */
  datatype Option<+T> = None | Some(value: T) {

    /** The wrapped value, or `default` when there is none (Python's `dict.get(key, default)`). */
    function GetOr(default: T): T
    {
      match this
      case Some(v) => v
      case None => default
    }
  }

  /** Either a computed value or the exception the computation raised. */
  datatype Result<+R, +E> = Success(value: R) | Failure(error: E)
}
