/** Optional values and results that carry an error, used across the model. */
module Wrappers {
  datatype Option<T> = None | Some(value: T)
  {
    /** `x ?? d` for a value that is either present or absent. */
    function GetOr(default: T): T
    {
      if Some? then value else default
    }
  }

  datatype Result<T, E> = Success(value: T) | Failure(error: E)
}
