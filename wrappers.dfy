/** Optional values and error results shared by every module of the arena model. */
module Wrappers {
  datatype Option<T> = None | Some(value: T)
  {
    predicate IsSome() { Some? }

    function GetOr(default: T): T
    {
      match this
      case Some(v) => v
      case None => default
    }
  }

  /** An operation either succeeds with a value or fails with the error text the source raises. */
  datatype Result<T> = Ok(value: T) | Err(error: string)
}
