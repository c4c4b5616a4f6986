/** Optional values, standing in for Python's `None`. */
module Wrappers {
  datatype Option<T> = None | Some(value: T)
  {
    predicate IsSome() { Some? }

    function GetOr(default: T): T
    {
      if Some? then value else default
    }
  }
}
