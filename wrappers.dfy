/** Optional values, standing in for Python's `None`. */
module Wrappers {
  datatype Option<T> = None | Some(value: T)
  {
    predicate IsSome() { this.Some? }

    function GetOr(default: T): T
    {
      if this.Some? then value else default
    }
  }
}
