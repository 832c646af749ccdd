/** Optional values and results shared by the other modules. A C# `null`
  * reference return becomes `None`. */
module Wrappers {
  datatype Option<T> = None | Some(value: T)
  {
    predicate IsSome() { Some? }
  }
}
