/** Option values for lookups that may find nothing (null in the engine). */
module Wrappers {
  datatype Option<T> = None | Some(value: T)
  {
    predicate IsSome() { this.Some? }
  }
}
