/** Optional values and results with an error, shared by the other modules. */
module Wrappers {

  /** A value that may be absent: Python's `None`, or a missing attribute or key. */
  datatype Option<T> = None | Some(value: T)

  /** The outcome of an operation that either returns a value or raises an error. */
  datatype Result<T, E> = Ok(value: T) | Err(error: E)

  /** The list held by an optional list attribute, with `[]` for an absent one. */
  function OrEmpty<T>(list: Option<seq<T>>): seq<T>
  {
    if list.Some? then list.value else []
  }
}
