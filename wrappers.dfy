/** Option and Result, with the two Option combinators the binding uses
    (Rust's `Option::or` and `Option::unwrap_or`). */
module Wrappers {

  datatype Option<T> = None | Some(value: T) {

    /** `self.or(other)`: this value if present, otherwise `other`. */
    function Or(other: Option<T>): (r: Option<T>)
      ensures Some? ==> r == this
      ensures None? ==> r == other
    {
      if Some? then this else other
    }

    /** `self.unwrap_or(fallback)`: the carried value, or `fallback` when absent. */
    function UnwrapOr(fallback: T): (r: T)
      ensures Some? ==> r == value
      ensures None? ==> r == fallback
    {
      match this
      case Some(v) => v
      case None => fallback
    }
  }

  datatype Result<T, E> = Ok(value: T) | Err(error: E)
}
