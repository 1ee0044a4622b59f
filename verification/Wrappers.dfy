/** The two failure shapes used across the model: an optional value for
    the source's `null`, and a result for the source's thrown errors. */
module Wrappers {
  datatype Option<+T> = None | Some(value: T)

  datatype Result<+T, +E> = Ok(value: T) | Err(error: E)

  /** The source's `a ?? b`. */
  function OrElse<T>(a: Option<T>, b: Option<T>): Option<T> {
    if a.Some? then a else b
  }

  function GetOr<T>(a: Option<T>, dflt: T): T {
    if a.Some? then a.value else dflt
  }
}
