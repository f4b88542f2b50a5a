/** Kotlin's nullable types (`T?`) as an explicit optional value, with the
    two null-aware operators the model needs. */
module Wrappers {

  datatype Option<+T> = None | Some(value: T)

  /** The safe call `x?.f()`: null stays null, otherwise `f` is applied. */
  function SafeCall<T, U>(x: Option<T>, f: T -> U): (r: Option<U>)
  {
    match x
    case Some(v) => Some(f(v))
    case None => None
  }

  /** The elvis operator `x ?: d`: the value when there is one, else `d`. */
  function Elvis<T>(x: Option<T>, d: T): (r: T)
  {
    match x
    case Some(v) => v
    case None => d
  }
}
