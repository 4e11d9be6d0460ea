/** Option and Result values used across the model in place of Go's
    `(value, error)` pairs and JavaScript's `undefined`. */
module Wrappers {
  datatype Option<T> = None | Some(value: T)
  {
    function UnwrapOr(default: T): T
    {
      match this
      case Some(v) => v
      case None => default
    }
  }

  datatype Result<T, E> = Ok(value: T) | Err(error: E)
  {
    predicate IsFailure() { Err? }

    function UnwrapOr(default: T): T
    {
      match this
      case Ok(v) => v
      case Err(_) => default
    }
  }
}
