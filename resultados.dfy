/** Optional values and error returns shared by every module of the model. */
module Resultados {

  /** A value that may be absent (Python `None`). */
  datatype Option<T> = None | Some(value: T)
  {
    predicate IsSome() { this.Some? }

    /** Python's `x or default` for a value whose only falsy form is `None`. */
    function GetOr(default: T): (r: T)
      ensures this.Some? ==> r == this.value
      ensures this.None? ==> r == default
    {
      match this
      case None => default
      case Some(v) => v
    }
  }

  /** The result of an operation that can raise: `Err` carries the exception's message. */
  datatype Result<T> = Ok(value: T) | Err(error: string)
  {
    predicate IsFailure() { this.Err? }
  }
}
