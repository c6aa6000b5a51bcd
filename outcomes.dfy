// Option and Result values shared by every module: Go's `(value, error)`
// pairs and nil pointers become these.
module Outcomes {

  datatype Option<+T> = None | Some(value: T) {
    predicate IsSome() { this.Some? }

    function GetOr(default: T): (r: T)
      ensures this.Some? ==> r == value
      ensures this.None? ==> r == default
    {
      match this
      case None => default
      case Some(v) => v
    }
  }

  datatype Result<+T, +E> = Ok(value: T) | Err(error: E) {
    predicate IsFailure() { this.Err? }
  }
}
