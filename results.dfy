// Option and Result values used throughout the model: Python's `None` and the
// exceptions the library raises become ordinary values here.
module Results {

  datatype Option<T> = None | Some(value: T)
  {
    predicate IsSome() { this.Some? }

    function GetOr(default: T): T
    {
      match this
      case None => default
      case Some(v) => v
    }
  }

  datatype Result<T, E> = Ok(value: T) | Err(error: E)
  {
    predicate IsFailure() { this.Err? }
  }
}
