/** Option and Result types used throughout the model. A Python exception that
    escapes a helper is modelled as a `Failure` carrying the exception's kind. */
module Wrappers {

  datatype Option<+T> = None | Some(value: T) {
    function GetOr(default: T): T {
      match this
      case Some(v) => v
      case None => default
    }
  }

  /** The Python exception classes the modelled code can raise on ill-typed input. */
  datatype PyError = TypeError | ValueError | AttributeError

  datatype Result<+R> = Success(value: R) | Failure(error: PyError) {
    predicate IsFailure() {
      Failure?
    }

    function PropagateFailure<U>(): Result<U>
      requires Failure?
    {
      Failure(error)
    }

    function Extract(): R
      requires Success?
    {
      value
    }
  }
}
