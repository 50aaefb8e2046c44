/** Failure-compatible Option and Result datatypes used by the rest of the
    model in place of Java's null references and thrown exceptions. */
module Wrappers {

  /** A value that may be absent: the model's stand-in for a nullable reference. */
  datatype Option<+T> = None | Some(value: T) {

    /** Returns the value, or `default` when there is none. */
    function GetOr(default: T): T {
      match this
      case Some(v) => v
      case None => default
    }
  }

  /** The outcome of an operation that either returns a value or raises an error.
      It can be used with `:-`, which propagates the first failure. */
  datatype Result<+R, +E> = Success(value: R) | Failure(error: E) {

    predicate IsFailure() {
      Failure?
    }

    function PropagateFailure<U>(): Result<U, E>
      requires Failure?
    {
      Failure(error)
    }

    function Extract(): R
      requires Success?
    {
      value
    }
  }
}
