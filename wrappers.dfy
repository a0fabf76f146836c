/** Failure-compatible wrappers used across the model. */
module Wrappers {

  /** An optional value; `None` also stands for a Java `null` reference. */
  datatype Option<+T> = None | Some(value: T) {
    predicate IsFailure() { None? }

    function PropagateFailure<U>(): Option<U>
      requires None?
    {
      None
    }

    function Extract(): T
      requires Some?
    {
      value
    }

    function GetOr(default: T): T {
      match this
      case Some(v) => v
      case None => default
    }
  }

  /** A value or an error. */
  datatype Result<+R, +E> = Success(value: R) | Failure(error: E)
}
