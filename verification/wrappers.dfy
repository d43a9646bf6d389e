/** Failure-compatible wrappers used by the repository model.
  - Option<T>: a value or its absence (Python's `None` return)
  - Result<T, E>: a value or the exception that interrupted the computation
 */
module Wrappers {

  /** A value, or nothing: the `X | None` return type of the lookup operations. */
  datatype Option<+T> = None | Some(value: T)

  /** A value, or the error raised while computing it. Usable with `:-`. */
  datatype Result<+T, +E> = Success(value: T) | Failure(error: E) {

    predicate IsFailure() {
      Failure?
    }

    function PropagateFailure<U>(): Result<U, E>
      requires Failure?
    {
      Failure(error)
    }

    function Extract(): T
      requires Success?
    {
      value
    }

    /** Forgets the error, keeping only whether a value was produced. */
    function ToOption(): Option<T> {
      match this
      case Success(v) => Some(v)
      case Failure(_) => None
    }
  }
}
