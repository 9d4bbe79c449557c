/** Failure-compatible wrappers used throughout the model. */
module Wrappers {

  /** A value that may be absent; `None` plays the part of Java's `null`. */
  datatype Option<+T> = None | Some(value: T)

  /** The outcome of a transaction: the new state, or the reason it aborted.
      Usable with `:-`, which passes an abort on unchanged. */
  datatype Result<+R, +E> = Success(value: R) | Failure(error: E) {

    predicate IsFailure()
    {
      Failure?
    }

    function PropagateFailure<U>(): Result<U, E>
      requires Failure?
    {
      Failure(error)
    }

    function Extract(): R
      requires Success?
    {
      value
    }
  }
}
