/** Failure-compatible wrappers shared by every module of the alert pipeline model.
    - Option<T> stands for a JavaScript value that may be null or undefined.
    - Result<R, E> stands for an operation that either returns or throws.
    - Outcome<E> stands for an awaited promise of `void` that resolves or rejects.
 */
module Wrappers {

  datatype Option<+T> = None | Some(value: T) {

    /** Returns the value in Some, or `default` (the `??` / `||` fallback of the source). */
    function GetOr(default: T): T {
      match this
      case Some(v) => v
      case None => default
    }
  }

  datatype Result<+R, +E> = Success(value: R) | Failure(error: E)

  datatype Outcome<+E> = Pass | Fail(error: E)
}
