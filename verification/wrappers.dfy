/** Failure-compatible wrappers used in place of Kotlin's nullable types and exceptions.
- Option<T> stands for a nullable `T?` result (`null` is `None`).
- Result<T, E> stands for a call that either returns a `T` or throws an `E`.
- Outcome<E> stands for a `Unit` call that either completes or throws an `E`.
 */
module Wrappers {

  datatype Option<+T> = None | Some(value: T) {

    predicate IsFailure() {
      None?
    }

    function PropagateFailure<U>(): Option<U>
      requires None?
    {
      None
    }

    function Extract(): T
      requires Some?
    {
      value
    }
  }

  datatype Result<+T, +E> = Success(value: T) | Failure(error: E) {

    predicate IsFailure() {
      Failure?
    }

    function PropagateFailure<U>(): Result<U, E>
      requires Failure?
    {
      Failure(error)
    }

    function Extract(): T
      requires Success?
    {
      value
    }
  }

  datatype Outcome<+E> = Pass | Fail(error: E)
}
