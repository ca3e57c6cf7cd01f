/**
 * The two shapes in which Go code reports failure: a `(T, error)` pair,
 * modelled as `Result<T>`, and a bare `error`, modelled as `Outcome`.
 * A Go nil reference or nil slice is `None` of an `Option`.
 */
module Wrappers {

  /** A Go `error`; the model keeps the text its `Error()` method returns. */
  type Error = string

  datatype Option<+T> = None | Some(value: T)

  /** A `(T, error)` return whose error is nil exactly when it is `Ok`. */
  datatype Result<+T> = Ok(value: T) | Err(error: Error) {

    predicate IsFailure() {
      Err?
    }

    function PropagateFailure<U>(): Result<U>
      requires Err?
    {
      Err(error)
    }

    function Extract(): T
      requires Ok?
    {
      value
    }
  }

  /** An `error` return: nil (`Pass`) or an error value. */
  datatype Outcome = Pass | Fail(error: Error)
}
