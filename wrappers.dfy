/** Option and error-carrying result types shared by every module.
    Go's `(T, error)` pairs become `Result<T>`, a bare `error` becomes `Outcome`. */
module Wrappers {

  datatype Option<+T> = None | Some(value: T)

  /** A value or an error message (Go's `error.Error()` text). */
  datatype Result<+T> = Ok(value: T) | Err(msg: string) {
    predicate IsFailure() { Err? }
    function PropagateFailure<U>(): Result<U>
      requires Err?
    {
      Err(msg)
    }
    function Extract(): T
      requires Ok?
    {
      value
    }
  }

  /** A Go function that returns only an `error`: nil is `Pass`. */
  datatype Outcome = Pass | Fail(msg: string)
}
