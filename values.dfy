/** Go's nil-able references, `error` values and `(value, error)` results, as Dafny values. */
module Values {

  /** A Go pointer or slice that may be nil: `None` is nil. */
  datatype Option<+T> = None | Some(value: T)

  /** A Go `error`; only the text that `%v` prints is observable in this model. */
  datatype Error = Error(message: string)

  /** The pair `(T, error)` that a Go function returns. The two halves are independent:
      a callee may return a value and an error at once, or neither. */
  datatype Outcome<+T> = Outcome(value: Option<T>, err: Option<Error>)

  /** A library call whose value the caller uses only when it did not fail. */
  datatype Fallible<+T> = Ok(value: T) | Fail(err: Error)
}
