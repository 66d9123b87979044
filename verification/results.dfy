/** Failure-compatible wrappers: Go's `(value, error)` returns and nil-able values. */
module Results {

  /** A value that may be absent (a nil pointer or a nil error in Go). */
  datatype Option<+T> = None | Some(value: T)

  /** The `(value, err)` pair of a Go call: either a value or an error message. */
  datatype Result<+T> = Ok(value: T) | Err(error: string) {

    predicate IsFailure() {
      Err?
    }

    function PropagateFailure<U>(): Result<U>
      requires Err?
    {
      Err(error)
    }

    function Extract(): T
      requires Ok?
    {
      value
    }
  }
}
