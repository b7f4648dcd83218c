/** Failure-compatible wrappers used by every stage of the `point` command.
    The Go source reports failures as a second `error` return value and then
    calls `log.Fatal`; here a failure is a value that ends the run. */
module Results {

  /** A value that may be absent: models a Go pointer or map field that is left nil. */
  datatype Option<+T> = None | Some(value: T)

  /** Either a computed value or the reason the computation stopped. */
  datatype Result<+T, +E> = Ok(value: T) | Err(error: E) {

    predicate IsFailure() {
      Err?
    }

    function PropagateFailure<U>(): Result<U, E>
      requires Err?
    {
      Err(error)
    }

    function Extract(): T
      requires Ok?
    {
      value
    }
  }
}
