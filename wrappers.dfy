/** The error-carrying result of every query: chalk's `Result<T, ChalkError>`. */
module Wrappers {

  /** Chalk's `ChalkError`: the text of a diagnostic produced by a collaborator. */
  datatype ChalkError = ChalkError(text: string)

  /** Failure-compatible, so that `:-` models Rust's `?` operator. */
  datatype Result<T> = Ok(value: T) | Err(error: ChalkError) {

    predicate IsFailure() {
      Err?
    }

    function PropagateFailure<U>(): Result<U>
      requires Err?
    {
      Err(error)
    }

    function Extract(): T
      requires Ok?
    {
      value
    }
  }
}
