/** Failure-compatible results. Every error type of the modelled crates
    (`EligibilityError(String)`, `DiagnosisError(String)`, `Box<dyn Error>`)
    carries nothing but a message, so an error is its message text. */
module Results {

  datatype Result<+T> = Ok(value: T) | Err(error: string) {

    predicate IsFailure() {
      Err?
    }

    function PropagateFailure<U>(): Result<U>
      requires Err?
    {
      Err(error)
    }

    function Extract(): T
      requires Ok?
    {
      value
    }
  }

  /** How a call ends: it returns, or it aborts the process (a Rust panic,
      here from `expect`) with the given message. */
  datatype Run<+T> = Completed(value: T) | Panicked(message: string)
}
