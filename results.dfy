/** Failure-compatible wrappers shared by every stage of the compiler. */
module Results {

  datatype Option<+T> = None | Some(value: T)

  /** The outcome of a stage that may throw: `Err` stands for the exception. */
  datatype Result<+T, +E> = Ok(value: T) | Err(error: E) {

    predicate IsFailure() {
      Err?
    }

    function PropagateFailure<U>(): Result<U, E>
      requires Err?
    {
      Err(error)
    }

    function Extract(): T
      requires Ok?
    {
      value
    }
  }
}
