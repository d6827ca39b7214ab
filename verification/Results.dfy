/** How the runtime's operations fail. */
module Results {
  /** The categories of the runtime's typed errors; `Internal` also stands for untyped exceptions. */
  datatype Error = InvalidRequest | IncompatibleWorker | ResourceExhausted | DeadlineExceeded | Stopped | Internal

  datatype Result<+T> = Ok(value: T) | Err(error: Error) {
    predicate IsFailure() {
      Err?
    }

    function PropagateFailure<U>(): Result<U>
      requires Err?
    {
      Err(error)
    }

    function Extract(): T
      requires Ok?
    {
      value
    }
  }

  datatype Option<+T> = None | Some(value: T)
}
