/**
 * Shared vocabulary: optional values, the three kinds of exception the
 * argument-resolution layer raises, and a result type that carries them.
 */
module Base {

  datatype Option<T> = None | Some(value: T)

  /** The exceptions of the launcher, each with the message it carries. */
  datatype Error =
    | CommandLineError(message: string)       // CommandLineException (unchecked)
    | InvalidPathArgument(message: string)    // InvalidPathArgumentException (checked)
    | ExperimentExecution(message: string)    // ExperimentExecutionException (checked)

  datatype Result<T> = Ok(value: T) | Err(error: Error)
  {
    predicate IsFailure() { Err? }

    function PropagateFailure<U>(): Result<U>
      requires Err?
    {
      Err(error)
    }

    function Extract(): T
      requires Ok?
    {
      value
    }
  }
}
