/** Failure-carrying datatypes shared by every module: the optional value
    (Python's `None` or a value) and the result of an operation that may
    raise a Python exception. */
module Results {

  /** Python's `None` or a present value. */
  datatype Option<+T> = None | Some(value: T)

  /** The exception class and message of a raised error: the two the core
      raises itself, or any other class raised by code it calls. */
  datatype Error =
    | ValueError(message: string)
    | TypeError(message: string)
    | OtherError(exceptionClass: string, message: string)

  /** The outcome of an operation that either returns a value or raises. */
  datatype Result<+T> = Ok(value: T) | Err(error: Error) {

    predicate IsFailure() {
      Err?
    }

    function PropagateFailure<U>(): Result<U>
      requires Err?
    {
      Err(error)
    }

    function Extract(): T
      requires Ok?
    {
      value
    }
  }
}
