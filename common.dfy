/** Error kinds raised by the annotation utilities, and the result type that carries them. */
module Common {

  /** The Python exceptions the utilities can raise. */
  datatype PyError =
    | AssertionError   // a failed `assert osp.isdir(...)`
    | TypeError        // wrong kind of input path, or a value of the wrong JSON kind
    | IndexError       // `[0]` on an empty list or string
    | KeyError         // a missing key in a JSON object

  /** Either the value a routine returns or the exception it raises. */
  datatype Result<+T> = Success(value: T) | Failure(error: PyError) {
    predicate IsFailure() { Failure? }

    function PropagateFailure<U>(): Result<U>
      requires Failure?
    {
      Failure(error)
    }

    function Extract(): T
      requires Success?
    {
      value
    }
  }
}
