/** Option and Result, the two failure-carrying datatypes the model uses
    in place of Java's null and thrown exceptions. */
module Wrappers {

  /** `None` stands for Java's `null`. */
  datatype Option<+T> = None | Some(value: T)

  /** `Failure` stands for an exception thrown while a record is processed:
      either one that sends the record to error, or a runtime exception that
      leaves `process` altogether. */
  datatype Result<+T, +E> = Success(value: T) | Failure(error: E) {

    /** True if is Failure */
    predicate IsFailure() {
      Failure?
    }

    /** The same failure, at another value type */
    function PropagateFailure<U>(): Result<U, E>
      requires Failure?
    {
      Failure(error)
    }

    /** The value carried by Success */
    function Extract(): T
      requires Success?
    {
      value
    }
  }
}
