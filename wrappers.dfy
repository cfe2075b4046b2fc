/** Option and Result values, and the error values the use cases raise. */
module Wrappers {

  datatype Option<+T> = None | Some(value: T) {
    function GetOr(default: T): T {
      match this
      case Some(v) => v
      case None => default
    }
  }

  datatype Result<+T> = Ok(value: T) | Err(error: Error) {
    predicate IsFailure() {
      Err?
    }

    function PropagateFailure<U>(): Result<U>
      requires Err?
    {
      Err(error)
    }

    function Extract(): T
      requires Ok?
    {
      value
    }
  }

  /** The class of a thrown error: a plain `Error`, or one of the two
      domain error classes of src/domain/errors. */
  datatype ErrorKind = PlainError | ResourceNotFound | Unauthorized

  datatype Error = Error(kind: ErrorKind, message: string)

  function Fail<T>(message: string): Result<T> {
    Err(Error(PlainError, message))
  }
}
