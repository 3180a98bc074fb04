/** Values shared by every module: optional values, the exceptions the
    backend throws and the results that carry them. */
module Wrappers {

  /** A Java reference that may be null, or a JavaScript value that may be
      null or undefined. */
  datatype Option<+T> = None | Some(value: T)

  /** One rejected request field, as Spring's FieldError reports it. */
  datatype FieldError = FieldError(field: string, defaultMessage: Option<string>)

  /** The exceptions the modelled code throws or handles, with the message
      each carries. */
  datatype Exception =
    | NullPointer
    | IllegalArgument(message: string)
    | Domain(message: string)
    | UnprocessableEntity(message: string)
    | ResourceNotFound(message: string)
    | OptimisticLockingFailure
    | Runtime(message: string)
    | StringIndexOutOfBounds
    | MethodArgumentNotValid(fieldErrors: seq<FieldError>)
    | BindFailure(fieldErrors: seq<FieldError>)
    | MaxUploadSizeExceeded(message: string)
    | FileStorage(message: string)
    | JsError(message: string)
    | Other(message: string)

  /** The value a Java method returns, or the exception it throws. */
  datatype Result<+T> = Ok(value: T) | Fail(error: Exception)

  /** A `void` method: it returns normally or throws. */
  datatype Outcome = Pass | Raise(error: Exception)
}
