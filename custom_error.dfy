/**
 * The errors a request handler can pass on to the error handler: a schema-validation
 * failure, a `CustomError` carrying its own status, or any other error.
 */
module Errors {
  import opened Common
  import opened Zod

  /** What an error is, as far as the error handler can tell. */
  datatype ErrorKind =
    | ZodFailure(issues: seq<Issue>)
    | Custom(statusCode: int)
    | Plain

  /** An error value with its message and the stack trace the runtime attached to it, if any. */
  datatype Error = Error(kind: ErrorKind, message: string, stack: Option<string>)

  /** The status a `CustomError` gets when its constructor is given none. */
  const DefaultStatus: int := 500

  /** `new CustomError(message, statusCode)`; an omitted status defaults to 500. */
  function NewCustomError(message: string, statusCode: Option<int>, stack: Option<string>): (e: Error)
    ensures e.kind.Custom? && e.message == message
    ensures statusCode.None? ==> e.kind.statusCode == 500
    ensures statusCode.Some? ==> e.kind.statusCode == statusCode.value
  {
    Error(Custom(if statusCode.Some? then statusCode.value else DefaultStatus), message, stack)
  }

  /**
   * `new NotFoundError(message)`: a `CustomError` with status 404 and the default message
   * "Resource not found" when none is given. The base constructor resets the prototype to
   * `CustomError.prototype`, so the value keeps no trace of the subclass.
   */
  function NewNotFoundError(message: Option<string>, stack: Option<string>): (e: Error)
    ensures e.kind == Custom(404)
    ensures e.message == if message.Some? then message.value else "Resource not found"
  {
    NewCustomError(if message.Some? then message.value else "Resource not found", Some(404), stack)
  }

  /** `new BadRequestError(message)`: a `CustomError` with status 400, default message "Invalid request". */
  function NewBadRequestError(message: Option<string>, stack: Option<string>): (e: Error)
    ensures e.kind == Custom(400)
    ensures e.message == if message.Some? then message.value else "Invalid request"
  {
    NewCustomError(if message.Some? then message.value else "Invalid request", Some(400), stack)
  }
}
