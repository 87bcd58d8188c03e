/** The Express error handler: classifies an error into a status code and a JSON body. */
module ErrorHandler {
  import opened Common
  import opened Zod
  import opened Errors

  /** One entry of `details` in a validation-error body. */
  datatype Detail = Detail(field: string, message: string)

  /**
   * The JSON body written for an error. `details` is present only for validation errors,
   * `stack` only when the handler decided to include it.
   */
  datatype ErrorBody = ErrorBody(success: bool, error: string, details: Option<seq<Detail>>, stack: Option<string>)

  datatype ErrorResponse = ErrorResponse(status: int, body: ErrorBody)

  /** The `details` list: one entry per issue, in order, its field the issue's path joined with '.'. */
  function Details(issues: seq<Issue>): (ds: seq<Detail>)
    ensures |ds| == |issues|
    ensures forall i :: 0 <= i < |issues| ==>
      ds[i].field == FieldName(issues[i].path) && ds[i].message == issues[i].message
  {
    seq(|issues|, i requires 0 <= i < |issues| => Detail(FieldName(issues[i].path), issues[i].message))
  }

  /** `process.env.NODE_ENV === 'development'`. */
  predicate Development(nodeEnv: Option<string>) {
    nodeEnv == Some("development")
  }

  /**
   * `errorHandler(err, …)`: a validation error becomes 400 "Validation Error" with its details;
   * a `CustomError` keeps its own status and message; anything else becomes 500
   * "Something went wrong". The body never reports success, and the stack trace appears
   * only outside the validation branch and only in development.
   */
  function HandleError(err: Error, nodeEnv: Option<string>): (r: ErrorResponse)
    ensures !r.body.success
    ensures err.kind.ZodFailure? ==>
      r.status == 400 && r.body.error == "Validation Error" &&
      r.body.details == Some(Details(err.kind.issues)) && r.body.stack.None?
    ensures err.kind.Custom? ==>
      r.status == err.kind.statusCode && r.body.error == err.message && r.body.details.None?
    ensures err.kind.Plain? ==>
      r.status == 500 && r.body.error == "Something went wrong" && r.body.details.None?
    ensures !err.kind.ZodFailure? ==>
      r.body.stack == (if Development(nodeEnv) then err.stack else None)
  {
    match err.kind
    case ZodFailure(issues) =>
      ErrorResponse(400, ErrorBody(false, "Validation Error", Some(Details(issues)), None))
    case Custom(code) =>
      ErrorResponse(code, ErrorBody(false, err.message, None, if Development(nodeEnv) then err.stack else None))
    case Plain =>
      ErrorResponse(500, ErrorBody(false, "Something went wrong", None, if Development(nodeEnv) then err.stack else None))
  }

  /** Whether a stack trace is shown never changes the status or the message. */
  lemma StackOnlyInDevelopment(err: Error, nodeEnv: Option<string>)
    ensures HandleError(err, nodeEnv).status == HandleError(err, None).status
    ensures HandleError(err, nodeEnv).body.error == HandleError(err, None).body.error
    ensures !Development(nodeEnv) ==> HandleError(err, nodeEnv).body.stack.None?
  {
  }

  /** The two subclasses are `CustomError`s, so the handler answers with their own codes and messages. */
  lemma SubclassStatuses(message: Option<string>, customMessage: string, stack: Option<string>, nodeEnv: Option<string>)
    ensures HandleError(NewNotFoundError(message, stack), nodeEnv).status == 404
    ensures HandleError(NewBadRequestError(message, stack), nodeEnv).status == 400
    ensures message.None? ==> HandleError(NewNotFoundError(message, stack), nodeEnv).body.error == "Resource not found"
    ensures message.None? ==> HandleError(NewBadRequestError(message, stack), nodeEnv).body.error == "Invalid request"
    ensures HandleError(NewCustomError(customMessage, None, stack), nodeEnv).status == 500
    ensures HandleError(NewCustomError(customMessage, None, stack), nodeEnv).body.error == customMessage
  {
  }
}
