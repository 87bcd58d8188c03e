/**
 * What a request handler hands back: a response it sends itself (status, success flag,
 * message and optional data), or an error it passes on to the error handler.
 */
module Http {
  import opened Common
  import opened Zod
  import opened Errors
  import opened ErrorHandler
  import opened UserModel

  /** The `data` part of a response. */
  datatype Data =
    | NoData
    | TypeHint(field: string)
    | LogoutHint
    | Session(token: string, user: User)
    | UserData(user: User)
    | RoleData(role: string)
    | TokenData(token: string)

  datatype Reply =
    | Sent(status: int, success: bool, message: string, data: Data)
    | Failed(err: Error)

  /** A refusal the handler sends itself, without data. */
  function Refusal(status: int, message: string): Reply {
    Sent(status, false, message, NoData)
  }

  /** The error a handler passes on when a schema rejects its input. */
  function ValidationError(issues: seq<Issue>): Error {
    Error(ZodFailure(issues), "", None)
  }

  /** The status the client finally sees: the handler's own, or the one the error handler assigns. */
  function FinalStatus(r: Reply, nodeEnv: Option<string>): (status: int)
    ensures r.Sent? ==> status == r.status
    ensures r.Failed? && r.err.kind.ZodFailure? ==> status == 400
    ensures r.Failed? && r.err.kind.Plain? ==> status == 500
  {
    match r
    case Sent(status, _, _, _) => status
    case Failed(err) => HandleError(err, nodeEnv).status
  }
}
