/** The error middleware: the last handler of the chain turns a thrown error into
    a JSON reply, and requests that match no route get a 404. */
module ErrorHandler {
  import opened Wrappers
  import opened Environment

  /** The fields of a thrown error that the middleware reads. */
  datatype AppError = AppError(name: string, code: Option<string>, message: string, stack: string, details: Option<string>)

  datatype ErrorBody = ErrorBody(
    success: bool, message: string, details: Option<string>, error: Option<string>, stack: Option<string>)

  datatype ErrorReply = ErrorReply(status: int, body: ErrorBody)

  /** The error kinds are tried in a fixed order: the name first, then the code. */
  function HandleError(err: AppError, env: Env): (r: ErrorReply)
    ensures !r.body.success
    ensures r.status == 400 <==> err.name == "ValidationError"
    ensures r.status == 401 <==> err.name != "ValidationError" && err.name == "UnauthorizedError"
    ensures r.status == 413 <==> err.name != "ValidationError" && err.name != "UnauthorizedError"
                                 && err.code == Some("LIMIT_FILE_SIZE")
    ensures r.status in {400, 401, 413, 500}
    ensures r.body.message == (match r.status
      case 400 => "Validation failed" case 401 => "Unauthorized access"
      case 413 => "File size too large" case _ => "Internal server error")
    // only a validation error carries details
    ensures r.body.details == (if r.status == 400 then err.details else None)
    // the message and stack of an error reach the client only on a 500 in development
    ensures r.body.error.Some? || r.body.stack.Some? <==> r.status == 500 && Equals(env, "NODE_ENV", "development")
    ensures r.body.error.Some? ==> r.body.error == Some(err.message) && r.body.stack == Some(err.stack)
  {
    if err.name == "ValidationError" then
      ErrorReply(400, ErrorBody(false, "Validation failed", err.details, None, None))
    else if err.name == "UnauthorizedError" then
      ErrorReply(401, ErrorBody(false, "Unauthorized access", None, None, None))
    else if err.code == Some("LIMIT_FILE_SIZE") then
      ErrorReply(413, ErrorBody(false, "File size too large", None, None, None))
    else if Equals(env, "NODE_ENV", "development") then
      ErrorReply(500, ErrorBody(false, "Internal server error", None, Some(err.message), Some(err.stack)))
    else
      ErrorReply(500, ErrorBody(false, "Internal server error", None, None, None))
  }

  /** Outside development two errors of the same kind get the same reply: nothing
      of the error's own message, stack or code leaks into a 500. */
  lemma ProductionRepliesHideTheError(a: AppError, b: AppError, env: Env)
    requires !Equals(env, "NODE_ENV", "development")
    requires HandleError(a, env).status == 500 && HandleError(b, env).status == 500
    ensures HandleError(a, env) == HandleError(b, env)
  {
  }

  /** The catch-all for unmatched routes; the URL only names the unused error. */
  function NotFound(url: string): (r: ErrorReply)
    ensures r.status == 404 && !r.body.success && r.body.message == "Route not found"
    ensures r.body.error.None? && r.body.stack.None? && r.body.details.None?
  {
    ErrorReply(404, ErrorBody(false, "Route not found", None, None, None))
  }
}
