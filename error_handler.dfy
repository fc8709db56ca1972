/** backend/middlewares/globalErrorHandler.js: the one place a thrown or forwarded error
    becomes an HTTP response, and the `notFound` fallback route. */
module ErrorHandler {
  import opened Js

  /** An `Error` as it reaches `next(err)`: `statusCode` and `status` exist only where
      the code that built the error set them. */
  datatype AppError = AppError(statusCode: Option<int>, status: Option<string>, message: string, stack: string)

  /** `new Error(message)` with nothing else set, as `throw new Error(...)` produces.
      Only the first line of its stack is modelled. */
  function PlainError(message: string): AppError
  {
    AppError(None, None, message, "Error: " + message)
  }

  /** `new Error(message)` with `statusCode` and `status` assigned, as the upload helpers build. */
  function StatusError(code: int, status: string, message: string): AppError
  {
    AppError(Some(code), Some(status), message, "Error: " + message)
  }

  /** What a route handler ends with: a response it sent itself, or an error that
      `express-async-handler` forwards to the error handler. */
  datatype Outcome = Sent(code: int, status: string, message: string) | Thrown(err: AppError)

  /** The JSON body of a response: `stack` is present only in development. */
  datatype Body = Body(status: string, message: string, stack: Option<string>)

  datatype Response = Response(code: int, body: Body)

  /** `err.statusCode || 500`: 0 and a missing status code are both falsy. */
  function StatusCodeOf(err: AppError): int
  {
    if err.statusCode.Some? && err.statusCode.value != 0 then err.statusCode.value else 500
  }

  /** `globalErrorHandler(err, req, res, next)` run with `process.env.NODE_ENV == nodeEnv`. */
  function GlobalErrorHandler(err: AppError, nodeEnv: Option<string>): (r: Response)
    ensures err.statusCode.None? ==> r.code == 500
    ensures err.statusCode.Some? && err.statusCode.value != 0 ==> r.code == err.statusCode.value
    ensures err.statusCode == Some(0) ==> r.code == 500
    ensures r.body.status == (if Truthy(err.status) then err.status.value else "error")
    ensures r.body.message == (if err.message == "" then "Internal Server Error" else err.message)
    ensures r.body.stack.Some? <==> nodeEnv == Some("development")
    ensures r.body.stack.Some? ==> r.body.stack.value == err.stack
  {
    var status := if Truthy(err.status) then err.status.value else "error";
    var message := if err.message == "" then "Internal Server Error" else err.message;
    var stack := if nodeEnv == Some("development") then Some(err.stack) else None;
    Response(StatusCodeOf(err), Body(status, message, stack))
  }

  /** The response a client sees for a handler's outcome. */
  function Respond(o: Outcome, nodeEnv: Option<string>): Response
  {
    match o
    case Sent(code, status, message) => Response(code, Body(status, message, None))
    case Thrown(err) => GlobalErrorHandler(err, nodeEnv)
  }

  /** `notFound(req, res, next)`: never responds itself; it forwards a 404 "fail" error. */
  function NotFound(originalUrl: string): (e: AppError)
    ensures e.statusCode == Some(404) && e.status == Some("fail")
    ensures e.message == "Cannot find route " + originalUrl
  {
    StatusError(404, "fail", "Cannot find route " + originalUrl)
  }

  /** An unknown route ends as HTTP 404 with status "fail" and names the route. */
  lemma NotFoundResponse(originalUrl: string, nodeEnv: Option<string>)
    ensures GlobalErrorHandler(NotFound(originalUrl), nodeEnv).code == 404
    ensures GlobalErrorHandler(NotFound(originalUrl), nodeEnv).body.status == "fail"
    ensures GlobalErrorHandler(NotFound(originalUrl), nodeEnv).body.message == "Cannot find route " + originalUrl
  {
  }

  /** A plain thrown `Error` is always answered with 500 and status "error",
      whatever `res.status(...)` the handler set before throwing. */
  lemma PlainErrorIs500(message: string, nodeEnv: Option<string>)
    requires message != ""
    ensures Respond(Thrown(PlainError(message)), nodeEnv).code == 500
    ensures Respond(Thrown(PlainError(message)), nodeEnv).body == Body("error", message, if nodeEnv == Some("development") then Some("Error: " + message) else None)
  {
  }
}
