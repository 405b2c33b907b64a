/** HTTP replies of the controllers and the central error handler
    (middleware/errorMiddleware.js). */
module Http {
  import opened Common

  /** What a handler answers. `Ok` carries a success status and a body;
      `Fail` a status with an error message, whether the handler wrote it
      itself (`res.status(400).json({ message })`) or passed an `Error` to
      the error handler after setting a status; `Thrown` stands for an
      exception raised by the runtime or the store inside a handler's `try`,
      which the error handler answers with 500 and the exception's own
      message (not modelled). */
  datatype Reply<T> = Ok(status: nat, body: T) | Fail(status: nat, message: string) | Thrown

  function Status<T>(r: Reply<T>): nat {
    match r
    case Ok(s, _) => s
    case Fail(s, _) => s
    case Thrown => 500
  }

  /** The status the error handler writes: a response still at the default
      200 is turned into 500, any other status is kept. */
  function ErrorStatus(resStatus: nat): (s: nat)
    ensures s != 200
    ensures resStatus != 200 ==> s == resStatus
    ensures resStatus == 200 ==> s == 500
  {
    if resStatus == 200 then 500 else resStatus
  }

  /** The JSON body of an error response; `stack` is `null` when absent. */
  datatype ErrorBody = ErrorBody(message: string, stack: Option<string>)

  /** `errorHandler(err, req, res, next)`: the status and body written for an
      error with the given message and stack, given the status already set
      on the response and the value of `NODE_ENV`. */
  function ErrorHandler(resStatus: nat, message: string, stack: string, nodeEnv: Option<string>): (r: (nat, ErrorBody))
    ensures r.0 != 200
    ensures resStatus != 200 ==> r.0 == resStatus
    ensures r.1.message == message
    ensures r.1.stack.None? <==> nodeEnv == Some("production")
    ensures r.1.stack.Some? ==> r.1.stack.value == stack
  {
    (ErrorStatus(resStatus), ErrorBody(message, if nodeEnv == Some("production") then None else Some(stack)))
  }

  /** `res.status(s); return next(new Error(message))`: the reply that
      reaches the client through the error handler. */
  function Raised<T>(resStatus: nat, message: string): (r: Reply<T>)
    ensures r.Fail? && r.message == message && r.status != 200
    ensures resStatus != 200 ==> r.status == resStatus
  {
    Fail(ErrorStatus(resStatus), message)
  }
}
