/** `errorHandler` of src/middlewares/error.middleware.ts: turns any thrown value into the
    JSON error reply. Logging is left out; the request id and the NODE_ENV test are inputs. */
module ErrorMiddleware {
  import opened Wrappers
  import opened ApiErrors

  const FallbackMessage := "Something went wrong"

  /** JavaScript truthiness of an optional number and of an optional string. */
  predicate TruthyNumber(n: Option<int>) {
    n.Some? && n.value != 0
  }

  predicate TruthyString(s: Option<string>) {
    s.Some? && s.value != ""
  }

  datatype ErrorBody = ErrorBody(
    success: bool,
    statusCode: int,
    message: string,
    errors: seq<string>,
    requestId: Option<string>,
    stack: Option<string>)

  /** `res.status(status).json(body)`. */
  datatype ErrorReply = ErrorReply(status: int, body: ErrorBody)

  /** Step 1: an ApiError is kept; anything else becomes an ApiError whose status is its own
      truthy `statusCode`, else 400 for a mongoose error and 500 otherwise, whose message is
      its own non-empty message or the fallback, and whose errors are its own or none. */
  function Normalize(err: Err): (e: Err)
    ensures e.ApiError?
    ensures err.ApiError? ==> e == err
    ensures err.Thrown? ==>
      && e.statusCode == (if TruthyNumber(err.rawStatusCode) then err.rawStatusCode.value
                          else if err.isMongoose then 400 else 500)
      && e.message == (if TruthyString(err.rawMessage) then err.rawMessage.value else FallbackMessage)
      && e.errors == err.rawErrors.GetOr([])
  {
    match err
    case ApiError(_, _, _) => err
    case Thrown(code, msg, errs, mongoose) =>
      var statusCode := if TruthyNumber(code) then code.value else if mongoose then 400 else 500;
      var message := if TruthyString(msg) then msg.value else FallbackMessage;
      ApiError(statusCode, message, errs.GetOr([]))
  }

  /** The whole handler: the HTTP status is the body's `statusCode`, `success` is false, and a
      `stack` entry (holding the message) is added only in development. */
  function ErrorHandler(err: Err, requestId: Option<string>, isDevelopment: bool): (r: ErrorReply)
    ensures r.status == r.body.statusCode && !r.body.success
    ensures r.body.statusCode == Normalize(err).statusCode
    ensures r.body.message == Normalize(err).message && r.body.errors == Normalize(err).errors
    ensures r.body.requestId == requestId
    ensures r.body.stack == (if isDevelopment then Some(r.body.message) else None)
  {
    var e := Normalize(err);
    ErrorReply(e.statusCode, ErrorBody(false, e.statusCode, e.message, e.errors, requestId,
      if isDevelopment then Some(e.message) else None))
  }

  /** Normalising twice changes nothing more, and a value that is not an ApiError always ends
      with a non-zero status and a non-empty message. */
  lemma NormalizeIdempotentAndTotal(err: Err)
    ensures Normalize(Normalize(err)) == Normalize(err)
    ensures err.Thrown? ==> Normalize(err).statusCode != 0 && Normalize(err).message != ""
  {
  }

  /** A plain `new Error(m)` (what the user service throws) becomes a 500 carrying `m` when `m`
      is not empty, so the client sees the service's message. */
  lemma PlainErrorIs500(m: string, requestId: Option<string>, dev: bool)
    requires m != ""
    ensures ErrorHandler(PlainError(m), requestId, dev).status == 500
    ensures ErrorHandler(PlainError(m), requestId, dev).body.message == m
    ensures ErrorHandler(PlainError(m), requestId, dev).body.errors == []
  {
  }
}
