/**
 * `authMiddleware` of src/middlewares/auth.middleware.ts: it reads the `token` cookie,
 * checks that a JWT secret is configured, verifies the token and, only then, sets
 * `req.user` and calls `next`. `jwt.verify` is foreign code and appears as a function that
 * returns the decoded payload, or nothing when it throws. A request without parsed cookies
 * (`req.cookies` undefined) makes the first property read throw inside the `try`, so it is
 * answered as an invalid token.
 */
module AuthMiddleware {
  import opened Wrappers
  import opened Json

  const TokenMissing := "Authentication token missing"
  const ServerConfigError := "Server configuration error"
  const InvalidToken := "Invalid authentication token"

  /** The cookie the middleware reads. */
  const TokenCookie := "token"

  /** `req.user` as the middleware sets it: `{ id: decoded._id, email: decoded.email }`,
      where either may be undefined. */
  datatype AuthUser = AuthUser(id: Option<Json>, email: Option<Json>)

  /** Either `next()` with the user to attach, or a reply `res.status(s).json({ message })`. */
  datatype AuthDecision =
    | Next(user: AuthUser)
    | Reject(status: int, body: Json)

  function MessageBody(message: string): Json {
    JObj(map["message" := JStr(message)])
  }

  /** The token cookie's value when it is truthy. */
  function TokenOf(cookies: map<string, string>): Option<string> {
    if TokenCookie in cookies && cookies[TokenCookie] != "" then Some(cookies[TokenCookie]) else None
  }

  /** The middleware's decision, checks in source order: cookies readable, token present,
      secret configured, token verified. */
  function Authenticate(cookies: Option<map<string, string>>, secret: Option<string>, verify: (string, string) -> Option<Json>)
    : (d: AuthDecision)
    ensures cookies.None? ==> d == Reject(401, MessageBody(InvalidToken))
    ensures cookies.Some? && TokenOf(cookies.value).None? ==> d == Reject(401, MessageBody(TokenMissing))
    ensures cookies.Some? && TokenOf(cookies.value).Some? && (secret.None? || secret.value == "") ==>
      d == Reject(500, MessageBody(ServerConfigError))
    ensures d.Next? <==>
      && cookies.Some? && TokenOf(cookies.value).Some? && secret.Some? && secret.value != ""
      && verify(TokenOf(cookies.value).value, secret.value).Some?
    ensures d.Next? ==>
      var decoded := verify(TokenOf(cookies.value).value, secret.value).value;
      d.user == AuthUser(Get(decoded, "_id"), Get(decoded, "email"))
  {
    if cookies.None? then Reject(401, MessageBody(InvalidToken))
    else
      var token := TokenOf(cookies.value);
      if token.None? then Reject(401, MessageBody(TokenMissing))
      else if secret.None? || secret.value == "" then Reject(500, MessageBody(ServerConfigError))
      else
        match verify(token.value, secret.value)
        case None => Reject(401, MessageBody(InvalidToken))
        case Some(decoded) => Next(AuthUser(Get(decoded, "_id"), Get(decoded, "email")))
  }

  /** Every rejection is a 401 or a 500 whose body has only a message, and a verification
      failure is answered exactly like unreadable cookies. */
  lemma RejectionsAreUnauthorizedOrConfig(cookies: Option<map<string, string>>, secret: Option<string>, verify: (string, string) -> Option<Json>)
    ensures var d := Authenticate(cookies, secret, verify);
      d.Reject? ==>
        && (d.status == 401 || d.status == 500)
        && d.body.JObj? && d.body.fields.Keys == {"message"}
        && (d.status == 500 <==> d.body == MessageBody(ServerConfigError))
    ensures (cookies.Some? && TokenOf(cookies.value).Some? && secret.Some? && secret.value != ""
             && verify(TokenOf(cookies.value).value, secret.value).None?) ==>
      Authenticate(cookies, secret, verify) == Authenticate(None, secret, verify)
  {
  }

  /** A missing secret is only noticed once a token is present: without a token the reply
      is the 401 whatever the configuration. */
  lemma TokenCheckedBeforeSecret(cookies: map<string, string>, s1: Option<string>, s2: Option<string>, verify: (string, string) -> Option<Json>)
    requires TokenOf(cookies).None?
    ensures Authenticate(Some(cookies), s1, verify) == Authenticate(Some(cookies), s2, verify)
  {
  }

  /** The request's mutable part. */
  class Request {
    var cookies: Option<map<string, string>>
    var user: Option<AuthUser>

    constructor (cookies: Option<map<string, string>>)
      ensures this.cookies == cookies && user.None?
    {
      this.cookies := cookies;
      this.user := None;
    }
  }

  /** The middleware on a request: `next` is called (once) exactly when the decision is
      `Next`, and only then is `req.user` set; a rejected request keeps its `user`. */
  method Run(req: Request, secret: Option<string>, verify: (string, string) -> Option<Json>)
    returns (reply: Option<(int, Json)>, nextCalls: nat)
    modifies req
    ensures req.cookies == old(req.cookies)
    ensures var d := Authenticate(old(req.cookies), secret, verify);
      && (d.Next? ==> nextCalls == 1 && reply.None? && req.user == Some(d.user))
      && (d.Reject? ==> nextCalls == 0 && reply == Some((d.status, d.body)) && req.user == old(req.user))
  {
    nextCalls := 0;
    var d := Authenticate(req.cookies, secret, verify);
    if d.Reject? {
      return Some((d.status, d.body)), 0;
    }
    req.user := Some(d.user);
    nextCalls := nextCalls + 1;
    reply := None;
  }
}
