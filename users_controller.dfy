/**
 * The handlers of src/controller/users.controller.ts. Each handler normalises its input,
 * refuses a missing field with 400 before any service call, and replies only once the
 * service returned. The service's `{ user, token }` is destructured as
 * `{ user, accessToken, refreshToken }`, so both cookies carry the text "undefined" and the
 * JSON holds no token; `req.user` (set by the auth middleware as `{ id, email }`) has no
 * `_id`; and the service has no `refreshAccessToken` or `logoutAll`.
 */
module UsersController {
  import opened Wrappers
  import opened Strings
  import opened Json
  import opened ApiErrors
  import opened ApiResponses
  import opened RequestInput
  import opened UserModel
  import opened UsersService
  import opened ErrorMiddleware
  import AuthMiddleware

  /** Cookie lifetimes in milliseconds: 15 minutes and 7 days. */
  const AccessTokenMaxAge: nat := 15 * 60 * 1000
  const RefreshTokenMaxAge: nat := 7 * 24 * 60 * 60 * 1000

  const AccessCookie := "accessToken"
  const RefreshCookie := "refreshToken"

  const RegisterFieldsRequired := NewApiError(400, "Name, username, email, password, and OTP are required")
  const LoginFieldsRequired := NewApiError(400, "Credential and password are required")
  const RefreshTokenMissing := NewApiError(401, "Refresh token missing")

  const RegisteredMessage := "User registered successfully"
  const LoggedInMessage := "User logged in successfully"
  const LoggedOutMessage := "Logged out successfully"
  const CurrentUserMessage := "Current user retrieved successfully"

  /** The TypeError of reading a property of undefined. */
  function ReadOfUndefined(property: string): Err {
    PlainError("Cannot read properties of undefined (reading '" + property + "')")
  }

  /** The body holds nothing under `name`, null, or a string: the values `v?.trim()` does
      not throw on. */
  predicate Trimmable(body: Json, name: string) {
    Get(body, name).None? || Get(body, name) == Some(JNull) || HasString(body, name)
  }

  /** The string under `name`, normalised. */
  function Normal(body: Json, name: string, lower: bool): string
    requires HasString(body, name)
  {
    if lower then ToLower(Trim(body.fields[name].s)) else Trim(body.fields[name].s)
  }

  /** One normalised field, as the required-field check sees it. */
  lemma FieldPresent(body: Json, name: string, lower: bool)
    ensures var f := FieldOf(body, name, lower);
      && (f.Success? && Present(f.value) <==> HasString(body, name) && Normal(body, name, lower) != "")
      && (f.Success? && Present(f.value) ==> f.value.value == Normal(body, name, lower))
      && (Trimmable(body, name) ==> f.Success?)
  {
    FieldOfCases(body, name, lower);
  }

  /** `registerUser`'s input step. Name, username, email, password and otp are normalised in
      that order (the first that is not a string throws); then all five must be non-empty. */
  function RegisterInput(body: Json): (r: Result<RegistrationInput, Err>)
    ensures r.Success? <==>
      && HasString(body, "name") && HasString(body, "username") && HasString(body, "email")
      && HasString(body, "password") && HasString(body, "otp")
      && Normal(body, "name", false) != "" && Normal(body, "username", true) != ""
      && Normal(body, "email", true) != "" && Normal(body, "password", false) != ""
      && Normal(body, "otp", false) != ""
    ensures r.Success? ==>
      r.value == RegistrationInput(Normal(body, "name", false), Normal(body, "email", true),
        Normal(body, "password", false), Normal(body, "username", true), Normal(body, "otp", false))
    ensures r.Failure? && Trimmable(body, "name") && Trimmable(body, "username") && Trimmable(body, "email")
      && Trimmable(body, "password") && Trimmable(body, "otp")
      ==> r.error == RegisterFieldsRequired
  {
    FieldPresent(body, "name", false);
    FieldPresent(body, "username", true);
    FieldPresent(body, "email", true);
    FieldPresent(body, "password", false);
    FieldPresent(body, "otp", false);
    var name := FieldOf(body, "name", false);
    if name.Failure? then Failure(name.error) else
    var username := FieldOf(body, "username", true);
    if username.Failure? then Failure(username.error) else
    var email := FieldOf(body, "email", true);
    if email.Failure? then Failure(email.error) else
    var password := FieldOf(body, "password", false);
    if password.Failure? then Failure(password.error) else
    var otp := FieldOf(body, "otp", false);
    if otp.Failure? then Failure(otp.error)
    else if !Present(name.value) || !Present(email.value) || !Present(password.value)
         || !Present(username.value) || !Present(otp.value) then Failure(RegisterFieldsRequired)
    else Success(RegistrationInput(name.value.value, email.value.value, password.value.value,
                                   username.value.value, otp.value.value))
  }

  /** `loginUser`'s input step: the credential is trimmed and lower-cased, the password
      trimmed, and both must be non-empty. */
  function LoginInput(body: Json): (r: Result<(string, string), Err>)
    ensures r.Success? <==>
      && HasString(body, "credential") && HasString(body, "password")
      && Normal(body, "credential", true) != "" && Normal(body, "password", false) != ""
    ensures r.Success? ==> r.value == (Normal(body, "credential", true), Normal(body, "password", false))
    ensures r.Failure? && Trimmable(body, "credential") && Trimmable(body, "password")
      ==> r.error == LoginFieldsRequired
  {
    FieldPresent(body, "credential", true);
    FieldPresent(body, "password", false);
    var credential := FieldOf(body, "credential", true);
    if credential.Failure? then Failure(credential.error) else
    var password := FieldOf(body, "password", false);
    if password.Failure? then Failure(password.error)
    else if !Present(credential.value) || !Present(password.value) then Failure(LoginFieldsRequired)
    else Success((credential.value.value, password.value.value))
  }

  /** A normalised registration passes the schema setters unchanged, so the stored name,
      username and email are the ones the controller checked. */
  lemma RegisterInputIsSetterFixed(body: Json)
    requires RegisterInput(body).Success?
    ensures var d := RegisterInput(body).value;
      NameSetter(d.name) == d.name && UsernameSetter(d.username) == d.username && EmailSetter(d.email) == d.email
  {
    var d := RegisterInput(body).value;
    NormalizeFieldIdempotent("name", Get(body, "name"), false);
    NormalizeFieldIdempotent("username", Get(body, "username"), true);
    NormalizeFieldIdempotent("email", Get(body, "email"), true);
    SettersIdempotent(body.fields["email"].s);
    SettersIdempotent(body.fields["username"].s);
    TrimIdempotent(body.fields["name"].s);
    TrimToLowerCommute(body.fields["username"].s);
    TrimToLowerCommute(Trim(body.fields["username"].s));
    TrimIdempotent(ToLower(body.fields["username"].s));
  }

  /** The string-valued properties of what `register` and `login` return: only `token`. */
  function ServiceStrings(token: string): map<string, string> {
    map["token" := token]
  }

  function Lookup(m: map<string, string>, k: string): Option<string> {
    if k in m then Some(m[k]) else None
  }

  /** `res.cookie(name, value)` stores `String(value)`, so undefined becomes "undefined". */
  function CookieValue(v: Option<string>): string {
    if v.Some? then v.value else "undefined"
  }

  /** The reply of a successful register or login: the two cookies from the destructured
      `accessToken` and `refreshToken`, and `{ user, accessToken }` as JSON, where the user
      goes through `toJSON` and an undefined `accessToken` is dropped. */
  function SessionReply(status: int, message: string, u: UserRecord, returned: map<string, string>): Outcome {
    var access := Lookup(returned, AccessCookie);
    var refresh := Lookup(returned, RefreshCookie);
    var data := map["user" := JObj(PublicFields(AsObject(u)))]
      + (if access.Some? then map[AccessCookie := JStr(access.value)] else map[]);
    Respond(status, NewApiResponse(status, JObj(data), message),
      [SetCookie(AccessCookie, CookieValue(access), AccessTokenMaxAge),
       SetCookie(RefreshCookie, CookieValue(refresh), RefreshTokenMaxAge)])
  }

  /** The token the service issues never reaches the client: both cookies hold the text
      "undefined" with the 15-minute and 7-day lifetimes, and the JSON holds only the user,
      without password or token. */
  lemma IssuedTokenNeverSent(status: int, message: string, u: UserRecord, token: string)
    ensures var out := SessionReply(status, message, u, ServiceStrings(token));
      && out.Respond? && out.status == status && out.body.success == (200 <= status < 300)
      && out.cookies == [SetCookie(AccessCookie, "undefined", 900000), SetCookie(RefreshCookie, "undefined", 604800000)]
      && out.body.data == JObj(map["user" := JObj(PublicFields(AsObject(u)))])
      && "password" !in PublicFields(AsObject(u)) && "token" !in PublicFields(AsObject(u))
  {
    PublicUserHidesSecrets(u);
  }

  /** Builds the session reply, running the user's `toJSON` transform. */
  method Reply(status: int, message: string, u: UserRecord, returned: map<string, string>) returns (out: Outcome)
    ensures out == SessionReply(status, message, u, returned)
  {
    var user := ToJsonTransform(AsObject(u));
    var access := Lookup(returned, AccessCookie);
    var refresh := Lookup(returned, RefreshCookie);
    var extra: map<string, Json> := map[];
    if access.Some? {
      extra := map[AccessCookie := JStr(access.value)];
    }
    var data := map["user" := JObj(user)] + extra;
    out := Respond(status, NewApiResponse(status, JObj(data), message),
      [SetCookie(AccessCookie, CookieValue(access), AccessTokenMaxAge),
       SetCookie(RefreshCookie, CookieValue(refresh), RefreshTokenMaxAge)]);
  }

  /** `registerUser`. A refused input changes nothing; otherwise the collection changes as
      `register` says, and the reply is 201 only if `register` returned. */
  method RegisterUser(users: UserStore, body: Json, salt: string, secret: Option<string>, crypto: Crypto)
    returns (out: Outcome)
    requires users.Valid()
    modifies users
    ensures users.Valid()
    ensures RegisterInput(body).Failure? ==>
      out == Throw(RegisterInput(body).error) && users.State() == old(users.State())
    ensures RegisterInput(body).Success? ==>
      var (r, st) := RegisterSpec(old(users.State()), RegisterInput(body).value, salt, secret, crypto);
      && users.State() == st
      && (r.Failure? ==> out == Throw(r.error))
      && (r.Success? ==> out == SessionReply(201, RegisteredMessage, r.value.0, ServiceStrings(r.value.1)))
  {
    var input := RegisterInput(body);
    if input.Failure? {
      return Throw(input.error);
    }
    var r := users.Register(input.value, salt, secret, crypto);
    if r.Failure? {
      return Throw(r.error);
    }
    var (user, token) := r.value;
    out := Reply(201, RegisteredMessage, user, ServiceStrings(token));
  }

  /** `loginUser`. */
  method LoginUser(users: UserStore, body: Json, secret: Option<string>, crypto: Crypto) returns (out: Outcome)
    requires users.Valid()
    modifies users
    ensures users.Valid()
    ensures LoginInput(body).Failure? ==>
      out == Throw(LoginInput(body).error) && users.State() == old(users.State())
    ensures LoginInput(body).Success? ==>
      var (credential, password) := LoginInput(body).value;
      var (r, st) := LoginSpec(old(users.State()), credential, password, secret, crypto);
      && users.State() == st
      && (r.Failure? ==> out == Throw(r.error))
      && (r.Success? ==> out == SessionReply(200, LoggedInMessage, r.value.0, ServiceStrings(r.value.1)))
  {
    var input := LoginInput(body);
    if input.Failure? {
      return Throw(input.error);
    }
    var (credential, password) := input.value;
    var r := users.Login(credential, password, secret, crypto);
    if r.Failure? {
      return Throw(r.error);
    }
    var (user, token) := r.value;
    out := Reply(200, LoggedInMessage, user, ServiceStrings(token));
  }

  /** `req.user!._id` read as a user id: reading from an undefined `req.user` throws; the
      user the middleware attaches has only `id` and `email`, so `_id` is undefined. */
  function RequestUserId(reqUser: Option<AuthMiddleware.AuthUser>): Result<Option<nat>, Err> {
    if reqUser.None? then Failure(ReadOfUndefined("_id"))
    else Success(IdValue(UserProperty(reqUser.value, "_id")))
  }

  /** A property of the object `req.user`. */
  function UserProperty(u: AuthMiddleware.AuthUser, name: string): Option<Json> {
    if name == "id" then u.id else if name == "email" then u.email else None
  }

  /** The id `findById` looks up; anything but a non-negative number finds nothing. */
  function IdValue(v: Option<Json>): Option<nat> {
    if v.Some? && v.value.JNum? && v.value.n >= 0 then Some(v.value.n) else None
  }

  /** `logoutUser`. */
  method LogoutUser(users: UserStore, reqUser: Option<AuthMiddleware.AuthUser>, crypto: Crypto) returns (out: Outcome)
    requires users.Valid()
    modifies users
    ensures users.Valid()
    ensures RequestUserId(reqUser).Failure? ==>
      out == Throw(RequestUserId(reqUser).error) && users.State() == old(users.State())
    ensures RequestUserId(reqUser).Success? ==>
      var (r, st) := LogoutSpec(old(users.State()), RequestUserId(reqUser).value, crypto);
      && users.State() == st
      && (r.Failure? ==> out == Throw(r.error))
      && (r.Success? ==> out == Respond(200, NewApiResponse(200, JNull, LoggedOutMessage),
                                         [ClearCookie(AccessCookie), ClearCookie(RefreshCookie)]))
  {
    var id := RequestUserId(reqUser);
    if id.Failure? {
      return Throw(id.error);
    }
    var r := users.Logout(id.value, crypto);
    if r.Failure? {
      return Throw(r.error);
    }
    out := Respond(200, NewApiResponse(200, JNull, LoggedOutMessage), [ClearCookie(AccessCookie), ClearCookie(RefreshCookie)]);
  }

  /** `getCurrentUser`: reads the collection and changes nothing; the user is sent through
      `toJSON`. */
  method GetCurrentUser(users: UserStore, reqUser: Option<AuthMiddleware.AuthUser>) returns (out: Outcome)
    ensures RequestUserId(reqUser).Failure? ==> out == Throw(RequestUserId(reqUser).error)
    ensures RequestUserId(reqUser).Success? ==>
      var r := GetCurrentUserSpec(users.State(), RequestUserId(reqUser).value);
      && (r.Failure? ==> out == Throw(r.error))
      && (r.Success? ==> out == Respond(200, NewApiResponse(200, JObj(PublicFields(AsObject(r.value))), CurrentUserMessage), []))
  {
    var id := RequestUserId(reqUser);
    if id.Failure? {
      return Throw(id.error);
    }
    var r := users.GetCurrentUser(id.value);
    if r.Failure? {
      return Throw(r.error);
    }
    var json := ToJsonTransform(AsObject(r.value));
    out := Respond(200, NewApiResponse(200, JObj(json), CurrentUserMessage), []);
  }

  /** Behind the auth middleware, logout and the current-user query always answer
      'User not found' (a 500 from the error handler), and logout changes nothing. */
  lemma AuthenticatedUserIsNeverFound(st: UsersState, u: AuthMiddleware.AuthUser, crypto: Crypto, requestId: Option<string>, dev: bool)
    ensures RequestUserId(Some(u)) == Success(None)
    ensures LogoutSpec(st, RequestUserId(Some(u)).value, crypto) == (Failure(PlainError(UserNotFound)), st)
    ensures GetCurrentUserSpec(st, RequestUserId(Some(u)).value) == Failure(PlainError(UserNotFound))
    ensures ErrorHandler(PlainError(UserNotFound), requestId, dev).status == 500
  {
    PlainErrorIs500(UserNotFound, requestId, dev);
  }

  /** `refreshToken`. Without parsed cookies the read throws a TypeError; a missing or
      empty `refreshToken` cookie is refused with 401 before anything else; any other
      request calls the absent `userService.refreshAccessToken` and throws a TypeError. */
  function RefreshToken(cookies: Option<map<string, string>>): (out: Outcome)
    ensures out.Throw?
    ensures out == Throw(RefreshTokenMissing) <==>
      cookies.Some? && (RefreshCookie !in cookies.value || cookies.value[RefreshCookie] == "")
    ensures cookies.None? ==> out == Throw(ReadOfUndefined(RefreshCookie))
    ensures out != Throw(RefreshTokenMissing) && cookies.Some? ==>
      out == Throw(NotAFunction("userService.refreshAccessToken"))
  {
    if cookies.None? then Throw(ReadOfUndefined(RefreshCookie))
    else
      var token := Lookup(cookies.value, RefreshCookie);
      if !Present(token) then Throw(RefreshTokenMissing)
      else Throw(NotAFunction("userService.refreshAccessToken"))
  }

  /** `logoutAllDevices`: it reads `req.user!._id`, then calls the absent
      `userService.logoutAll`, so it always throws a TypeError. */
  function LogoutAllDevices(reqUser: Option<AuthMiddleware.AuthUser>): (out: Outcome)
    ensures out.Throw? && out.err.Thrown? && !out.err.isMongoose && out.err.rawStatusCode.None?
    ensures reqUser.Some? ==> out == Throw(NotAFunction("userService.logoutAll"))
  {
    match RequestUserId(reqUser)
    case Failure(e) => Throw(e)
    case Success(_) => Throw(NotAFunction("userService.logoutAll"))
  }

  /** A successful register or login never authenticates the client: the cookies it sets
      are `accessToken` and `refreshToken`, and the middleware reads only `token`. */
  lemma SessionCookiesDoNotAuthenticate(status: int, message: string, u: UserRecord, token: string,
                                        jar: map<string, string>, secret: Option<string>,
                                        verify: (string, string) -> Option<Json>)
    requires AuthMiddleware.TokenCookie !in jar
    ensures var out := SessionReply(status, message, u, ServiceStrings(token));
      var jar' := Apply(jar, out.cookies);
      AuthMiddleware.Authenticate(Some(jar'), secret, verify) == AuthMiddleware.Reject(401, AuthMiddleware.MessageBody(AuthMiddleware.TokenMissing))
  {
    var out := SessionReply(status, message, u, ServiceStrings(token));
    ApplyKeepsOtherCookies(jar, out.cookies, AuthMiddleware.TokenCookie);
  }

  /** The cookie jar of a client after it applied the reply's cookie operations. */
  function Apply(jar: map<string, string>, ops: seq<CookieOp>): map<string, string>
    decreases |ops|
  {
    if ops == [] then jar
    else
      var jar1 := match ops[0]
        case SetCookie(name, value, _) => jar[name := value]
        case ClearCookie(name) => jar - {name};
      Apply(jar1, ops[1..])
  }

  /** Applying cookie operations leaves a cookie none of them names as it was. */
  lemma {:induction false} ApplyKeepsOtherCookies(jar: map<string, string>, ops: seq<CookieOp>, name: string)
    requires forall i :: 0 <= i < |ops| ==> ops[i].name != name
    ensures (name in Apply(jar, ops)) == (name in jar)
    ensures name in jar ==> Apply(jar, ops)[name] == jar[name]
    decreases |ops|
  {
    if ops != [] {
      var jar1 := match ops[0]
        case SetCookie(n, value, _) => jar[n := value]
        case ClearCookie(n) => jar - {n};
      ApplyKeepsOtherCookies(jar1, ops[1..], name);
    }
  }
}
