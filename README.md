# Fugal Labs backend core, modelled in Dafny

This project models the checkable core of the Fugal Labs backend, an Express/TypeScript
service. The core covers:

- **OTP engine** (`otp.service.ts`). It issues and verifies one-time codes over Redis with
  three separately expiring keys per email: a 60 s resend cooldown, a 15-minute resend
  counter and a 5-minute verify-attempts counter.
- **Per-IP rate limiter** (`ipRateLimitter.ts`). It guards the OTP routes with a 60 s fixed
  window of 15 requests.
- **Account service** (`users.service.ts`, `users.model.ts`), over a Mongo collection with
  unique usernames and emails:
  - register, login by email or username, logout and the current-user query;
  - the password rehash hook, token issuing and the `toJSON` projection.
- **Problem CRUD keyed by slug** (`problem.service.ts`). Two controller variants sit on it:
  - the older `problem.controllers.ts` uses `safeParse` and formats issues itself;
  - the newer `problem.controller.ts` throws zod errors to the error middleware.
- **zod schemas** of both validation files, with a small interpreter for the zod features
  they use: object, string length, enum, array, min length, optional, any and `.partial()`.
- **Input normalisation** in the user and OTP controllers.
- **Response and error shaping**: `ApiResponse`, the error middleware's normaliser, the
  auth middleware's ordered decision and the OTP email template.

## How the model is built

- **Redis.** `KvStore.Store` is a class holding a map from key to value and expiry time,
  plus a logical clock in seconds. A key whose expiry time has been reached is absent, as
  Redis's lazy expiry makes it.
- **Mongo collections.** `UsersService.UserStore` and `ProblemService.ProblemStore` are
  classes holding a sequence of records in insertion order, so `findOne` returns the first
  match. Their unique indexes refuse a duplicate with an E11000 error.
- **Specification functions.** Every operation that changes state is a method. Its
  `ensures` ties its result and the new state to a pure specification function of the old
  state, such as `GenerateSpec`, `VerifySpec`, `LimitSpec`, `RegisterSpec` or
  `CreateProblemSpec`. The properties of the source are lemmas about those functions.
- **Foreign libraries.** They become parameters:
  - `crypto.randomInt` is a nondeterministic choice inside its range;
  - bcrypt's hash and compare, and jwt's sign, are function-typed parameters with a
    caller-supplied salt;
  - the mail provider's failure is a parameter;
  - the presence of `JWT_SECRET` is an `Option<string>` parameter.
- **Creation time.** The creation time of a problem is a parameter of the insert.

The model follows the code as written, including where its parts disagree with one
another:

- `register` receives the otp but never checks it (`UsersService.RegisterIgnoresOtp`).
- The user controller destructures `{ user, accessToken, refreshToken }`, but the service
  returns `{ user, token }`. Both cookies therefore hold the text "undefined", and no token
  reaches the client (`UsersController.IssuedTokenNeverSent`).
- `userService.refreshAccessToken` and `userService.logoutAll` do not exist. Past its
  cookie check, `refreshToken` throws a TypeError, and `logoutAllDevices` always does.
  Once the error handler is wired as one (see "Left out"), it answers both with a 500.
- The auth middleware reads the `token` cookie, which no handler sets. A register or login
  therefore never authenticates its client (`UsersController.SessionCookiesDoNotAuthenticate`).
- The auth middleware attaches `{ id, email }`, while logout and get-current-user read
  `req.user._id`, which is undefined. Behind the middleware both always answer
  'User not found' (`UsersController.AuthenticatedUserIsNeverFound`).
- `randomInt(100000, 999999)` has an exclusive upper bound. Codes are therefore
  100000–999998, six digits with no leading zero (`OtpService.OtpCodeShape`).
- The rate limiter and the OTP engine increment their counters before they reject, so a
  refused request still counts (`OtpService.ResendCountedEvenWhenRefused`,
  `IpRateLimiter.CountsEveryRequest`).

## Model

| member | source | states |
|---|---|---|
| ApiResponses.NewApiResponse | src/utils/api-response.ts:7-16 | the status, data and message are stored as passed, and `success` is true exactly when 200 ≤ status < 300 |
| ApiResponses.DefaultMessageAndSuccess | src/utils/api-response.ts:10-15 | a response built without a message carries 'Success', and its `success` is true exactly when 200 ≤ status < 300 |
| ErrorMiddleware.Normalize | src/middlewares/error.middleware.ts:18-26 | an ApiError passes through unchanged; any other error keeps a truthy status code or else gets 400 (mongoose) or 500, keeps a non-empty message or else gets 'Something went wrong', and keeps its errors or gets none |
| ErrorMiddleware.ErrorHandler | src/middlewares/error.middleware.ts:48-55 | the HTTP status equals the body's `statusCode`, `success` is false, `errors` defaults to `[]`, the request id is echoed, and `stack` (holding the message) appears only in development |
| ErrorMiddleware.NormalizeIdempotentAndTotal | src/middlewares/error.middleware.ts:18-26 | normalising twice changes nothing more; a non-ApiError always ends with a non-zero status and a non-empty message |
| ErrorMiddleware.PlainErrorIs500 | src/middlewares/error.middleware.ts:21-23 | a plain `Error(m)` with a non-empty `m` is answered 500 with message `m` |
| AuthMiddleware.Authenticate | src/middlewares/auth.middleware.ts:14-37 | the checks in source order: unreadable cookies give 401 'Invalid authentication token'; a missing token gives 401 'Authentication token missing'; a missing secret gives 500; a failed verification gives 401; success gives the user `{ id: _id, email }` |
| AuthMiddleware.RejectionsAreUnauthorizedOrConfig | src/middlewares/auth.middleware.ts:16-36 | every rejection is a 401 or a 500 whose body holds only a message, and a verification failure is answered like unreadable cookies |
| AuthMiddleware.TokenCheckedBeforeSecret | src/middlewares/auth.middleware.ts:16-24 | without a token the reply is the 401, whatever the secret configuration |
| AuthMiddleware.Request.constructor | src/middlewares/auth.middleware.ts:5-12 | a request starts with its cookies and no `user` |
| AuthMiddleware.Run | src/middlewares/auth.middleware.ts:14-37 | `next` is called once exactly when the decision accepts, and only then is `req.user` set; a rejected request keeps its `user` |
| OtpTemplate.OtpTemplate | src/emails/otpTemplate.ts:1-18 | both the text and the html body contain the code, placed right after a fixed prefix |
| OtpTemplate.TemplateRoundTrip | src/emails/otpTemplate.ts:3 | the code can be read back out of the text body |
| OtpTemplate.TemplateInjective | src/emails/otpTemplate.ts:1-18 | equal emails mean equal codes, and the content depends on the code alone |
| KvStore.GetSpec | src/services/otp.service.ts:68 | GET yields a value exactly when the key is live, and a stored string is returned as stored |
| KvStore.IncrSpec | src/middlewares/ipRateLimitter.ts:12 | INCR adds one to a counter, starting from 0 when the key is absent or expired; it keeps the key's TTL (none for a new key), fails on a string value and touches no other key |
| KvStore.ExpireSpec | src/services/otp.service.ts:40 | EXPIRE gives a live key an expiry `secs` from now, leaves an absent key absent and changes no other key |
| KvStore.SetExSpec | src/services/otp.service.ts:47-48 | SET … EX stores the string with an expiry `secs` from now, whatever was there, and changes no other key |
| KvStore.DelSpec | src/services/otp.service.ts:87-88 | DEL removes the key and nothing else |
| KvStore.AdvanceSpec | src/services/otp.service.ts:7-9 | the passage of time moves the clock and keeps the data |
| KvStore.ExpiredAfter | src/services/otp.service.ts:7-9 | a key with a TTL is absent once its expiry time is reached, and its counter reads 0 |
| KvStore.Store.constructor | src/lib/redis.ts:4-8 | a connection starts empty, with the clock at 0 |
| KvStore.Store.Exists | src/services/otp.service.ts:34 | EXISTS is true exactly for a live key and changes nothing |
| KvStore.Store.Get | src/services/otp.service.ts:68 | GET returns `GetSpec` and changes nothing |
| KvStore.Store.Incr | src/services/otp.service.ts:38 | the store and the result change as `IncrSpec` says |
| KvStore.Store.Expire | src/services/otp.service.ts:40 | the store changes as `ExpireSpec` says |
| KvStore.Store.SetEx | src/services/otp.service.ts:47-48 | the store changes as `SetExSpec` says |
| KvStore.Store.Del | src/services/otp.service.ts:87-88 | the store changes as `DelSpec` says |
| KvStore.Store.Advance | src/services/otp.service.ts:7-9 | only the clock moves |
| OtpService.PrefixedInjective | src/services/otp.service.ts:12-26 | a key prefix followed by an email determines the email |
| OtpService.KeyBuildersDistinct | src/services/otp.service.ts:12-26 | the four key builders never collide with one another, and each one is injective |
| OtpService.RandomInt | src/services/otp.service.ts:45 | the drawn number lies in [low, high) |
| OtpService.GenerateOtp | src/services/otp.service.ts:29-51 | the result and the new store are `GenerateSpec` of the old store and the drawn number, which lies in [100000, 999999) |
| OtpService.SendOtpEmail | src/services/otp.service.ts:53-62 | the mail is sent only after a code was issued, and its content is the template of that code; a send failure is reported with nothing rolled back |
| OtpService.VerifyOtp | src/services/otp.service.ts:64-89 | the result and the new store are `VerifySpec` of the old store |
| OtpService.CooldownRefuses | src/services/otp.service.ts:34-36 | while the cooldown key exists, the request fails with 429 and no key changes |
| OtpService.ResendCountedEvenWhenRefused | src/services/otp.service.ts:38-43 | past the cooldown, the resend counter goes up by one even when the request is then refused; its 900 s expiry is set only when the count becomes 1 |
| OtpService.ResendLimitRefuses | src/services/otp.service.ts:41-43 | with the counter already at 5, the request fails with 429, and neither the code nor the cooldown key is written |
| OtpService.IssueOutcome | src/services/otp.service.ts:38-50 | a request within the limit stores the decimal code for 300 s and the cooldown flag for 60 s, returns the code, and an immediate second request is refused |
| OtpService.OtpCodeShape | src/services/otp.service.ts:45 | every possible code is six digits with no leading zero, and 999999 is never issued |
| OtpService.GenerateFrame | src/services/otp.service.ts:24-51 | issuing a code never touches the verify-attempts key or any other email's keys |
| OtpService.CountersStayCounters | src/services/otp.service.ts:38-73 | the counter keys keep holding counters under both operations |
| OtpService.VerifyWithoutCode | src/services/otp.service.ts:68-71 | with no stored code, verification fails with 400 and changes nothing, not even the attempts counter |
| OtpService.VerifyCountsAttempt | src/services/otp.service.ts:73-76 | against a stored code, every attempt increments the attempts counter before the comparison, and the 300 s expiry is set on the first attempt |
| OtpService.VerifyLimitRefusesEvenCorrect | src/services/otp.service.ts:76-81 | after five attempts the next one fails with 429 even if it is right, and the code stays |
| OtpService.VerifyWithinBudget | src/services/otp.service.ts:83-88 | within the budget, a wrong code fails with 400 and keeps the code; the right code succeeds and deletes both the code and the attempts key, so it cannot verify twice |
| OtpService.VerifyFrame | src/services/otp.service.ts:64-89 | verification writes only the email's code and attempts keys |
| OtpService.ExpiredCodeRejected | src/services/otp.service.ts:7-71 | a code verified 300 s or more after it was issued is reported as expired |
| OtpService.WrongGuessesSpendBudget | src/services/otp.service.ts:73-85 | successive wrong guesses within the budget each fail with 400, keep the code and use up one attempt apiece |
| OtpService.SixthGuessRefused | src/services/otp.service.ts:10-81 | five wrong guesses lock a fresh code: the sixth attempt is refused with 429 even when it is right |
| OtpService.RequestsOneMinuteApart | src/services/otp.service.ts:8-48 | requests a minute apart each pass the cooldown; up to five succeed, and the counter still expires 900 s after the first |
| OtpService.SixthResendInWindowRefused | src/services/otp.service.ts:41-43 | the sixth request a minute apart, still inside the window, is refused by the resend limit and not by the cooldown |
| OtpService.ResendAfterWindow | src/services/otp.service.ts:9-40 | once the window has expired, a request succeeds again whatever the old count was |
| OtpService.TemplateValidityMatchesExpiry | src/services/otp.service.ts:7 | the email announces the same 5 minutes the code is stored for |
| IpRateLimiter.Limit | src/middlewares/ipRateLimitter.ts:8-25 | the decision and the new store are `LimitSpec` of the old store |
| IpRateLimiter.CountsEveryRequest | src/middlewares/ipRateLimitter.ts:12-16 | every request, rejected or not, adds exactly one to its IP's counter, and the 60 s expiry is set only by the increment that makes the count 1 |
| IpRateLimiter.RejectIffOverLimit | src/middlewares/ipRateLimitter.ts:18-24 | the request is answered 429 (with `success` false and the fixed message) exactly when the new count exceeds 15, and forwarded otherwise |
| IpRateLimiter.PerIpIsolation | src/middlewares/ipRateLimitter.ts:10 | a request changes no key but its own IP's counter, and distinct IPs have distinct counters |
| IpRateLimiter.RequestsInWindow | src/middlewares/ipRateLimitter.ts:12-24 | inside an open window, the i-th further request passes exactly when the count it brings the counter to is at most 15, and the window's expiry does not move |
| IpRateLimiter.FirstFifteenPass | src/middlewares/ipRateLimitter.ts:5-24 | from an IP with no open window, of requests made within 60 s of the first, the first 15 pass and every later one gets 429 |
| IpRateLimiter.NewWindowAfterExpiry | src/middlewares/ipRateLimitter.ts:12-16 | after the key expires, the next request restarts the count at 1, passes, and opens a new 60 s window |
| Strings.TrimStartShape | src/controller/users.controller.ts:26-30 | the leading part `trimStart` drops is all whitespace, the result is the rest of the input, and it does not start with whitespace |
| Strings.TrimEndShape | src/controller/users.controller.ts:26-30 | the trailing part `trimEnd` drops is all whitespace, the result is the rest of the input, and it does not end with whitespace |
| Strings.TrimShape | src/controller/users.controller.ts:26-30 | `trim` removes exactly a whitespace prefix and a whitespace suffix, and what it keeps neither starts nor ends with whitespace |
| Strings.TrimIdempotent | src/controller/users.controller.ts:26-30 | trimming twice is trimming once |
| Strings.ToLower | src/controller/users.controller.ts:27-28 | lower-casing keeps the length and changes each character only by lower-casing it |
| Strings.ToLowerIdempotent | src/controller/users.controller.ts:27-28 | lower-casing twice is lower-casing once |
| Strings.TrimToLowerCommute | src/controller/users.controller.ts:27-28 | lower-casing and trimming commute, so the controller's `trim().toLowerCase()` agrees with the schema setters' lower-case-then-trim |
| Strings.NatToString | src/services/otp.service.ts:45 | `toString` of a natural number is a non-empty string of decimal digits that starts with 0 only for 0 |
| Strings.ParseNatToString | src/services/otp.service.ts:45 | reading the digits back gives the number |
| Strings.NatToStringInjective | src/services/otp.service.ts:45 | distinct numbers have distinct decimal forms |
| Strings.NatToStringLength | src/services/otp.service.ts:45 | a number in [10^(k-1), 10^k) has exactly k digits |
| RequestInput.FieldOfFailsIff | src/controller/otp.controller.ts:11-29 | `v?.trim()` throws a TypeError naming the `trim` call exactly when the property is present, not null and not a string, and it yields a string exactly when the body holds a string there |
| RequestInput.NormalizeFieldIdempotent | src/controller/otp.controller.ts:11-29 | normalising an already normalised string changes nothing |
| RequestInput.TrimmedNormalFixed | src/controller/otp.controller.ts:28-29 | a string field is normalised to its trimmed form, which the normaliser leaves unchanged and which neither starts nor ends with whitespace |
| RequestInput.LoweredNormalFixed | src/controller/otp.controller.ts:11-28 | an email field is normalised to its trimmed lower-case form, which the normaliser leaves unchanged and which neither starts nor ends with whitespace |
| RequestInput.BlankIsMissing | src/controller/otp.controller.ts:13-33 | a string made only of whitespace normalises to the empty string, which counts as missing |
| OtpController.SendOtpInput | src/controller/otp.controller.ts:8-15 | the email is trimmed and lower-cased; a missing or empty email gives 400, and an email that is not a string throws |
| OtpController.VerifyOtpInput | src/controller/otp.controller.ts:25-33 | the email is normalised as for send and the otp is trimmed; either missing or empty gives 400 |
| OtpController.SendAndVerifyNormaliseAlike | src/controller/otp.controller.ts:11-28 | the same email in a send and in a verify request names the same stored code |
| OtpController.SendOtp | src/controller/otp.controller.ts:7-22 | a refused input calls no service and changes nothing; otherwise the store changes as `generateOtp` says, a refused generation is rethrown unchanged with no mail sent, an issued code is mailed to the normalised email with the template of that code, a send failure is rethrown unchanged, and the reply is 200 exactly when the code was issued and mailed |
| OtpController.VerifyOtp | src/controller/otp.controller.ts:24-38 | a refused input changes nothing; otherwise the store and the outcome are the service's `verifyOtp`, with 200 only on success |
| UserModel.SettersIdempotent | src/models/users.model.ts:18-31 | the schema setters (trim, lower-case and trim) applied to their own result change nothing |
| UserModel.MissingRequired | src/models/users.model.ts:15-36 | no path is reported exactly when name, username, email and password are all non-empty, and only those four paths are ever reported |
| UserModel.Rehashed | src/models/users.model.ts:49-57 | a modified password is replaced by its hash with a fresh salt and nothing else changes; an unmodified one is left as it is |
| UserModel.PublicFields | src/models/users.model.ts:74-81 | exactly the fields other than `password`, `token` and `__v` are kept, each unchanged |
| UserModel.ToJsonTransform | src/models/users.model.ts:75-79 | the in-place deletions leave exactly `PublicFields` of the object |
| UserModel.AsObject | src/models/users.model.ts:13-47 | the plain object of a stored user holds its `_id`, email and password, and a token exactly when the user has one |
| UserModel.PublicUserHidesSecrets | src/models/users.model.ts:74-81 | the JSON of a user carries its id, name, username and email (and avatar if any), and never its password hash or token |
| UserModel.UserDocument.constructor | src/models/users.model.ts:13-47 | a new document holds the given fields, no token and no avatar, with its password counted as modified |
| UserModel.UserDocument.Load | src/models/users.model.ts:13-47 | a document read from the collection holds the record, with nothing modified |
| UserModel.UserDocument.PreSave | src/models/users.model.ts:49-57 | the record becomes `Rehashed` of the old one |
| UserModel.UserDocument.MarkSaved | src/models/users.model.ts:49-50 | after a save no path counts as modified |
| UserModel.UserDocument.GenerateAuthToken | src/models/users.model.ts:59-68 | without a secret it throws and leaves the token unchanged; otherwise it signs `{ _id, email }` for 7 days, sets the token to exactly that value and returns it |
| UserModel.UserDocument.IsPasswordCorrect | src/models/users.model.ts:70-72 | exactly bcrypt's comparison of the plain password with the stored hash, reading the document only |
| UsersService.FirstMatch | src/services/users.service.ts:8-25 | `findOne` gives the index of the first matching record, and none exactly when no record matches |
| UsersService.GetCurrentUserSpec | src/services/users.service.ts:52-59 | the stored record with that id, or 'User not found' when there is none |
| UsersService.FindByIdUnique | src/services/users.service.ts:42-53 | in a valid collection, `findById` finds the one record with that id |
| UsersService.ConflictFreeIff | src/models/users.model.ts:23-29 | the unique indexes accept a record exactly when every other record differs from it in both username and email |
| UsersService.SaveAppends | src/services/users.service.ts:13-14 | saving a valid document whose id, username and email are all new appends it |
| UsersService.SaveReplaces | src/services/users.service.ts:36-48 | saving a stored record again, with its keys unchanged and no password change, replaces it in place |
| UsersService.SavePreservesValid | src/services/users.service.ts:14-17 | a successful save keeps ids below the counter and distinct, and usernames and emails unique |
| UsersService.IssueTokenToStored | src/services/users.service.ts:16-36 | issuing a token to a stored user replaces only that user's token and returns the same token |
| UsersService.IssueTokenPreservesValid | src/services/users.service.ts:16-17 | issuing and saving a token keeps the collection valid |
| UsersService.CreateUserPreservesValid | src/services/users.service.ts:13-17 | creating the new user keeps the collection valid |
| UsersService.RegisterPreservesValid | src/services/users.service.ts:5-20 | `register` keeps the collection valid |
| UsersService.LoginPreservesValid | src/services/users.service.ts:22-39 | `login` keeps the collection valid |
| UsersService.LogoutPreservesValid | src/services/users.service.ts:41-50 | `logout` keeps the collection valid |
| UsersService.RegisterExistingEmail | src/services/users.service.ts:8-12 | an email already in use is refused with 'User with this email already exists', and nothing changes, not even the id counter |
| UsersService.RegisterFreeEmail | src/services/users.service.ts:13-19 | past a free email, `register` is the creation of the new document under the next id |
| UsersService.CreateUserOutcome | src/services/users.service.ts:13-19 | the first save appends the new record without a token; the token save then sets it |
| UsersService.CreateUserUsernameTaken | src/models/users.model.ts:20-25 | a username already stored makes the first save fail with a duplicate-key error and leaves the collection as it was |
| UsersService.CreateUserFreeUsername | src/services/users.service.ts:13-17 | with a new id, email and username, creation succeeds exactly when the hash is non-empty and a secret is configured; then the hashed record with its 7-day token is appended |
| UsersService.RegisterSuccess | src/services/users.service.ts:13-19 | a successful `register` adds exactly one user, with the given email and the setters applied, and the returned token is the one stored on that user: the 7-day token over its id and email |
| UsersService.RegisterWithoutSecretKeepsUser | src/models/users.model.ts:60-62 | without a JWT secret, a registration past the first save fails, but the user stays stored without a token |
| UsersService.RegisterDuplicateUsername | src/models/users.model.ts:23 | a taken username fails at the first save with the duplicate-key error; only the id counter moves |
| UsersService.RegisterIgnoresOtp | src/services/users.service.ts:5-20 | the otp plays no part in registration |
| UsersService.LoginFailuresIndistinguishable | src/services/users.service.ts:26-34 | an unknown credential and a wrong password fail with the same 'Invalid email or password' and change nothing |
| UsersService.LoginSuccess | src/services/users.service.ts:35-38 | a successful login returns the first matching user; the token it returns replaces that user's stored token, and nothing else changes |
| UsersService.LogoutClearsOnlyToken | src/services/users.service.ts:41-50 | logging out an unknown or undefined id fails with 'User not found' and changes nothing; otherwise only the token is cleared |
| UsersService.RegisterThenLogin | src/services/users.service.ts:5-39 | after a registration, logging in with that email and the same password finds the new user, provided bcrypt accepts a password against its own hash and no stored username equals that email |
| UsersService.FindsAppended | src/services/users.service.ts:23-25 | a record appended after records that do not match is the one `findOne` finds |
| UsersService.LoginAt | src/services/users.service.ts:30-38 | the found user with the right password and a configured secret logs in |
| UsersService.UserStore.constructor | src/services/users.service.ts:2 | the collection starts empty |
| UsersService.UserStore.Save | src/services/users.service.ts:14 | the collection and the document change as `SaveSpec` says |
| UsersService.UserStore.SaveToken | src/services/users.service.ts:16-17 | the collection changes as `IssueToken` says |
| UsersService.UserStore.Register | src/services/users.service.ts:5-20 | the result and the new collection are `RegisterSpec` of the old one |
| UsersService.UserStore.Login | src/services/users.service.ts:22-39 | the result and the new collection are `LoginSpec` of the old one |
| UsersService.UserStore.Logout | src/services/users.service.ts:41-50 | the result and the new collection are `LogoutSpec` of the old one |
| UsersService.UserStore.GetCurrentUser | src/services/users.service.ts:52-59 | returns `GetCurrentUserSpec` and changes nothing |
| UsersController.FieldPresent | src/controller/users.controller.ts:26-34 | a normalised field passes the required check exactly when the body holds a string whose normal form is non-empty, and then it is that normal form |
| UsersController.RegisterInput | src/controller/users.controller.ts:23-34 | name trimmed, username and email trimmed then lower-cased, password and otp trimmed; any empty one gives 400, and a non-string throws |
| UsersController.LoginInput | src/controller/users.controller.ts:52-60 | the credential is trimmed and lower-cased and the password trimmed; either empty gives 400 before any lookup |
| UsersController.RegisterInputIsSetterFixed | src/controller/users.controller.ts:26-30 | a normalised registration passes the schema setters unchanged |
| UsersController.IssuedTokenNeverSent | src/controller/users.controller.ts:12-48 | both cookies hold "undefined" with the 900000 ms and 604800000 ms lifetimes, and the JSON holds only the user, without password or token |
| UsersController.Reply | src/controller/users.controller.ts:45-48 | builds the session reply, running `toJSON` on the user |
| UsersController.RegisterUser | src/controller/users.controller.ts:22-49 | a refused input changes nothing; otherwise the collection changes as `register` says, and the reply is 201 only if `register` returned |
| UsersController.LoginUser | src/controller/users.controller.ts:51-69 | a refused input changes nothing; otherwise the collection changes as `login` says, and the reply is 200 only if `login` returned |
| UsersController.LogoutUser | src/controller/users.controller.ts:71-80 | the collection changes as `logout` says for the id read from `req.user`, and the reply clears both cookies only on success |
| UsersController.GetCurrentUser | src/controller/users.controller.ts:82-86 | changes nothing and replies 200 with the user's `toJSON` only when the service finds it |
| UsersController.AuthenticatedUserIsNeverFound | src/controller/users.controller.ts:72-83 | behind the auth middleware, logout and the current-user query always answer 'User not found' (a 500), and logout changes nothing |
| UsersController.RefreshToken | src/controller/users.controller.ts:88-102 | a missing or empty refresh cookie gives 401 before any service call; any other request throws a TypeError |
| UsersController.LogoutAllDevices | src/controller/users.controller.ts:104-113 | always throws a TypeError, which is not an ApiError and has no status |
| UsersController.SessionCookiesDoNotAuthenticate | src/controller/users.controller.ts:45-46 | after a successful register or login, the client's cookies still give the auth middleware's 'Authentication token missing' |
| UsersController.ApplyKeepsOtherCookies | src/controller/users.controller.ts:45-46 | applying cookie operations leaves a cookie none of them names as it was |
| Json.Pick | src/controller/problem.controllers.ts:102-107 | the object literal holds exactly the listed keys whose value is defined, each with that value |
| Zod.Quoted | src/validations/problem.validation.ts:16 | one quoted text per enum option |
| Zod.CheckEmptyIffAccepts | src/controller/problem.controllers.ts:38-40 | `safeParse` reports no issue exactly when the schema accepts the value |
| Zod.CheckItemsEmpty | src/validations/problem.validation.ts:9 | the elements report no issue exactly when every element is accepted |
| Zod.CheckFieldsEmpty | src/validations/problem.validation.ts:13-26 | the entries report no issue exactly when every entry is accepted |
| Zod.IssuesUnderPath | src/controller/problem.controllers.ts:42-45 | every issue is reported under the path of the value checked, or deeper |
| Zod.ItemIssuesUnderPath | src/validations/problem.validation.ts:9 | element issues lie under the array's path |
| Zod.FieldIssuesUnderPath | src/validations/problem.validation.ts:13-26 | entry issues lie under the object's path |
| Zod.OutputPresent | src/controller/problem.controller.ts:13 | parsing a present value gives a present value |
| Zod.OutputFieldsShape | src/controller/problem.controller.ts:13 | a parsed object has exactly the shape's keys that the input has, each holding its parsed value |
| Zod.OutputNone | src/controller/problem.controller.ts:13 | parsing nothing gives nothing |
| Zod.OutputItemsAt | src/controller/problem.controller.ts:13 | a parsed array has the input's length, and each element is the parse of the input's element |
| Zod.ScalarItemsUnchanged | src/validations/problem.validation.ts:19 | parsing an array of strings (such as the tags) gives back the same elements |
| Zod.ParsedEntry | src/controller/problem.controllers.ts:59-67 | an entry of a parsed object is the entry's own parse of the input's value |
| Zod.OutputAccepted | src/controller/problem.controller.ts:13 | what `parse` returns still satisfies the schema |
| Zod.Partial | src/validations/problem.validator.ts:29 | every entry of the object becomes optional, with keys and inner schemas unchanged |
| Zod.OptionalFields | src/validations/problem.validator.ts:29 | same keys, in order, each entry optional |
| Zod.PartialWeakens | src/validations/problem.validator.ts:29 | the partial schema accepts whatever the full one accepts, and any object missing some or all entries |
| Zod.FormatIssues | src/controller/problem.controllers.ts:42-45 | one text per issue, in order, each the path joined by "." followed by ": " and the message |
| ProblemValidation.TemplateFileAccepts | src/validations/problem.validation.ts:4-6 | a template file is valid exactly when its content is a string of length at least 1 |
| ProblemValidation.LanguageTemplateAccepts | src/validations/problem.validation.ts:8-10 | a language template is valid exactly when it has at least one file and every file is valid |
| ProblemValidation.TemplatesAccepts | src/validations/problem.validation.ts:20-25 | the templates object is required, may leave out any language, and checks every language it gives |
| ProblemValidation.TagsAccepts | src/validations/problem.validation.ts:19 | tags may be left out; when given, they must be a list of strings |
| ProblemValidation.CreateProblemAccepts | src/validations/problem.validation.ts:13-26 | non-empty title, slug, description and constraints; difficulty easy, medium or hard; optional tags; the required templates |
| ProblemValidation.SchemasWellFormed | src/validations/problem.validation.ts:4-26 | every object schema names each key once |
| ProblemValidation.CreateProblemKeysDistinct | src/validations/problem.validation.ts:13-26 | the problem schema's seven keys are distinct |
| ProblemValidation.TemplatesWellFormed | src/validations/problem.validation.ts:4-25 | the template schemas name each key once |
| ProblemValidator.SlugParamAccepts | src/validations/problem.validator.ts:3-5 | the parameters are accepted exactly when `slug` is a string of length at least 1 |
| ProblemValidator.ExampleAccepts | src/validations/problem.validator.ts:7-11 | an example needs a non-empty input and output; the explanation is an optional string |
| ProblemValidator.AnyTemplatesAccepts | src/validations/problem.validator.ts:21-26 | the templates object is required, but each language takes any value or none |
| ProblemValidator.CreateProblemAccepts | src/validations/problem.validator.ts:13-27 | non-empty title, slug, description and constraints; difficulty easy, medium or hard; optional examples and tags; the required templates |
| ProblemValidator.ExamplesAccepts | src/validations/problem.validator.ts:18 | examples may be left out; when given, every element must be a valid example |
| ProblemValidator.UpdateAcceptsCreateAndEmpty | src/validations/problem.validator.ts:29 | the update schema accepts every problem the create schema accepts, and the empty object |
| ProblemValidator.UpdateChecksPresentFields | src/validations/problem.validator.ts:29 | any field given to the update schema must be as the create schema wants it |
| ProblemValidator.CreateProblemKeys | src/validations/problem.validator.ts:13-27 | the problem schema's eight keys, in order, none of them `status` or a counter |
| ProblemValidator.SchemasWellFormed | src/validations/problem.validator.ts:3-29 | every object schema, the partial one included, names each key once |
| ProblemService.ProblemJson | src/services/problem.service.ts:13 | a record renders as its fields plus its `_id` |
| ProblemService.ProblemsJson | src/services/problem.service.ts:17 | the records rendered one by one, in order |
| ProblemService.FindBySlug | src/services/problem.service.ts:7-21 | the first record the filter `{ slug }` matches, and none exactly when it matches no record; an undefined slug drops out of the filter, so it finds the first record of a non-empty collection, and `null` matches a missing or null slug |
| ProblemService.FindBySlugUnique | src/services/problem.service.ts:21 | in a valid collection, looking up a record's non-null slug finds that record |
| ProblemService.InsertByCreatedPerm | src/services/problem.service.ts:17 | inserting a record keeps every record, each as often as before |
| ProblemService.InsertByCreatedSorted | src/services/problem.service.ts:17 | inserting into a newest-first list keeps it newest first |
| ProblemService.SortByCreatedDescSpec | src/services/problem.service.ts:16-18 | the listing holds every record as often as stored, newest first |
| ProblemService.CreateDuplicateSlug | src/services/problem.service.ts:7-10 | a stored slug is refused with 409 'Problem with this slug already exists', and nothing changes |
| ProblemService.CreateFreshSlug | src/services/problem.service.ts:7-13 | a slug the lookup matches in no record adds exactly one record, holding the data, after the unchanged others |
| ProblemService.CreateWithoutSlugRefused | src/services/problem.service.ts:7-10 | data without a slug is refused with 409 by any non-empty collection, because `findOne({ slug: undefined })` finds its first record; nothing changes |
| ProblemService.FreshSlugUnmatched | src/services/problem.service.ts:7-12 | a non-null slug that no record holds is neither found by the lookup nor refused by the unique index |
| ProblemService.CreatePreservesValid | src/services/problem.service.ts:6-14 | creation keeps ids distinct and slugs unique |
| ProblemService.GetBySlugFinds | src/services/problem.service.ts:20-26 | the stored record with that slug is returned, and 404 exactly when none has it |
| ProblemService.UpdateAbsent | src/services/problem.service.ts:38-40 | updating an absent slug fails with 404 and changes nothing |
| ProblemService.UpdatePresent | src/services/problem.service.ts:32-42 | a present slug returns the record with the given fields overridden, stored in place; a slug clash with another record is refused with nothing changed |
| ProblemService.UpdatePreservesValid | src/services/problem.service.ts:28-43 | updating keeps ids distinct and slugs unique |
| ProblemService.DeleteRemovesOnlySlug | src/services/problem.service.ts:45-50 | an absent slug fails with 404 and changes nothing; a present one succeeds and the new collection is the old one with exactly that record cut out, the others in their order |
| ProblemService.DeletePreservesValid | src/services/problem.service.ts:45-50 | deleting keeps ids distinct and slugs unique |
| ProblemService.RemovePreservesValid | src/services/problem.service.ts:45-50 | removing any one record from a valid collection keeps ids below the counter, distinct, and slugs unique |
| ProblemService.ProblemStore.constructor | src/services/problem.service.ts:1 | the collection starts empty |
| ProblemService.ProblemStore.FindOne | src/services/problem.service.ts:7-21 | a record exactly when `FindBySlug` finds one, and then one of the collection's records that the filter matches; for a non-null slug, one holding that slug |
| ProblemService.ProblemStore.Create | src/services/problem.service.ts:12 | the result and the new collection are `InsertSpec` of the old one |
| ProblemService.ProblemStore.FindOneAndUpdate | src/services/problem.service.ts:32-36 | the result and the new collection are `FindOneAndUpdateSpec` of the old one |
| ProblemService.ProblemStore.FindOneAndDelete | src/services/problem.service.ts:46 | the result and the new collection are `FindOneAndDeleteSpec` of the old one |
| ProblemService.ProblemStore.FindSorted | src/services/problem.service.ts:17 | every record as often as stored, newest first, with the collection unchanged |
| ProblemService.CreateProblem | src/services/problem.service.ts:6-14 | the result and the new collection are `CreateProblemSpec` of the old one: 409 when the lookup matches a record (for slug-less data, any record), otherwise the unique-index insert |
| ProblemService.GetAllProblems | src/services/problem.service.ts:16-18 | the records sorted newest first, with nothing changed |
| ProblemService.GetProblemBySlug | src/services/problem.service.ts:20-26 | `GetProblemBySlugSpec`, with nothing changed |
| ProblemService.UpdateProblemBySlug | src/services/problem.service.ts:28-43 | the result and the new collection are `UpdateProblemBySlugSpec` of the old one |
| ProblemService.DeleteProblemBySlug | src/services/problem.service.ts:45-50 | the result and the new collection are `DeleteProblemBySlugSpec` of the old one |
| ProblemControllers.ValidationFailed | src/controller/problem.controllers.ts:40-52 | the 400 reply with `success` false, 'Validation failed', and one text per issue in order: the path joined by "." followed by ": " and the message |
| ProblemControllers.ProblemDataShape | src/controller/problem.controllers.ts:102-119 | the record copies the defined text fields, defaults tags to `[]`, maps the templates, starts both counters at 0, and has no other property |
| ProblemControllers.SlugOfProblemData | src/controller/problem.controllers.ts:104 | the record is stored under the data's slug |
| ProblemControllers.ValidationFailureIs400 | src/controller/problem.controllers.ts:38-52 | the reply is 400 exactly when the body fails the schema; it then lists the issues, and the collection is untouched |
| ProblemControllers.ParsedText | src/controller/problem.controllers.ts:59-67 | a parsed text field is the request's own value |
| ProblemControllers.DuplicateSlugIs409 | src/controller/problem.controllers.ts:93-99 | a valid body whose slug is stored gets 409, and nothing is created |
| ProblemControllers.FreshSlugIsCreated | src/controller/problem.controllers.ts:102-129 | a valid body with a fresh slug is stored as one new record built from the parsed data, and the reply is 201 with that record |
| ProblemControllers.ParsedTags | src/controller/problem.controllers.ts:65-108 | the parsed tags are the request's tags |
| ProblemControllers.CreatedRecordFields | src/controller/problem.controllers.ts:103-118 | the record keeps the text fields as given and the tags as given or `[]`, and both counters are 0 |
| ProblemControllers.ParsedLanguage | src/controller/problem.controllers.ts:66-115 | the parsed entry of a language is the language schema's parse of the given value |
| ProblemControllers.FirstFileContent | src/controller/problem.controllers.ts:11-111 | a valid language template, once parsed, yields its first file's content, a non-empty string |
| ProblemControllers.TemplateOfLanguage | src/controller/problem.controllers.ts:110-115 | a language that was given yields its first file's content, which is non-empty; a language left out yields `''` |
| ProblemControllers.ListsEveryProblem | src/controller/problem.controllers.ts:140-151 | the listing replies 200 with every record, newest first, and their number |
| ProblemControllers.MissingSlugIs404 | src/controller/problem.controllers.ts:168-236 | get, update and delete of a slug that is not stored all reply 404 and change nothing |
| ProblemControllers.StoredSlugSucceeds | src/controller/problem.controllers.ts:175-241 | a stored slug is fetched with 200 and its record; the update replies 500 'Failed to update problem' with nothing changed exactly when the new fields would take another record's slug, and otherwise replies 200 with the updated record, which replaces the old one in place; the delete replies 200 and removes that record and no other |
| ProblemControllers.CreateProblem | src/controller/problem.controllers.ts:33-136 | the reply and the new collection are `CreateProblemReply` of the old one |
| ProblemControllers.GetProblems | src/controller/problem.controllers.ts:140-158 | `GetProblemsReply`, with nothing changed |
| ProblemControllers.GetProblemBySlug | src/controller/problem.controllers.ts:162-186 | `GetProblemReply`, with nothing changed |
| ProblemControllers.UpdateProblem | src/controller/problem.controllers.ts:191-219 | the reply and the new collection are `UpdateProblemReply` of the old one |
| ProblemControllers.DeleteProblem | src/controller/problem.controllers.ts:225-248 | the reply and the new collection are `DeleteProblemReply` of the old one |
| ProblemController.ZodErrorIs500 | src/controller/problem.controller.ts:13 | a failed parse reaches the error middleware as a 500 listing one entry per issue |
| ProblemController.NewProblemDataShape | src/controller/problem.controller.ts:15-36 | status 'pending' and both counters 0; the text fields and each given language template copied unchanged; missing examples and tags become `[]` |
| ProblemController.SlugParam | src/controller/problem.controller.ts:53 | succeeds exactly when the slug is a non-empty string, giving it unchanged; otherwise a ZodError is thrown |
| ProblemController.CreateParsesFirst | src/controller/problem.controller.ts:13 | a body the schema refuses is thrown as a ZodError before the service is called, and only then |
| ProblemController.PayloadText | src/controller/problem.controller.ts:16-20 | a parsed text field is the request's own value |
| ProblemController.CreateDuplicate | src/controller/problem.controller.ts:38 | a valid body whose slug is stored is refused with the service's 409, and nothing is created |
| ProblemController.CreateFresh | src/controller/problem.controller.ts:12-41 | a valid body with a fresh slug is stored as one new 'pending' record with zero counters and the request's text fields, and answered 201 with it |
| ProblemController.CreatedFields | src/controller/problem.controller.ts:16-35 | the stored record's text fields, status and counters |
| ProblemController.CreateFreshStores | src/controller/problem.controller.ts:38-40 | a fresh slug appends the built record and answers 201 with it |
| ProblemController.NewProblemDataSlug | src/controller/problem.controller.ts:17 | the record is stored under the payload's slug |
| ProblemController.SlugParsedFirst | src/controller/problem.controller.ts:53-73 | parameters without a non-empty slug are thrown as a ZodError by get, update and delete before the service is called, whatever the body |
| ProblemController.UpdateParsesPayload | src/controller/problem.controller.ts:62-63 | with a valid slug, a body the partial schema refuses is thrown as a ZodError, and nothing changes |
| ProblemController.UpdateCannotSetSystemFields | src/controller/problem.controller.ts:63 | parsing drops every property the schema does not name, so an update cannot set the status or the counters |
| ProblemController.StoredSlug | src/controller/problem.controller.ts:52-78 | a stored slug is fetched with 200 and its record; the delete answers 200 and removes that record and no other; the update is refused with the unique index's error and nothing changed exactly when the merged fields would take another record's slug, and otherwise answers 200 with the merged record, which replaces the old one in place and keeps its status and counters |
| ProblemController.CreateProblem | src/controller/problem.controller.ts:12-41 | the outcome and the new collection are `CreateProblemOutcome` of the old one |
| ProblemController.GetProblems | src/controller/problem.controller.ts:45-49 | `GetProblemsOutcome`, with nothing changed |
| ProblemController.GetProblemBySlug | src/controller/problem.controller.ts:52-58 | `GetProblemOutcome`, with nothing changed |
| ProblemController.UpdateProblem | src/controller/problem.controller.ts:61-68 | the outcome and the new collection are `UpdateProblemOutcome` of the old one |
| ProblemController.DeleteProblem | src/controller/problem.controller.ts:72-78 | the outcome and the new collection are `DeleteProblemOutcome` of the old one |

## Left out

- Logging (`src/logger/*.ts`) is left out, as are the log calls in the services and middlewares. They do not affect results.
- The mail providers (`src/emails/emails.service.ts`, `src/emails/providers/*.ts`) are left out. Sending is an abstract call whose failure is a parameter.
- `src/lib/redis.ts`, `src/db/index.ts`, `src/index.ts` and `src/app.ts` are not part of this model: they are connections and bootstrap.
- The wiring of `src/app.ts` is assumed, not modelled. As written, it mounts no router (neither the OTP, user nor problem routes), installs no cookie parser, and registers `errorHandler`, which takes three parameters, where Express recognises an error handler only by four. Without a cookie parser, `req.cookies` is undefined, so `req.cookies.token` throws and the auth middleware always answers 401 'Invalid authentication token'; the model's `AuthMiddleware.Authenticate` covers that case but not the fact that it is the only one reachable. The model assumes the routers are mounted, a cookie parser fills `req.cookies`, and the error handler receives every error thrown by a handler.
- Concurrency is left out. Every call is sequential, including the non-atomic incr-then-expire sequences and the check-then-create race in problem creation.
- `src/middlewares/request.middleware.ts` (AsyncLocalStorage) is not part of this model. The request id is a parameter of the error handler.
- `src/utils/asyncHandler.ts` and `src/utils/api-errors.ts` are not part of this model. A thrown error is an `Outcome.Throw` that the error middleware handles, and an ApiError is modelled by its status, message and errors.
- bcrypt, jsonwebtoken and `crypto.randomInt` internals are function parameters or a nondeterministic choice. `GenerateAuthToken` records only the signed payload `{ _id, email }`, the secret and `'7d'`, not jwt's `iat`.
- `src/models/problems.model.ts` is not part of this model. As written, its required `submittedBy` and `rejectionReason`, its required `templates.python`, `templates.java`, `templates.cpp` and `templates.c` strings (which refuse the `''` the older controller supplies for a missing language, and the absent value the newer controller passes through), and its missing `timestamps` option would make creations fail or leave `createdAt` unset. The same schema governs updates: the strict-mode dropping of unknown keys, the casting of values and the setters on update documents are not modelled (see `ProblemControllers.UpdateDocument`), and `ProblemService.FindOneAndUpdateSpec` merges the partial payload the older controller passes through zod, whose `templates` entries accept any value, without casting it. The model takes the record as the controllers build it. `createdAt` is supplied by the caller, and records with equal times keep their insertion order. The slug setters, the defaults and the floating-point `acceptanceRate` are also not modelled.
- `src/models/submissions.model.ts`, `src/models/testcases.model.ts`, `src/types/*.ts` and `src/routes/*.ts` are not part of this model. They are declarations and wiring, and no code implements the `refreshToken`/`tokenVersion` rotation of the user type.
- `KvStore.IncrSpec`: INCR on a string value always fails. Redis would accept a string that spells an integer, but no key here is written both ways.
- `Strings.ToLower`: only ASCII capitals are lower-cased. Trimming follows ECMAScript's whitespace set.
- `UsersService.SaveSpec`: the text of the E11000 duplicate-key message is approximated. It names the field and value but not the index's database name.
- `ProblemService.InsertSpec`: the duplicate-slug error's text is approximated in the same way.
- `UsersController.RefreshToken`: the TypeError texts follow V8's shape but are not byte-exact, and so is `UsersController.LogoutAllDevices`.
- `ProblemController.ZodError`: zod puts the JSON of its issues in `message`. The model joins the formatted issues with newlines instead, and the `errors` list holds each issue formatted as text rather than as an object.
- `ProblemControllers.UpdateDocument`: the model merges every top-level key of the unvalidated body into the record as a literal field, where mongoose does three other things: (1) a key that starts with `$` (`$set`, `$inc`, `$unset`, `$push`, …) is an update operator; (2) under the schema's default strict mode, a key that is not a path of the problem schema is dropped, so `{"foo": "bar"}` leaves the record unchanged and the reply carries no `foo`; (3) each remaining value is cast to its path's type, so `{"title": 5}` stores `"5"`, a value that cannot be cast (an object under `templates.python`) fails with a CastError, and the `trim`/`lowercase` setters rewrite strings. A body that is not an object is treated as an empty update, and mongoose's casting of such bodies is not modelled either. Only bodies whose keys are all schema paths, holding values already of their path's type and unchanged by its setters, are modelled faithfully.
- `ProblemControllers.UpdateProblem`: because of `UpdateDocument`, an update body holding `$`-operator keys, keys outside the problem schema, or values mongoose would cast or reject is stored literally; the reply and the new collection are the program's only for the bodies `UpdateDocument` models faithfully.
- `ProblemControllers.StoredSlugSucceeds`: its merged record is literal in the same way, so for any body outside those `UpdateDocument` models faithfully it describes the model, not the program.
- `ProblemService.UpdateProblemBySlug`: the payload is merged without mongoose's casting; zod has already dropped unknown keys and typed every field except the `templates` entries, which accept any value, so a non-string template that mongoose would reject with a CastError is stored as given.
- `ProblemService.InsertSpec`: the unique index compares slugs exactly, while MongoDB indexes a missing slug as `null`, so a slug-less record and a record with a `null` slug can coexist in the model. Neither controller can insert either, because both validate the slug as a non-empty string first.
- `UsersController.IdValue`: a user id that is not a non-negative number finds nothing, where mongoose would throw a CastError first. Either way the reply is not a success.
- `UserModel.ValidationError`: the error carries only its message. Mongoose's `errors` object, one entry per failing path, is not modelled, so the error middleware's reply shows `errors: []` where the program would send that object. Only the token save after an empty hash can fail this way.
- `UserModel.AsObject`: the user schema's `{ timestamps: true }` option is not modelled, so the user object and every user JSON reply lack the `createdAt` and `updatedAt` fields the program sends.
- JSON numbers are integers in the model (`Json.JNum` holds an `int`). No modelled path reads or produces a fractional value.
- `ProblemService.ProblemJson`: a rendered document shows its fields and `_id` only. The `__v` version key is not modelled, and `.select('-__v')` in the old listing is therefore a no-op.
