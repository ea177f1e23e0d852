/**
 * The user document of src/models/users.model.ts: its schema setters and required paths,
 * the pre-save hook that hashes a modified password, `generateAuthToken`,
 * `isPasswordCorrect` and the `toJSON` transform. bcrypt and jsonwebtoken are foreign
 * code and appear as the functions of a `Crypto` value; the salt bcrypt generates is an
 * input. Timestamps and `__v` bookkeeping are left out.
 */
module UserModel {
  import opened Wrappers
  import opened Strings
  import opened Json
  import opened ApiErrors

  /** A stored user. `id` stands for the document's ObjectId. */
  datatype UserRecord = UserRecord(
    id: nat,
    name: string,
    username: string,
    email: string,
    password: string,
    token: Option<string>,
    avatarUrl: Option<string>)

  /** The token's payload `{ _id, email }`. */
  datatype Claims = Claims(id: nat, email: string)

  /** `bcrypt.hash(plain, salt)`, `bcrypt.compare(plain, hash)` and
      `jwt.sign(payload, secret, { expiresIn })`. */
  datatype Crypto = Crypto(
    hash: (string, string) -> string,
    compare: (string, string) -> bool,
    sign: (Claims, string, string) -> string)

  const TokenLifetime := "7d"
  const MissingSecret := "JWT_SECRET is not defined in environment variables"

  /** The schema's setters, which also apply to query values: `trim` on name and
      username, `lowercase` and `trim` on email. */
  function NameSetter(s: string): string {
    Trim(s)
  }

  function UsernameSetter(s: string): string {
    Trim(s)
  }

  function EmailSetter(s: string): string {
    Trim(ToLower(s))
  }

  /** The setters are idempotent, and the email setter agrees with the controllers'
      `trim().toLowerCase()`, so a controller-normalised value passes through them
      unchanged. */
  lemma SettersIdempotent(s: string)
    ensures NameSetter(NameSetter(s)) == NameSetter(s)
    ensures UsernameSetter(UsernameSetter(s)) == UsernameSetter(s)
    ensures EmailSetter(s) == ToLower(Trim(s))
    ensures EmailSetter(EmailSetter(s)) == EmailSetter(s)
    ensures UsernameSetter(EmailSetter(s)) == EmailSetter(s)
  {
    TrimIdempotent(s);
    TrimToLowerCommute(s);
    var t := ToLower(s);
    TrimIdempotent(t);
    TrimToLowerCommute(Trim(t));
    TrimToLowerCommute(t);
    ToLowerIdempotent(s);
    ToLowerIdempotent(Trim(t));
  }

  /** The required paths that are empty, in schema order (mongoose's `required` refuses
      the empty string). */
  function MissingRequired(u: UserRecord): (r: seq<string>)
    ensures r == [] <==> u.name != "" && u.username != "" && u.email != "" && u.password != ""
    ensures forall i :: 0 <= i < |r| ==> r[i] in ["name", "username", "email", "password"]
  {
    (if u.name == "" then ["name"] else [])
    + (if u.username == "" then ["username"] else [])
    + (if u.email == "" then ["email"] else [])
    + (if u.password == "" then ["password"] else [])
  }

  function RequiredMessages(paths: seq<string>): seq<string>
    decreases |paths|
  {
    if paths == [] then [] else [paths[0] + ": Path `" + paths[0] + "` is required."] + RequiredMessages(paths[1..])
  }

  /** The mongoose ValidationError a save with empty required paths fails with. */
  function ValidationError(paths: seq<string>): Err {
    Thrown(None, Some("User validation failed: " + Join(RequiredMessages(paths), ", ")), None, true)
  }

  /** The pre-save hook: a modified password is replaced by its hash, and nothing else
      changes; an unmodified password is left as it is. */
  function Rehashed(u: UserRecord, passwordModified: bool, hash: (string, string) -> string, salt: string): (r: UserRecord)
    ensures r.(password := u.password) == u
    ensures r.password == (if passwordModified then hash(u.password, salt) else u.password)
  {
    if passwordModified then u.(password := hash(u.password, salt)) else u
  }

  /** The fields `toJSON` deletes. */
  predicate Hidden(k: string) {
    k == "password" || k == "token" || k == "__v"
  }

  /** The fields of a plain object that `toJSON` lets through, unchanged. */
  function PublicFields(ret: map<string, Json>): (r: map<string, Json>)
    ensures forall k :: k in r <==> k in ret && !Hidden(k)
    ensures forall k :: k in r ==> r[k] == ret[k]
  {
    map k | k in ret && !Hidden(k) :: ret[k]
  }

  /** The `toJSON` transform: deletes `password`, `token` and `__v` from the plain object
      in place and keeps every other field as it was. */
  method ToJsonTransform(ret: map<string, Json>) returns (out: map<string, Json>)
    ensures forall k :: k in out <==> k in ret && !Hidden(k)
    ensures forall k :: k in out ==> out[k] == ret[k]
    ensures out == PublicFields(ret)
  {
    out := ret;
    out := out - {"password"};
    out := out - {"token"};
    out := out - {"__v"};
  }

  /** The plain object of a stored user before the transform. */
  function AsObject(u: UserRecord): (r: map<string, Json>)
    ensures "password" in r && "_id" in r && "email" in r
    ensures u.token.Some? <==> "token" in r
  {
    var base := map["_id" := JNum(u.id), "name" := JStr(u.name), "username" := JStr(u.username),
                    "email" := JStr(u.email), "password" := JStr(u.password), "__v" := JNum(0)];
    var withToken := if u.token.Some? then base["token" := JStr(u.token.value)] else base;
    if u.avatarUrl.Some? then withToken["avatarUrl" := JStr(u.avatarUrl.value)] else withToken
  }

  /** The JSON of a stored user carries its id, name, username and email (and avatar if
      any), and never its password hash or its token. */
  lemma PublicUserHidesSecrets(u: UserRecord)
    ensures var j := PublicFields(AsObject(u));
      && "password" !in j && "token" !in j && "__v" !in j
      && j["_id"] == JNum(u.id) && j["email"] == JStr(u.email)
      && j["name"] == JStr(u.name) && j["username"] == JStr(u.username)
      && (u.avatarUrl.Some? <==> "avatarUrl" in j)
  {
  }

  /** A user document in memory. Saving it is the user table's business. */
  class UserDocument {
    var id: nat
    var name: string
    var username: string
    var email: string
    var password: string
    var token: Option<string>
    var avatarUrl: Option<string>
    /** Mongoose's record of whether `password` was modified since the last save. */
    var passwordModified: bool

    function Record(): UserRecord
      reads this
    {
      UserRecord(id, name, username, email, password, token, avatarUrl)
    }

    /** `new UserModel(data)`: the setters are applied, properties the schema does not
        declare (the otp) are dropped, and on a new document the password counts as
        modified. */
    constructor (id: nat, name: string, username: string, email: string, password: string)
      ensures Record() == UserRecord(id, NameSetter(name), UsernameSetter(username), EmailSetter(email), password, None, None)
      ensures passwordModified
    {
      this.id := id;
      this.name := NameSetter(name);
      this.username := UsernameSetter(username);
      this.email := EmailSetter(email);
      this.password := password;
      this.token := None;
      this.avatarUrl := None;
      this.passwordModified := true;
    }

    /** A document returned by a query: nothing is modified yet. */
    constructor Load(u: UserRecord)
      ensures Record() == u && !passwordModified
    {
      id := u.id;
      name := u.name;
      username := u.username;
      email := u.email;
      password := u.password;
      token := u.token;
      avatarUrl := u.avatarUrl;
      passwordModified := false;
    }

    /** The pre-save hook. */
    method PreSave(crypto: Crypto, salt: string)
      modifies this
      ensures Record() == Rehashed(old(Record()), old(passwordModified), crypto.hash, salt)
      ensures passwordModified == old(passwordModified)
    {
      if !passwordModified {
        return;
      }
      password := crypto.hash(password, salt);
    }

    /** After a successful save mongoose no longer counts any path as modified. */
    method MarkSaved()
      modifies this
      ensures Record() == old(Record()) && !passwordModified
    {
      passwordModified := false;
    }

    /** `generateAuthToken`: without a (non-empty) JWT_SECRET it throws and changes
        nothing; otherwise it signs `{ _id, email }` for 7 days, stores the token on the
        document and returns that same token. */
    method GenerateAuthToken(secret: Option<string>, crypto: Crypto) returns (r: Result<string, Err>)
      modifies this
      ensures passwordModified == old(passwordModified)
      ensures secret.None? || secret.value == "" ==>
        r == Failure(PlainError(MissingSecret)) && Record() == old(Record())
      ensures secret.Some? && secret.value != "" ==>
        && r == Success(crypto.sign(Claims(old(id), old(email)), secret.value, TokenLifetime))
        && Record() == old(Record()).(token := Some(r.value))
    {
      if secret.None? || secret.value == "" {
        return Failure(PlainError(MissingSecret));
      }
      var t := crypto.sign(Claims(id, email), secret.value, TokenLifetime);
      token := Some(t);
      r := Success(t);
    }

    /** `isPasswordCorrect(p)`: bcrypt's comparison of `p` with the stored hash; it reads
        the document and changes nothing. */
    function IsPasswordCorrect(plain: string, crypto: Crypto): (b: bool)
      reads this
      ensures b == crypto.compare(plain, Record().password)
    {
      crypto.compare(plain, password)
    }
  }
}
