/**
 * The account service of src/services/users.service.ts over the users collection. The
 * collection is a sequence of records in insertion order, so `findOne` returns the first
 * matching record; saving a document runs mongoose's validation, the pre-save hook and
 * the unique indexes on `username` and `email`, then inserts or replaces the record by id.
 */
module UsersService {
  import opened Wrappers
  import opened Strings
  import opened ApiErrors
  import opened UserModel

  const EmailTaken := "User with this email already exists"
  const InvalidCredentials := "Invalid email or password"
  const UserNotFound := "User not found"

  /** What the registration controller passes: the schema's four fields and the otp. */
  datatype RegistrationInput = RegistrationInput(name: string, email: string, password: string, username: string, otp: string)

  /** The collection and the next ObjectId to hand out. */
  datatype UsersState = UsersState(users: seq<UserRecord>, nextId: nat)

  /** Ids are below `nextId`, and no two records share an id, a username or an email (the
      unique indexes). */
  ghost predicate ValidTable(st: UsersState) {
    && (forall i :: 0 <= i < |st.users| ==> st.users[i].id < st.nextId)
    && (forall i, j :: 0 <= i < |st.users| && 0 <= j < |st.users| && i != j ==>
          && st.users[i].id != st.users[j].id
          && st.users[i].username != st.users[j].username
          && st.users[i].email != st.users[j].email)
  }

  /** The query filters the service and the unique indexes use. */
  datatype Filter =
    | ByEmail(email: string)
    | ByCredential(email: string, username: string)
    | ById(id: nat)
    | OtherWithUsername(id: nat, username: string)
    | OtherWithEmail(id: nat, email: string)

  predicate Matches(f: Filter, u: UserRecord) {
    match f
    case ByEmail(e) => u.email == e
    case ByCredential(e, n) => u.email == e || u.username == n
    case ById(id) => u.id == id
    case OtherWithUsername(id, n) => u.id != id && u.username == n
    case OtherWithEmail(id, e) => u.id != id && u.email == e
  }

  /** `findOne(filter)`: the index of the first matching record, or none if none matches. */
  function FirstMatch(users: seq<UserRecord>, f: Filter): (r: Option<nat>)
    ensures r.Some? ==> r.value < |users| && Matches(f, users[r.value])
    ensures r.Some? ==> forall j :: 0 <= j < r.value ==> !Matches(f, users[j])
    ensures r.None? <==> forall j :: 0 <= j < |users| ==> !Matches(f, users[j])
    decreases |users|
  {
    if users == [] then None
    else if Matches(f, users[0]) then Some(0)
    else
      var rest := FirstMatch(users[1..], f);
      assert forall j :: 1 <= j < |users| ==> users[j] == users[1..][j - 1];
      if rest.None? then None else Some(rest.value + 1)
  }

  /** The MongoServerError of a unique index, with the driver's message shape. */
  function DuplicateKey(field: string, value: string): Err {
    Thrown(None, Some("E11000 duplicate key error collection: users index: " + field + "_1 dup key: { " + field + ": \"" + value + "\" }"), None, false)
  }

  /** The unique index a record would violate, username first. */
  function Conflict(users: seq<UserRecord>, d: UserRecord): Option<Err> {
    if FirstMatch(users, OtherWithUsername(d.id, d.username)).Some? then Some(DuplicateKey("username", d.username))
    else if FirstMatch(users, OtherWithEmail(d.id, d.email)).Some? then Some(DuplicateKey("email", d.email))
    else None
  }

  /** Replaces the record with `d`'s id, or appends `d` if there is none. */
  function Upsert(users: seq<UserRecord>, d: UserRecord): seq<UserRecord> {
    match FirstMatch(users, ById(d.id))
    case Some(i) => users[i := d]
    case None => users + [d]
  }

  /** `doc.save()`: validation first, then the pre-save hook, then the unique indexes, then
      the write. The result is the record as saved and the new collection. */
  function SaveSpec(users: seq<UserRecord>, doc: UserRecord, passwordModified: bool, crypto: Crypto, salt: string)
    : Result<(UserRecord, seq<UserRecord>), Err>
  {
    var missing := MissingRequired(doc);
    if missing != [] then Failure(ValidationError(missing))
    else
      var d := Rehashed(doc, passwordModified, crypto.hash, salt);
      match Conflict(users, d)
      case Some(e) => Failure(e)
      case None => Success((d, Upsert(users, d)))
  }

  /** The document `new UserModel(data)` builds, under the next id. */
  function NewDocument(id: nat, data: RegistrationInput): UserRecord {
    UserRecord(id, NameSetter(data.name), UsernameSetter(data.username), EmailSetter(data.email), data.password, None, None)
  }

  /** `generateAuthToken()` then `save()` on a stored, saved user `u`: the token is set on
      the document and written back. Nothing is rehashed, so no salt is drawn. */
  function IssueToken(st: UsersState, u: UserRecord, secret: Option<string>, crypto: Crypto)
    : (Result<(UserRecord, string), Err>, UsersState)
  {
    if secret.None? || secret.value == "" then (Failure(PlainError(MissingSecret)), st)
    else
      var token := crypto.sign(Claims(u.id, u.email), secret.value, TokenLifetime);
      match SaveSpec(st.users, u.(token := Some(token)), false, crypto, "")
      case Failure(e) => (Failure(e), st)
      case Success((d, users1)) => (Success((d, token)), st.(users := users1))
  }

  /** `register` past the email check: the first save of the new document, then the
      token. */
  function CreateUser(st: UsersState, doc: UserRecord, salt: string, secret: Option<string>, crypto: Crypto)
    : (Result<(UserRecord, string), Err>, UsersState)
  {
    match SaveSpec(st.users, doc, true, crypto, salt)
    case Failure(e) => (Failure(e), st)
    case Success((d, users1)) => IssueToken(st.(users := users1), d, secret, crypto)
  }

  /** `register`. The otp is accepted and ignored. */
  function RegisterSpec(st: UsersState, data: RegistrationInput, salt: string, secret: Option<string>, crypto: Crypto)
    : (Result<(UserRecord, string), Err>, UsersState)
  {
    if FirstMatch(st.users, ByEmail(EmailSetter(data.email))).Some? then (Failure(PlainError(EmailTaken)), st)
    else CreateUser(st.(nextId := st.nextId + 1), NewDocument(st.nextId, data), salt, secret, crypto)
  }

  /** The filter `login` sends: the credential as an email or as a username, each cast
      through that path's setter. */
  function CredentialFilter(credential: string): Filter {
    ByCredential(EmailSetter(credential), UsernameSetter(credential))
  }

  /** `login`. */
  function LoginSpec(st: UsersState, credential: string, password: string, secret: Option<string>, crypto: Crypto)
    : (Result<(UserRecord, string), Err>, UsersState)
  {
    var found := FirstMatch(st.users, CredentialFilter(credential));
    if found.None? then (Failure(PlainError(InvalidCredentials)), st)
    else if !crypto.compare(password, st.users[found.value].password) then (Failure(PlainError(InvalidCredentials)), st)
    else IssueToken(st, st.users[found.value], secret, crypto)
  }

  /** `findById(id)`; an undefined id finds nothing. */
  function FindById(st: UsersState, id: Option<nat>): Option<nat> {
    if id.None? then None else FirstMatch(st.users, ById(id.value))
  }

  /** `logout`. */
  function LogoutSpec(st: UsersState, id: Option<nat>, crypto: Crypto): (Result<(), Err>, UsersState) {
    match FindById(st, id)
    case None => (Failure(PlainError(UserNotFound)), st)
    case Some(i) =>
      match SaveSpec(st.users, st.users[i].(token := None), false, crypto, "")
      case Failure(e) => (Failure(e), st)
      case Success((_, users1)) => (Success(()), st.(users := users1))
  }

  /** `getCurrentUser`: the stored record with that id, or 'User not found'. */
  function GetCurrentUserSpec(st: UsersState, id: Option<nat>): (r: Result<UserRecord, Err>)
    ensures r.Success? ==> id.Some? && r.value in st.users && r.value.id == id.value
    ensures r.Failure? ==>
      r.error == PlainError(UserNotFound) && forall j :: 0 <= j < |st.users| ==> id.None? || st.users[j].id != id.value
  {
    match FindById(st, id)
    case None => Failure(PlainError(UserNotFound))
    case Some(i) => Success(st.users[i])
  }

  // ---------------------------------------------------------------------------------------
  // Saving, and the collection's invariant

  /** In a valid table the record with a given id is the one `findById` finds. */
  lemma FindByIdUnique(st: UsersState, i: nat)
    requires ValidTable(st) && i < |st.users|
    ensures FirstMatch(st.users, ById(st.users[i].id)) == Some(i)
  {
    assert Matches(ById(st.users[i].id), st.users[i]);
  }

  /** The unique indexes accept `d` exactly when every other record differs from it in both
      username and email. */
  lemma ConflictFreeIff(users: seq<UserRecord>, d: UserRecord)
    ensures Conflict(users, d).None? <==>
      forall j :: 0 <= j < |users| ==> users[j].id == d.id || (users[j].username != d.username && users[j].email != d.email)
  {
    if forall j :: 0 <= j < |users| ==> users[j].id == d.id || (users[j].username != d.username && users[j].email != d.email) {
      assert forall j :: 0 <= j < |users| ==> !Matches(OtherWithUsername(d.id, d.username), users[j]);
      assert forall j :: 0 <= j < |users| ==> !Matches(OtherWithEmail(d.id, d.email), users[j]);
    }
  }

  /** Saving a valid document whose id, username and email are all new appends it. */
  lemma SaveAppends(users: seq<UserRecord>, doc: UserRecord, modified: bool, crypto: Crypto, salt: string)
    requires forall j :: 0 <= j < |users| ==> users[j].id != doc.id && users[j].username != doc.username && users[j].email != doc.email
    requires MissingRequired(doc) == []
    ensures var d := Rehashed(doc, modified, crypto.hash, salt);
      SaveSpec(users, doc, modified, crypto, salt) == Success((d, users + [d]))
  {
    var d := Rehashed(doc, modified, crypto.hash, salt);
    ConflictFreeIff(users, d);
    assert FirstMatch(users, ById(d.id)).None?;
  }

  /** Saving a stored record again, with its id, username and email unchanged and no
      password change, replaces it in place. */
  lemma SaveReplaces(st: UsersState, i: nat, u: UserRecord, crypto: Crypto, salt: string)
    requires ValidTable(st) && i < |st.users|
    requires u.id == st.users[i].id && u.username == st.users[i].username && u.email == st.users[i].email
    requires MissingRequired(u) == []
    ensures SaveSpec(st.users, u, false, crypto, salt) == Success((u, st.users[i := u]))
  {
    FindByIdUnique(st, i);
    ConflictFreeIff(st.users, u);
  }

  /** A successful save keeps the unique indexes and the ids of a valid table. */
  lemma SavePreservesValid(st: UsersState, doc: UserRecord, modified: bool, crypto: Crypto, salt: string)
    requires ValidTable(st) && doc.id < st.nextId
    requires SaveSpec(st.users, doc, modified, crypto, salt).Success?
    ensures ValidTable(st.(users := SaveSpec(st.users, doc, modified, crypto, salt).value.1))
    ensures SaveSpec(st.users, doc, modified, crypto, salt).value.0 == Rehashed(doc, modified, crypto.hash, salt)
  {
    var d := Rehashed(doc, modified, crypto.hash, salt);
    var users := st.users;
    ConflictFreeIff(users, d);
    var users' := Upsert(users, d);
    match FirstMatch(users, ById(d.id))
    case Some(i) =>
      assert users' == users[i := d];
      forall a, b | 0 <= a < |users'| && 0 <= b < |users'| && a != b
        ensures users'[a].id != users'[b].id && users'[a].username != users'[b].username && users'[a].email != users'[b].email
      {
        if a == i || b == i {
          var o := if a == i then b else a;
          assert users[o].id != users[i].id;
        }
      }
    case None =>
      assert users' == users + [d];
      forall a, b | 0 <= a < |users'| && 0 <= b < |users'| && a != b
        ensures users'[a].id != users'[b].id && users'[a].username != users'[b].username && users'[a].email != users'[b].email
      {
        if a == |users| || b == |users| {
          var o := if a == |users| then b else a;
          assert !Matches(ById(d.id), users[o]);
        }
      }
  }

  /** Issuing a token for a stored user: without a secret nothing changes; otherwise, if
      the record passes validation, its token (and nothing else) is replaced by the fresh
      token, which is also returned. */
  lemma IssueTokenToStored(st: UsersState, i: nat, secret: Option<string>, crypto: Crypto)
    requires ValidTable(st) && i < |st.users|
    ensures var u := st.users[i];
      var (r, st') := IssueToken(st, u, secret, crypto);
      && (secret.None? || secret.value == "" ==> r == Failure(PlainError(MissingSecret)) && st' == st)
      && (MissingRequired(u) != [] ==> r.Failure? && st' == st)
      && (secret.Some? && secret.value != "" && MissingRequired(u) == [] ==>
            var token := crypto.sign(Claims(u.id, u.email), secret.value, TokenLifetime);
            r == Success((u.(token := Some(token)), token)) && st' == st.(users := st.users[i := u.(token := Some(token))]))
  {
    var u := st.users[i];
    if secret.Some? && secret.value != "" && MissingRequired(u) == [] {
      var token := crypto.sign(Claims(u.id, u.email), secret.value, TokenLifetime);
      SaveReplaces(st, i, u.(token := Some(token)), crypto, "");
    }
  }

  /** Raising the id counter keeps a table valid. */
  lemma BumpPreservesValid(st: UsersState)
    requires ValidTable(st)
    ensures ValidTable(st.(nextId := st.nextId + 1))
  {
  }

  lemma IssueTokenPreservesValid(st: UsersState, u: UserRecord, secret: Option<string>, crypto: Crypto)
    requires ValidTable(st) && u.id < st.nextId
    ensures ValidTable(IssueToken(st, u, secret, crypto).1)
    ensures IssueToken(st, u, secret, crypto).1.nextId == st.nextId
  {
    if secret.Some? && secret.value != "" {
      var token := crypto.sign(Claims(u.id, u.email), secret.value, TokenLifetime);
      if SaveSpec(st.users, u.(token := Some(token)), false, crypto, "").Success? {
        SavePreservesValid(st, u.(token := Some(token)), false, crypto, "");
      }
    }
  }

  lemma CreateUserPreservesValid(st: UsersState, doc: UserRecord, salt: string, secret: Option<string>, crypto: Crypto)
    requires ValidTable(st) && doc.id < st.nextId
    ensures ValidTable(CreateUser(st, doc, salt, secret, crypto).1)
  {
    var s1 := SaveSpec(st.users, doc, true, crypto, salt);
    if s1.Success? {
      SavePreservesValid(st, doc, true, crypto, salt);
      IssueTokenPreservesValid(st.(users := s1.value.1), s1.value.0, secret, crypto);
    }
  }

  /** Every operation of the service keeps the collection valid. */
  lemma RegisterPreservesValid(st: UsersState, data: RegistrationInput, salt: string, secret: Option<string>, crypto: Crypto)
    requires ValidTable(st)
    ensures ValidTable(RegisterSpec(st, data, salt, secret, crypto).1)
  {
    if FirstMatch(st.users, ByEmail(EmailSetter(data.email))).None? {
      BumpPreservesValid(st);
      CreateUserPreservesValid(st.(nextId := st.nextId + 1), NewDocument(st.nextId, data), salt, secret, crypto);
    }
  }

  lemma LoginPreservesValid(st: UsersState, credential: string, password: string, secret: Option<string>, crypto: Crypto)
    requires ValidTable(st)
    ensures ValidTable(LoginSpec(st, credential, password, secret, crypto).1)
  {
    var found := FirstMatch(st.users, CredentialFilter(credential));
    if found.Some? && crypto.compare(password, st.users[found.value].password) {
      IssueTokenPreservesValid(st, st.users[found.value], secret, crypto);
      assert LoginSpec(st, credential, password, secret, crypto) == IssueToken(st, st.users[found.value], secret, crypto);
    } else {
      assert LoginSpec(st, credential, password, secret, crypto).1 == st;
    }
  }

  lemma LogoutPreservesValid(st: UsersState, id: Option<nat>, crypto: Crypto)
    requires ValidTable(st)
    ensures ValidTable(LogoutSpec(st, id, crypto).1)
  {
    var found := FindById(st, id);
    if found.Some? {
      var u := st.users[found.value].(token := None);
      if SaveSpec(st.users, u, false, crypto, "").Success? {
        SavePreservesValid(st, u, false, crypto, "");
      }
    }
  }

  // ---------------------------------------------------------------------------------------
  // register

  /** An email already in use is refused, and nothing changes (not even the id counter). */
  lemma RegisterExistingEmail(st: UsersState, data: RegistrationInput, salt: string, secret: Option<string>, crypto: Crypto, i: nat)
    requires i < |st.users| && st.users[i].email == EmailSetter(data.email)
    ensures RegisterSpec(st, data, salt, secret, crypto) == (Failure(PlainError(EmailTaken)), st)
  {
    assert Matches(ByEmail(EmailSetter(data.email)), st.users[i]);
  }

  /** The record `register` creates: the setters applied, the password hashed, no avatar. */
  function NewRecord(st: UsersState, data: RegistrationInput, salt: string, crypto: Crypto, token: Option<string>): UserRecord {
    UserRecord(st.nextId, NameSetter(data.name), UsernameSetter(data.username), EmailSetter(data.email),
      crypto.hash(data.password, salt), token, None)
  }

  /** Past a free email, `register` is the creation of the new document under the next
      id. */
  lemma RegisterFreeEmail(st: UsersState, data: RegistrationInput, salt: string, secret: Option<string>, crypto: Crypto)
    requires forall j :: 0 <= j < |st.users| ==> st.users[j].email != EmailSetter(data.email)
    ensures RegisterSpec(st, data, salt, secret, crypto)
         == CreateUser(st.(nextId := st.nextId + 1), NewDocument(st.nextId, data), salt, secret, crypto)
  {
    NoEmailMatch(st.users, EmailSetter(data.email));
    RegisterUnfold(st, data, salt, secret, crypto);
  }

  lemma NoEmailMatch(users: seq<UserRecord>, email: string)
    requires forall j :: 0 <= j < |users| ==> users[j].email != email
    ensures FirstMatch(users, ByEmail(email)).None?
  {
  }

  lemma RegisterUnfold(st: UsersState, data: RegistrationInput, salt: string, secret: Option<string>, crypto: Crypto)
    requires FirstMatch(st.users, ByEmail(EmailSetter(data.email))).None?
    ensures RegisterSpec(st, data, salt, secret, crypto)
         == CreateUser(st.(nextId := st.nextId + 1), NewDocument(st.nextId, data), salt, secret, crypto)
  {
  }

  /** Creating a document whose id and email are new succeeds exactly when its username is
      new too, validation passes before and after hashing and a secret is configured; the
      new record, with its token, is then appended. */
  lemma CreateUserOutcome(st: UsersState, doc: UserRecord, salt: string, secret: Option<string>, crypto: Crypto)
    requires ValidTable(st) && doc.id < st.nextId
    requires forall j :: 0 <= j < |st.users| ==> st.users[j].id != doc.id && st.users[j].email != doc.email
    ensures var (r, st') := CreateUser(st, doc, salt, secret, crypto);
      && (r.Success? <==>
            && (forall j :: 0 <= j < |st.users| ==> st.users[j].username != doc.username)
            && MissingRequired(doc) == [] && crypto.hash(doc.password, salt) != ""
            && secret.Some? && secret.value != "")
      && (r.Success? ==>
            && r.value.1 == crypto.sign(Claims(doc.id, doc.email), secret.value, TokenLifetime)
            && r.value.0 == doc.(password := crypto.hash(doc.password, salt), token := Some(r.value.1))
            && st' == st.(users := st.users + [r.value.0]))
  {
    if MissingRequired(doc) == [] {
      if exists j :: 0 <= j < |st.users| && st.users[j].username == doc.username {
        var j :| 0 <= j < |st.users| && st.users[j].username == doc.username;
        CreateUserUsernameTaken(st, doc, salt, secret, crypto, j);
      } else {
        CreateUserFreeUsername(st, doc, salt, secret, crypto);
      }
    }
  }

  /** A username already stored makes the first save fail. */
  lemma CreateUserUsernameTaken(st: UsersState, doc: UserRecord, salt: string, secret: Option<string>, crypto: Crypto, j: nat)
    requires doc.id < st.nextId && MissingRequired(doc) == []
    requires forall k :: 0 <= k < |st.users| ==> st.users[k].id != doc.id
    requires j < |st.users| && st.users[j].username == doc.username
    ensures CreateUser(st, doc, salt, secret, crypto) == (Failure(DuplicateKey("username", doc.username)), st)
  {
    var d := Rehashed(doc, true, crypto.hash, salt);
    assert Matches(OtherWithUsername(d.id, d.username), st.users[j]);
  }

  /** With a new id, username and email, the first save appends the hashed record; the
      token save then succeeds exactly when a secret is configured and the hash is not
      empty. */
  lemma CreateUserFreeUsername(st: UsersState, doc: UserRecord, salt: string, secret: Option<string>, crypto: Crypto)
    requires ValidTable(st) && doc.id < st.nextId && MissingRequired(doc) == []
    requires forall j :: 0 <= j < |st.users| ==>
      st.users[j].id != doc.id && st.users[j].email != doc.email && st.users[j].username != doc.username
    ensures var (r, st') := CreateUser(st, doc, salt, secret, crypto);
      && (r.Success? <==> crypto.hash(doc.password, salt) != "" && secret.Some? && secret.value != "")
      && (r.Success? ==>
            && r.value.1 == crypto.sign(Claims(doc.id, doc.email), secret.value, TokenLifetime)
            && r.value.0 == doc.(password := crypto.hash(doc.password, salt), token := Some(r.value.1))
            && st' == st.(users := st.users + [r.value.0]))
  {
    var d := Rehashed(doc, true, crypto.hash, salt);
    SaveAppends(st.users, doc, true, crypto, salt);
    SavePreservesValid(st, doc, true, crypto, salt);
    IssueTokenToStored(st.(users := st.users + [d]), |st.users|, secret, crypto);
  }

  /** Registration succeeds exactly when the email is new, every required field is
      non-empty after the setters, the username is new, a JWT secret is configured and the
      hash is not empty. Then exactly one record is added, carrying the returned token,
      which is the 7-day token over the new id and email. */
  lemma RegisterSuccess(st: UsersState, data: RegistrationInput, salt: string, secret: Option<string>, crypto: Crypto)
    requires ValidTable(st)
    ensures var (r, st') := RegisterSpec(st, data, salt, secret, crypto);
      && (r.Success? <==>
            && (forall j :: 0 <= j < |st.users| ==> st.users[j].email != EmailSetter(data.email))
            && (forall j :: 0 <= j < |st.users| ==> st.users[j].username != UsernameSetter(data.username))
            && NameSetter(data.name) != "" && UsernameSetter(data.username) != "" && EmailSetter(data.email) != ""
            && data.password != "" && crypto.hash(data.password, salt) != ""
            && secret.Some? && secret.value != "")
      && (r.Success? ==>
            && r.value.1 == crypto.sign(Claims(st.nextId, EmailSetter(data.email)), secret.value, TokenLifetime)
            && r.value.0 == NewRecord(st, data, salt, crypto, Some(r.value.1))
            && st'.users == st.users + [r.value.0]
            && st'.nextId == st.nextId + 1)
  {
    if exists j :: 0 <= j < |st.users| && st.users[j].email == EmailSetter(data.email) {
      var j :| 0 <= j < |st.users| && st.users[j].email == EmailSetter(data.email);
      RegisterExistingEmail(st, data, salt, secret, crypto, j);
    } else {
      RegisterFreeEmail(st, data, salt, secret, crypto);
      BumpPreservesValid(st);
      CreateUserOutcome(st.(nextId := st.nextId + 1), NewDocument(st.nextId, data), salt, secret, crypto);
    }
  }

  /** Without a JWT secret, a registration that passed the first save fails, but the user
      stays stored, without a token. */
  lemma RegisterWithoutSecretKeepsUser(st: UsersState, data: RegistrationInput, salt: string, crypto: Crypto)
    requires ValidTable(st)
    requires forall j :: 0 <= j < |st.users| ==> st.users[j].email != EmailSetter(data.email)
    requires forall j :: 0 <= j < |st.users| ==> st.users[j].username != UsernameSetter(data.username)
    requires NameSetter(data.name) != "" && UsernameSetter(data.username) != "" && EmailSetter(data.email) != "" && data.password != ""
    ensures var (r, st') := RegisterSpec(st, data, salt, None, crypto);
      && r == Failure(PlainError(MissingSecret))
      && st'.users == st.users + [NewRecord(st, data, salt, crypto, None)]
  {
    RegisterFreeEmail(st, data, salt, None, crypto);
    SaveAppends(st.users, NewDocument(st.nextId, data), true, crypto, salt);
  }

  /** A username already taken (under another email) is not caught by the service's own
      check: the unique index refuses the insert with a plain server error (hence 500),
      and only the id counter moves. */
  lemma RegisterDuplicateUsername(st: UsersState, data: RegistrationInput, salt: string, secret: Option<string>, crypto: Crypto, i: nat)
    requires ValidTable(st)
    requires forall j :: 0 <= j < |st.users| ==> st.users[j].email != EmailSetter(data.email)
    requires i < |st.users| && st.users[i].username == UsernameSetter(data.username)
    requires NameSetter(data.name) != "" && UsernameSetter(data.username) != "" && EmailSetter(data.email) != "" && data.password != ""
    ensures var (r, st') := RegisterSpec(st, data, salt, secret, crypto);
      && r == Failure(DuplicateKey("username", UsernameSetter(data.username)))
      && r.error.Thrown? && r.error.rawStatusCode.None? && !r.error.isMongoose
      && st' == st.(nextId := st.nextId + 1)
  {
    RegisterFreeEmail(st, data, salt, secret, crypto);
    var doc := NewDocument(st.nextId, data);
    assert MissingRequired(doc) == [];
    assert Matches(OtherWithUsername(st.nextId, UsernameSetter(data.username)), st.users[i]);
    assert Conflict(st.users, Rehashed(doc, true, crypto.hash, salt)) == Some(DuplicateKey("username", UsernameSetter(data.username)));
  }

  /** The otp plays no part in registration. */
  lemma RegisterIgnoresOtp(st: UsersState, data: RegistrationInput, otp: string, salt: string, secret: Option<string>, crypto: Crypto)
    ensures RegisterSpec(st, data, salt, secret, crypto) == RegisterSpec(st, data.(otp := otp), salt, secret, crypto)
  {
  }

  // ---------------------------------------------------------------------------------------
  // login, logout, getCurrentUser

  /** An unknown credential and a wrong password fail with the same message and change
      nothing, so the reply does not reveal which one it was. */
  lemma LoginFailuresIndistinguishable(st: UsersState, credential: string, password: string, secret: Option<string>, crypto: Crypto)
    requires var f := FirstMatch(st.users, CredentialFilter(credential));
      f.None? || !crypto.compare(password, st.users[f.value].password)
    ensures LoginSpec(st, credential, password, secret, crypto) == (Failure(PlainError(InvalidCredentials)), st)
  {
  }

  /** A successful login is for the first user whose email or username equals the
      credential (cast through the setters) and whose hash accepts the password; the fresh
      token it returns replaces that user's stored token, and nothing else changes. */
  lemma LoginSuccess(st: UsersState, credential: string, password: string, secret: Option<string>, crypto: Crypto)
    requires ValidTable(st)
    ensures var (r, st') := LoginSpec(st, credential, password, secret, crypto);
      var f := FirstMatch(st.users, CredentialFilter(credential));
      r.Success? ==>
        && f.Some?
        && (st.users[f.value].email == EmailSetter(credential) || st.users[f.value].username == UsernameSetter(credential))
        && (forall j :: 0 <= j < f.value ==> st.users[j].email != EmailSetter(credential) && st.users[j].username != UsernameSetter(credential))
        && crypto.compare(password, st.users[f.value].password)
        && r.value.1 == crypto.sign(Claims(st.users[f.value].id, st.users[f.value].email), secret.value, TokenLifetime)
        && r.value.0 == st.users[f.value].(token := Some(r.value.1))
        && st' == st.(users := st.users[f.value := r.value.0])
  {
    var f := FirstMatch(st.users, CredentialFilter(credential));
    if f.Some? {
      IssueTokenToStored(st, f.value, secret, crypto);
    }
  }

  /** Logging out an unknown (or undefined) id fails with 'User not found' and changes
      nothing; otherwise only the user's token is cleared. */
  lemma LogoutClearsOnlyToken(st: UsersState, id: Option<nat>, crypto: Crypto)
    requires ValidTable(st)
    ensures var (r, st') := LogoutSpec(st, id, crypto);
      && (FindById(st, id).None? ==> r == Failure(PlainError(UserNotFound)) && st' == st)
      && (FindById(st, id).Some? && MissingRequired(st.users[FindById(st, id).value]) == [] ==>
            var i := FindById(st, id).value;
            r == Success(()) && st' == st.(users := st.users[i := st.users[i].(token := None)]))
  {
    var f := FindById(st, id);
    if f.Some? && MissingRequired(st.users[f.value]) == [] {
      SaveReplaces(st, f.value, st.users[f.value].(token := None), crypto, "");
    }
  }

  /** Registering and then logging in with the same email and password returns the new
      user, provided bcrypt accepts a password against its own hash and no other user has
      that email as a username. */
  lemma RegisterThenLogin(st: UsersState, data: RegistrationInput, salt: string, secret: Option<string>, crypto: Crypto)
    requires ValidTable(st)
    requires RegisterSpec(st, data, salt, secret, crypto).0.Success?
    requires crypto.compare(data.password, crypto.hash(data.password, salt))
    requires forall j :: 0 <= j < |st.users| ==> st.users[j].username != UsernameSetter(data.email)
    ensures var st' := RegisterSpec(st, data, salt, secret, crypto).1;
      var (r, _) := LoginSpec(st', data.email, data.password, secret, crypto);
      r.Success? && r.value.0.id == st.nextId && r.value.0.email == EmailSetter(data.email)
  {
    RegisterSuccess(st, data, salt, secret, crypto);
    RegisterPreservesValid(st, data, salt, secret, crypto);
    var (r0, st') := RegisterSpec(st, data, salt, secret, crypto);
    var f := CredentialFilter(data.email);
    assert forall j :: 0 <= j < |st.users| ==> !Matches(f, st.users[j]);
    FindsAppended(st.users, r0.value.0, f);
    LoginAt(st', |st.users|, data.email, data.password, secret, crypto);
  }

  /** A record appended after records that do not match is the one `findOne` finds. */
  lemma FindsAppended(users: seq<UserRecord>, rec: UserRecord, f: Filter)
    requires forall j :: 0 <= j < |users| ==> !Matches(f, users[j])
    requires Matches(f, rec)
    ensures FirstMatch(users + [rec], f) == Some(|users|)
  {
    var all := users + [rec];
    forall j | 0 <= j < |users| ensures !Matches(f, all[j]) {
      assert all[j] == users[j];
    }
    assert Matches(f, all[|users|]);
  }

  /** Login of the found user with the right password and a configured secret succeeds. */
  lemma LoginAt(st: UsersState, i: nat, credential: string, password: string, secret: Option<string>, crypto: Crypto)
    requires ValidTable(st) && i < |st.users|
    requires FirstMatch(st.users, CredentialFilter(credential)) == Some(i)
    requires crypto.compare(password, st.users[i].password)
    requires secret.Some? && secret.value != "" && MissingRequired(st.users[i]) == []
    ensures var r := LoginSpec(st, credential, password, secret, crypto).0;
      r.Success? && r.value.0.id == st.users[i].id && r.value.0.email == st.users[i].email
  {
    IssueTokenToStored(st, i, secret, crypto);
  }

  /** The users collection. */
  class UserStore {
    var users: seq<UserRecord>
    var nextId: nat

    function State(): UsersState
      reads this
    {
      UsersState(users, nextId)
    }

    ghost predicate Valid()
      reads this
    {
      ValidTable(State())
    }

    constructor ()
      ensures State() == UsersState([], 0) && Valid()
    {
      users := [];
      nextId := 0;
    }

    /** `doc.save()`, writing the saved record back to the document. */
    method Save(doc: UserDocument, crypto: Crypto, salt: string) returns (r: Result<(), Err>)
      modifies this, doc
      ensures nextId == old(nextId)
      ensures var s := SaveSpec(old(users), old(doc.Record()), old(doc.passwordModified), crypto, salt);
        && (s.Success? ==> r == Success(()) && users == s.value.1 && doc.Record() == s.value.0 && !doc.passwordModified)
        && (s.Failure? ==> r == Failure(s.error) && users == old(users))
    {
      var missing := MissingRequired(doc.Record());
      if missing != [] {
        return Failure(ValidationError(missing));
      }
      doc.PreSave(crypto, salt);
      var d := doc.Record();
      var conflict := Conflict(users, d);
      if conflict.Some? {
        return Failure(conflict.value);
      }
      users := Upsert(users, d);
      doc.MarkSaved();
      r := Success(());
    }

    /** `user.generateAuthToken()` followed by `user.save()`. */
    method SaveToken(user: UserDocument, secret: Option<string>, crypto: Crypto) returns (r: Result<(UserRecord, string), Err>)
      requires !user.passwordModified
      modifies this, user
      ensures nextId == old(nextId)
      ensures (r, State()) == IssueToken(old(State()), old(user.Record()), secret, crypto)
    {
      var token := user.GenerateAuthToken(secret, crypto);
      if token.Failure? {
        return Failure(token.error);
      }
      var saved := Save(user, crypto, "");
      if saved.Failure? {
        return Failure(saved.error);
      }
      r := Success((user.Record(), token.value));
    }

    method Register(data: RegistrationInput, salt: string, secret: Option<string>, crypto: Crypto)
      returns (r: Result<(UserRecord, string), Err>)
      requires Valid()
      modifies this
      ensures Valid()
      ensures (r, State()) == RegisterSpec(old(State()), data, salt, secret, crypto)
    {
      RegisterPreservesValid(State(), data, salt, secret, crypto);
      var existing := FirstMatch(users, ByEmail(EmailSetter(data.email)));
      if existing.Some? {
        return Failure(PlainError(EmailTaken));
      }
      var newUser := new UserDocument(nextId, data.name, data.username, data.email, data.password);
      nextId := nextId + 1;
      var saved := Save(newUser, crypto, salt);
      if saved.Failure? {
        return Failure(saved.error);
      }
      r := SaveToken(newUser, secret, crypto);
    }

    method Login(credential: string, password: string, secret: Option<string>, crypto: Crypto)
      returns (r: Result<(UserRecord, string), Err>)
      requires Valid()
      modifies this
      ensures Valid()
      ensures (r, State()) == LoginSpec(old(State()), credential, password, secret, crypto)
    {
      LoginPreservesValid(State(), credential, password, secret, crypto);
      var found := FirstMatch(users, CredentialFilter(credential));
      if found.None? {
        return Failure(PlainError(InvalidCredentials));
      }
      var user := new UserDocument.Load(users[found.value]);
      var valid := user.IsPasswordCorrect(password, crypto);
      if !valid {
        return Failure(PlainError(InvalidCredentials));
      }
      r := SaveToken(user, secret, crypto);
    }

    method Logout(id: Option<nat>, crypto: Crypto) returns (r: Result<(), Err>)
      requires Valid()
      modifies this
      ensures Valid()
      ensures (r, State()) == LogoutSpec(old(State()), id, crypto)
    {
      LogoutPreservesValid(State(), id, crypto);
      var found := FindById(State(), id);
      if found.None? {
        return Failure(PlainError(UserNotFound));
      }
      var user := new UserDocument.Load(users[found.value]);
      user.token := None;
      var saved := Save(user, crypto, "");
      if saved.Failure? {
        return Failure(saved.error);
      }
      r := Success(());
    }

    /** Reads the collection and changes nothing. */
    method GetCurrentUser(id: Option<nat>) returns (r: Result<UserRecord, Err>)
      ensures r == GetCurrentUserSpec(State(), id)
    {
      var found := FindById(State(), id);
      if found.None? {
        return Failure(PlainError(UserNotFound));
      }
      r := Success(users[found.value]);
    }
  }
}
