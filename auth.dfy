/**
 * The authentication handlers (app/routers/auth.py) over the `users` collection. The JWT
 * library and the password helpers are parameters: `decode` gives a token's claims or None
 * where `jwt.decode` raises JWTError, `createToken` is `create_access_token`, `verify` is
 * `verify_password` and `hash` is `get_password_hash`.
 */
module Auth {
  import opened Common
  import opened ObjectIds
  import opened Models
  import opened Database

  type Claims = map<string, Json>

  const CredentialsMessage := "Could not validate credentials"
  const InactiveMessage := "Inactive user"
  const LoginFailedMessage := "Incorrect email or password"
  const EmailTakenMessage := "Email already registered"
  const TokenType := "bearer"

  /** The user a request is made by, with the id it was looked up under. */
  datatype CurrentUser = CurrentUser(id: ObjectId, doc: UserDoc)

  /**
   * The id `get_user_by_id(payload.get("sub"))` looks up: a missing or null `sub` is rejected,
   * and a `sub` that `ObjectId` cannot convert makes the lookup return None.
   */
  function SubjectId(claims: Claims): Option<ObjectId>
  {
    if "sub" in claims && claims["sub"].JString? then Parse(claims["sub"].s) else None
  }

  /** `get_current_user`: every failure is the same 401. */
  function GetCurrentUser(users: map<ObjectId, UserDoc>, token: string,
                          decode: string -> Option<Claims>): (r: Result<CurrentUser, HttpError>)
    ensures r.Failure? ==> r.error == HttpError(401, CredentialsMessage)
    ensures r.Success? <==>
      decode(token).Some? && SubjectId(decode(token).value).Some?
      && SubjectId(decode(token).value).value in users
    ensures r.Success? ==>
      r.value.id == SubjectId(decode(token).value).value && r.value.doc == users[r.value.id]
  {
    match decode(token)
    case None => Failure(HttpError(401, CredentialsMessage))
    case Some(claims) =>
      match SubjectId(claims)
      case None => Failure(HttpError(401, CredentialsMessage))
      case Some(id) =>
        if id in users then Success(CurrentUser(id, users[id]))
        else Failure(HttpError(401, CredentialsMessage))
  }

  /** `get_current_active_user`: an inactive user gets 400, an active one passes unchanged. */
  function GetCurrentActiveUser(user: CurrentUser): (r: Result<CurrentUser, HttpError>)
    ensures r.Success? <==> user.doc.isActive
    ensures r.Success? ==> r.value == user
    ensures r.Failure? ==> r.error == HttpError(400, InactiveMessage)
  {
    if !user.doc.isActive then Failure(HttpError(400, InactiveMessage)) else Success(user)
  }

  /** The dependency chain of an endpoint that needs an active user. */
  function ActiveUserFromToken(users: map<ObjectId, UserDoc>, token: string,
                               decode: string -> Option<Claims>): Result<CurrentUser, HttpError>
  {
    match GetCurrentUser(users, token, decode)
    case Failure(e) => Failure(e)
    case Success(user) => GetCurrentActiveUser(user)
  }

  /** The claims `create_access_token(data={"sub": str(user["_id"])})` signs. */
  function SubjectClaims(id: ObjectId): Claims
  {
    map["sub" := JString(ToString(id))]
  }

  /** `find_one({"email": email})`; the emails are unique, so the document found is determined. */
  function FindByEmail(users: map<ObjectId, UserDoc>, email: string): (r: Option<ObjectId>)
    requires EmailsUnique(users)
    ensures r.Some? <==> EmailRegistered(users, email)
    ensures r.Some? ==> r.value in users && users[r.value].email == email
  {
    if exists id :: id in users && users[id].email == email then
      var id :| id in users && users[id].email == email;
      Some(id)
    else None
  }

  datatype UserSummary = UserSummary(id: string, email: string, fullName: string, role: string)

  /** The body login and register answer with. */
  datatype TokenResponse = TokenResponse(accessToken: string, tokenType: string, user: UserSummary)

  function Summary(id: ObjectId, doc: UserDoc): UserSummary
  {
    UserSummary(ToString(id), doc.email, doc.fullName, doc.role)
  }

  function TokenFor(id: ObjectId, doc: UserDoc, createToken: Claims -> string): TokenResponse
  {
    TokenResponse(createToken(SubjectClaims(id)), TokenType, Summary(id, doc))
  }

  /**
   * `POST /auth/login`: an unknown email and a wrong password get the same 401; on success
   * only that user's `last_login` changes, and the token's subject is the user's id.
   */
  method Login(db: UserCollection, username: string, password: string,
               verify: (string, string) -> bool, createToken: Claims -> string, now: Time)
    returns (r: Result<TokenResponse, HttpError>)
    requires db.Valid()
    modifies db
    ensures db.Valid()
    ensures r.Success? <==>
      FindByEmail(old(db.docs), username).Some?
      && verify(password, old(db.docs)[FindByEmail(old(db.docs), username).value].hashedPassword)
    ensures r.Failure? ==>
      r.error == HttpError(401, LoginFailedMessage) && db.docs == old(db.docs)
    ensures r.Success? ==>
      var id := FindByEmail(old(db.docs), username).value;
      && db.docs == old(db.docs)[id := old(db.docs)[id].(lastLogin := Some(now))]
      && r.value == TokenFor(id, old(db.docs)[id], createToken)
  {
    var found := FindByEmail(db.docs, username);
    if found.None? || !verify(password, db.docs[found.value].hashedPassword) {
      return Failure(HttpError(401, LoginFailedMessage));
    }
    var id := found.value;
    var user := db.docs[id];
    db.docs := db.docs[id := user.(lastLogin := Some(now))];
    r := Success(TokenFor(id, user, createToken));
  }

  /** `UserCreate` (auth.py): the body of a self-registration; `role` defaults to "student". */
  datatype Registration = Registration(email: string, password: string, fullName: string,
                                       role: Option<string>)

  function RegisteredUser(data: Registration, hash: string -> string, now: Time): UserDoc
  {
    UserDoc(
      email := data.email,
      hashedPassword := hash(data.password),
      fullName := data.fullName,
      role := if data.role.Some? then data.role.value else StudentRole,
      isActive := true,
      createdAt := Some(now),
      lastLogin := Some(now),
      preferredCategories := [],
      matricNumber := None,
      department := None,
      level := None,
      staffId := None)
  }

  /** `POST /auth/register`: a registered email gets 400 and nothing is inserted. */
  method Register(db: UserCollection, data: Registration, hash: string -> string,
                  createToken: Claims -> string, now: Time, newId: ObjectId)
    returns (r: Result<TokenResponse, HttpError>)
    requires db.Valid() && newId !in db.docs && newId < Limit
    modifies db
    ensures db.Valid()
    ensures EmailRegistered(old(db.docs), data.email) ==>
      r == Failure(HttpError(400, EmailTakenMessage)) && db.docs == old(db.docs)
    ensures !EmailRegistered(old(db.docs), data.email) ==>
      var doc := RegisteredUser(data, hash, now);
      db.docs == old(db.docs)[newId := doc] && r == Success(TokenFor(newId, doc, createToken))
  {
    if FindByEmail(db.docs, data.email).Some? {
      return Failure(HttpError(400, EmailTakenMessage));
    }
    var doc := RegisteredUser(data, hash, now);
    db.docs := db.docs[newId := doc];
    r := Success(TokenFor(newId, doc, createToken));
  }

  /**
   * A registered user is active, has the role asked for or "student", and keeps only the hash
   * of the password.
   */
  lemma RegisteredDefaults(data: Registration, hash: string -> string, now: Time)
    ensures var doc := RegisteredUser(data, hash, now);
      && doc.isActive
      && doc.role == (if data.role.None? then StudentRole else data.role.value)
      && doc.hashedPassword == hash(data.password)
      && doc.email == data.email && doc.fullName == data.fullName
      && doc.createdAt == Some(now) && doc.lastLogin == Some(now)
  {
  }

  /**
   * A token whose claims carry a user's printed id as `sub` (the claims login and register sign,
   * plus whatever else the token helper adds, such as an expiry) authenticates exactly that user.
   */
  lemma IssuedTokenAuthenticates(users: map<ObjectId, UserDoc>, id: ObjectId, token: string,
                                 decode: string -> Option<Claims>)
    requires id in users && id < Limit
    requires decode(token).Some? && "sub" in decode(token).value
    requires decode(token).value["sub"] == SubjectClaims(id)["sub"]
    ensures GetCurrentUser(users, token, decode) == Success(CurrentUser(id, users[id]))
  {
    ParseToString(id);
  }

  /** A document inserted under a free email is the one `find_one` finds by that email. */
  lemma InsertedIsFound(users: map<ObjectId, UserDoc>, id: ObjectId, doc: UserDoc)
    requires EmailsUnique(users) && id !in users && !EmailRegistered(users, doc.email)
    ensures EmailsUnique(users[id := doc])
    ensures FindByEmail(users[id := doc], doc.email) == Some(id)
  {
    var after := users[id := doc];
    assert id in after && after[id].email == doc.email;
  }

  /** A registered user can log in straight away with the password it registered with. */
  lemma RegisteredUserCanLogIn(users: map<ObjectId, UserDoc>, data: Registration,
                               hash: string -> string, verify: (string, string) -> bool,
                               now: Time, newId: ObjectId)
    requires EmailsUnique(users) && newId !in users && !EmailRegistered(users, data.email)
    requires verify(data.password, hash(data.password))
    ensures var after := users[newId := RegisteredUser(data, hash, now)];
      && EmailsUnique(after)
      && FindByEmail(after, data.email) == Some(newId)
      && verify(data.password, after[FindByEmail(after, data.email).value].hashedPassword)
  {
    InsertedIsFound(users, newId, RegisteredUser(data, hash, now));
  }

  /** A token whose claims lack a usable subject never authenticates anyone. */
  lemma NoSubjectNoUser(users: map<ObjectId, UserDoc>, token: string,
                        decode: string -> Option<Claims>)
    requires decode(token).Some?
    requires "sub" !in decode(token).value || decode(token).value["sub"] == JNull
    ensures GetCurrentUser(users, token, decode) == Failure(HttpError(401, CredentialsMessage))
  {
  }
}
