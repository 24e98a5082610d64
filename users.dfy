/**
 * The user handlers (app/routers/users.py): account creation with its role-specific required
 * fields, the preference update, and the admin guard.
 */
module Users {
  import opened Common
  import opened ObjectIds
  import opened Models
  import opened Database
  import opened Auth

  const MatricRequiredMessage := "Matric number is required for students"
  const StaffIdRequiredMessage := "Staff ID is required for admin users"
  const AdminOnlyMessage := "Only admin users can access this endpoint"
  const PreferencesUpdatedMessage := "Preferences updated successfully"

  /**
   * The checks create_user makes before inserting, in their order: the email is free, a
   * student has a matric number, an admin has a staff id (neither None nor "").
   */
  function CheckNewUser(users: map<ObjectId, UserDoc>, user: UserCreate): (r: Option<HttpError>)
    ensures r.None? <==>
      && !EmailRegistered(users, user.email)
      && (user.role == Student ==> Truthy(user.matricNumber))
      && (user.role == Admin ==> Truthy(user.staffId))
    ensures EmailRegistered(users, user.email) ==> r == Some(HttpError(400, EmailTakenMessage))
    ensures !EmailRegistered(users, user.email) && user.role == Student && !Truthy(user.matricNumber)
      ==> r == Some(HttpError(400, MatricRequiredMessage))
    ensures !EmailRegistered(users, user.email) && user.role == Admin && !Truthy(user.staffId)
      ==> r == Some(HttpError(400, StaffIdRequiredMessage))
  {
    if exists id :: id in users && users[id].email == user.email then
      Some(HttpError(400, EmailTakenMessage))
    else if user.role == Student && !Truthy(user.matricNumber) then
      Some(HttpError(400, MatricRequiredMessage))
    else if user.role == Admin && !Truthy(user.staffId) then
      Some(HttpError(400, StaffIdRequiredMessage))
    else None
  }

  /** `user.model_dump()` with `password` popped and replaced by `hashed_password`. */
  function NewUserDoc(user: UserCreate, hash: string -> string): UserDoc
  {
    UserDoc(
      email := user.email,
      hashedPassword := hash(user.password),
      fullName := user.fullName,
      role := user.role.Name(),
      isActive := user.isActive,
      createdAt := None,
      lastLogin := None,
      preferredCategories := [],
      matricNumber := user.matricNumber,
      department := user.department,
      level := None,
      staffId := user.staffId)
  }

  /** `POST /users`: insert only when the checks pass. */
  method CreateUser(db: UserCollection, user: UserCreate, hash: string -> string, newId: ObjectId)
    returns (r: Result<UserDoc, HttpError>)
    requires db.Valid() && newId !in db.docs && newId < Limit
    modifies db
    ensures db.Valid()
    ensures r.Failure? <==> CheckNewUser(old(db.docs), user).Some?
    ensures r.Failure? ==> r.error == CheckNewUser(old(db.docs), user).value && db.docs == old(db.docs)
    ensures r.Success? ==>
      r.value == NewUserDoc(user, hash) && db.docs == old(db.docs)[newId := r.value]
  {
    var problem := CheckNewUser(db.docs, user);
    if problem.Some? {
      return Failure(problem.value);
    }
    var doc := NewUserDoc(user, hash);
    db.docs := db.docs[newId := doc];
    r := Success(doc);
  }

  /**
   * A created user can log in: its email now finds the new document, and the password it was
   * created with passes `verify` against the stored hash whenever `verify` accepts a password
   * against its own hash.
   */
  lemma CreatedUserCanLogIn(users: map<ObjectId, UserDoc>, user: UserCreate, hash: string -> string,
                            verify: (string, string) -> bool, newId: ObjectId)
    requires EmailsUnique(users) && newId !in users
    requires CheckNewUser(users, user).None?
    requires verify(user.password, hash(user.password))
    ensures var after := users[newId := NewUserDoc(user, hash)];
      && EmailsUnique(after)
      && FindByEmail(after, user.email) == Some(newId)
      && verify(user.password, after[FindByEmail(after, user.email).value].hashedPassword)
  {
    InsertedIsFound(users, newId, NewUserDoc(user, hash));
  }

  /** `PUT /users/me/preferences`: replace the current user's list, nothing else. */
  method UpdatePreferences(db: UserCollection, current: CurrentUser, categories: seq<string>)
    returns (message: string)
    requires db.Valid()
    modifies db
    ensures db.Valid()
    ensures message == PreferencesUpdatedMessage
    ensures db.docs == if current.id in old(db.docs)
      then old(db.docs)[current.id := old(db.docs)[current.id].(preferredCategories := categories)]
      else old(db.docs)
  {
    if current.id in db.docs {
      db.docs := db.docs[current.id := db.docs[current.id].(preferredCategories := categories)];
    }
    message := PreferencesUpdatedMessage;
  }

  /** `get_current_admin`: any role but "admin" gets 403; an admin passes unchanged. */
  function GetCurrentAdmin(user: CurrentUser): (r: Result<CurrentUser, HttpError>)
    ensures r.Success? <==> user.doc.role == AdminRole
    ensures r.Success? ==> r.value == user
    ensures r.Failure? ==> r.error == HttpError(403, AdminOnlyMessage)
  {
    if user.doc.role != AdminRole then Failure(HttpError(403, AdminOnlyMessage)) else Success(user)
  }

  /** The dependency chain of an admin endpoint: token, then active, then admin. */
  function AdminFromToken(users: map<ObjectId, UserDoc>, token: string,
                          decode: string -> Option<Claims>): (r: Result<CurrentUser, HttpError>)
    ensures r.Success? <==>
      && GetCurrentUser(users, token, decode).Success?
      && GetCurrentUser(users, token, decode).value.doc.isActive
      && GetCurrentUser(users, token, decode).value.doc.role == AdminRole
    ensures r.Success? ==> r == GetCurrentUser(users, token, decode)
    ensures GetCurrentUser(users, token, decode).Failure? ==> r.Failure? && r.error.status == 401
    ensures GetCurrentUser(users, token, decode).Success? && !GetCurrentUser(users, token, decode).value.doc.isActive
      ==> r == Failure(HttpError(400, InactiveMessage))
    ensures GetCurrentUser(users, token, decode).Success? && GetCurrentUser(users, token, decode).value.doc.isActive
      && GetCurrentUser(users, token, decode).value.doc.role != AdminRole
      ==> r == Failure(HttpError(403, AdminOnlyMessage))
  {
    match ActiveUserFromToken(users, token, decode)
    case Failure(e) => Failure(e)
    case Success(user) => GetCurrentAdmin(user)
  }
}
