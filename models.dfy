/**
 * The documents the handlers store and the request bodies they accept, with the defaults of
 * their pydantic schemas. A field the source declares `Optional` is an Option here; a field a
 * `$set` may overwrite with null is an Option too, because the store keeps whatever it is sent.
 */
module Models {
  import opened Common
  import opened ObjectIds

  /** A UTC timestamp; the handlers receive "now" as a parameter instead of reading a clock. */
  type Time = int

  /** The category stored when classification fails during creation. */
  const Uncategorized := "Uncategorized"

  /** `NewsCreate`: the body of a create request. */
  datatype NewsCreate = NewsCreate(
    title: string,
    content: string,
    category: Option<string>,
    source: Option<string>,
    tags: seq<string>,
    imageUrl: Option<string>)

  /** A field of an update body: left out by the client, or sent (possibly as null). */
  datatype Field<T> = Unset | Set(value: T)

  /** `NewsUpdate`, as `model_dump(exclude_unset=True)` sees it. */
  datatype NewsUpdate = NewsUpdate(
    title: Field<Option<string>>,
    content: Field<Option<string>>,
    category: Field<Option<string>>,
    source: Field<Option<string>>,
    tags: Field<Option<seq<string>>>,
    imageUrl: Field<Option<string>>,
    isFeatured: Field<Option<bool>>,
    isActive: Field<Option<bool>>)

  /**
   * A document of the `news` collection. `category` holds whatever label was stored (the
   * classifier's label is copied as it came, so it is a JSON value; a client's is a string).
   */
  datatype Article = Article(
    title: Option<string>,
    content: Option<string>,
    category: Json,
    source: Option<string>,
    tags: Option<seq<string>>,
    imageUrl: Option<string>,
    createdAt: Option<Time>,
    updatedAt: Option<Time>,
    createdBy: Option<string>,
    viewsCount: int,
    likesCount: int,
    isFeatured: Option<bool>,
    isActive: Option<bool>,
    confidenceScore: Option<real>)

  /** `UserRole`. */
  datatype Role = Admin | Student
  {
    function Name(): string
    {
      match this
      case Admin => "admin"
      case Student => "student"
    }
  }

  /** The stored spelling of each role. */
  const AdminRole := Admin.Name()
  const StudentRole := Student.Name()

  /** `UserCreate` (users.py): the body of an account creation by the users endpoint. */
  datatype UserCreate = UserCreate(
    email: string,
    fullName: string,
    role: Role,
    isActive: bool,
    password: string,
    matricNumber: Option<string>,
    department: Option<string>,
    staffId: Option<string>)

  /**
   * A document of the `users` collection. There is no plaintext password field: only its hash
   * is ever stored.
   */
  datatype UserDoc = UserDoc(
    email: string,
    hashedPassword: string,
    fullName: string,
    role: string,
    isActive: bool,
    createdAt: Option<Time>,
    lastLogin: Option<Time>,
    preferredCategories: seq<string>,
    matricNumber: Option<string>,
    department: Option<string>,
    level: Option<string>,
    staffId: Option<string>)
}
