/**
 * The `User` and `Role` entities: a user row, the two seeded role names, the
 * column limits, and the password column that default selects leave out.
 */
module UserEntity {
  import opened Base

  /** The closed set of role names. */
  datatype Role = Admin | Advisor {
    function Name(): string {
      match this
      case Admin => "Administrador"
      case Advisor => "Asesor"
    }
  }

  const ROLE_NAMES: seq<string> := ["Administrador", "Asesor"]

  /** Looks up a role by its name, as an enum membership test or a `roles` row lookup does. */
  function RoleFromName(name: string): (r: Option<Role>)
    ensures r.Some? ==> r.value.Name() == name
    ensures r.None? <==> name !in ROLE_NAMES
  {
    if name == Admin.Name() then Some(Admin)
    else if name == Advisor.Name() then Some(Advisor)
    else None
  }

  lemma RoleNameRoundTrip(r: Role)
    ensures RoleFromName(r.Name()) == Some(r)
  {
  }

  const NAME_MAX_LENGTH := 50
  const EMAIL_MAX_LENGTH := 50
  const PASSWORD_COLUMN_LENGTH := 100

  /** A full `users` row, password hash included; timestamps are store-assigned instants. */
  datatype User = User(
    id: int,
    name: string,
    email: string,
    password: string,
    role: Role,
    createdAt: int,
    updatedAt: int)

  /** A row as a default select returns it: the password column is not selected. */
  datatype PublicUser = PublicUser(
    id: int,
    name: string,
    email: string,
    role: Role,
    createdAt: int,
    updatedAt: int)

  /** The JSON shape of a user in API responses, role flattened to its name (the frontend's `User`). */
  datatype UserResponse = UserResponse(
    id: int,
    name: string,
    email: string,
    role: string,
    createdAt: int,
    updatedAt: int)

  /** A default select: every column but the password. */
  function Selected(u: User): (p: PublicUser)
    ensures p.id == u.id && p.email == u.email && p.role == u.role
    ensures p.name == u.name && p.createdAt == u.createdAt && p.updatedAt == u.updatedAt
  {
    PublicUser(u.id, u.name, u.email, u.role, u.createdAt, u.updatedAt)
  }

  /** The `varchar` limits of the `users` table. */
  predicate UserColumnsFit(u: User) {
    |u.name| <= NAME_MAX_LENGTH && |u.email| <= EMAIL_MAX_LENGTH && |u.password| <= PASSWORD_COLUMN_LENGTH
  }

  /** The unique constraint on `email`. */
  predicate UniqueEmails(users: seq<User>) {
    forall i, j :: 0 <= i < j < |users| ==> users[i].email != users[j].email
  }

  /** The primary key on `id`. */
  predicate UniqueUserIds(users: seq<User>) {
    forall i, j :: 0 <= i < j < |users| ==> users[i].id != users[j].id
  }
}
