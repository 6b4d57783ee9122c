/**
 * The user service: the `users` table as a sequence of rows with a serial
 * key and a unique email, the seeded `roles` table, and the create, partial
 * update and delete flows. Password hashing is a parameter.
 */
module Users {
  import opened Base
  import opened UserEntity
  import opened Collections

  const MSG_USER_NOT_FOUND := "Usuario no encontrado"
  const MSG_INVALID_ROLE := "Rol no válido"
  const MSG_EMAIL_TAKEN := "El correo electrónico ya está registrado"

  /** The data of a create. */
  datatype UserInput = UserInput(name: string, email: string, password: string, role: Role)

  /** The data of an update; `None` is an omitted field. */
  datatype UpdateUserInput = UpdateUserInput(name: Option<string>, email: Option<string>, password: Option<string>, role: Option<Role>)

  /** `if (data.field)`: a field is applied only when given and non-empty. */
  predicate Supplied(v: Option<string>) {
    v.Some? && v.value != ""
  }

  function UserCreatedAtKey(u: PublicUser): real { u.createdAt as real }

  /** The rows as a default select returns them, without passwords. */
  function PublicRows(rows: seq<User>): (r: seq<PublicUser>)
    ensures |r| == |rows| && forall k :: 0 <= k < |rows| ==> r[k] == Selected(rows[k])
  {
    seq(|rows|, k requires 0 <= k < |rows| => Selected(rows[k]))
  }

  predicate HasEmail(rows: seq<User>, email: string) {
    exists k :: 0 <= k < |rows| && rows[k].email == email
  }

  /**
   * `update`'s assignments: each supplied field replaces the stored one, a
   * supplied password by `newHash`, the salted hash `hashPassword` produced
   * for this call; the update time moves exactly when a column changes.
   */
  function Changed(u: User, data: UpdateUserInput, newHash: string, now: int): (r: User)
    ensures r.id == u.id && r.createdAt == u.createdAt
    ensures !Supplied(data.name) ==> r.name == u.name
    ensures Supplied(data.name) ==> r.name == data.name.value
    ensures !Supplied(data.email) ==> r.email == u.email
    ensures Supplied(data.email) ==> r.email == data.email.value
    ensures data.role.None? ==> r.role == u.role
    ensures data.role.Some? ==> r.role == data.role.value
    ensures !Supplied(data.password) ==> r.password == u.password
    ensures Supplied(data.password) ==> r.password == newHash
    ensures r.(updatedAt := u.updatedAt) == u ==> r == u
    ensures r.(updatedAt := u.updatedAt) != u ==> r.updatedAt == now
  {
    var edited := u.(
      name := if Supplied(data.name) then data.name.value else u.name,
      email := if Supplied(data.email) then data.email.value else u.email,
      role := if data.role.Some? then data.role.value else u.role,
      password := if Supplied(data.password) then newHash else u.password);
    if edited == u then u else edited.(updatedAt := now)
  }

  /** Every key lies in `[1, nextId)`: the serial has not handed it out yet when it is `nextId` or more. */
  ghost predicate KeysBelow(rows: seq<User>, nextId: int) {
    forall k :: 0 <= k < |rows| ==> 1 <= rows[k].id < nextId
  }

  /** The position of the row with key `id`, or -1 when there is none. */
  function IndexOfId(rows: seq<User>, id: int): (k: int)
    ensures -1 <= k < |rows|
    ensures k >= 0 ==> rows[k].id == id
    ensures k == -1 <==> forall j :: 0 <= j < |rows| ==> rows[j].id != id
  {
    FindIndex(rows, (u: User) => u.id == id)
  }

  /** Taking a row out keeps ids and emails unique, and its id is then absent. */

  lemma RemoveKeepsUnique(rows: seq<User>, k: nat, nextId: int)
    requires k < |rows| && UniqueUserIds(rows) && UniqueEmails(rows) && KeysBelow(rows, nextId)
    ensures UniqueUserIds(RemoveAt(rows, k)) && UniqueEmails(RemoveAt(rows, k)) && KeysBelow(RemoveAt(rows, k), nextId)
    ensures forall j :: 0 <= j < |RemoveAt(rows, k)| ==> RemoveAt(rows, k)[j].id != rows[k].id
    ensures forall u :: u in RemoveAt(rows, k) ==> u in rows
  {
    var r := RemoveAt(rows, k);
    forall i, j | 0 <= i < j < |r|
      ensures r[i].id != r[j].id && r[i].email != r[j].email
    {
      var i' := if i < k then i else i + 1;
      var j' := if j < k then j else j + 1;
      assert r[i] == rows[i'] && r[j] == rows[j'] && i' < j';
    }
    forall j | 0 <= j < |r|
      ensures r[j].id != rows[k].id && 1 <= r[j].id < nextId
    {
      var j' := if j < k then j else j + 1;
      assert r[j] == rows[j'] && j' != k;
    }
  }

  class UserService {
    /** The rows of the `users` table, in insertion order. */
    var rows: seq<User>
    /** The next value of the serial primary key. */
    var nextId: int
    /** The roles present in the `roles` table. */
    const roles: set<Role>

    ghost predicate Valid()
      reads this
    {
      && nextId >= 1
      && UniqueUserIds(rows)
      && UniqueEmails(rows)
      && KeysBelow(rows, nextId)
    }

    constructor (seeded: set<Role>)
      ensures Valid() && rows == [] && nextId == 1 && roles == seeded
    {
      rows := [];
      nextId := 1;
      roles := seeded;
    }

    /** `list`: every user, newest first, without passwords. */
    function List(): (r: seq<PublicUser>)
      reads this
      ensures Sorted(r, UserCreatedAtKey, true)
      ensures multiset(r) == multiset(PublicRows(rows))
    {
      Sort(PublicRows(rows), UserCreatedAtKey, true)
    }

    /** `getById`: the user with that id, without password, or 404. */
    function GetById(id: int): (r: Result<PublicUser>)
      reads this
      ensures r.Ok? <==> exists k :: 0 <= k < |rows| && rows[k].id == id
      ensures r.Ok? ==> exists k :: 0 <= k < |rows| && rows[k].id == id && r.value == Selected(rows[k])
      ensures r.Err? ==> r.error == AppError(NOT_FOUND, MSG_USER_NOT_FOUND)
    {
      var k := IndexOfId(rows, id);
      if k < 0 then Err(AppError(NOT_FOUND, MSG_USER_NOT_FOUND)) else Ok(Selected(rows[k]))
    }

    /** `findByEmailWithPassword`: the row with that email, password included, if any. */
    function FindByEmailWithPassword(email: string): (r: Option<User>)
      reads this
      ensures r.Some? ==> r.value in rows && r.value.email == email
      ensures r.None? <==> !HasEmail(rows, email)
    {
      var k := FindIndex(rows, (u: User) => u.email == email);
      if k < 0 then None else Some(rows[k])
    }

    /** `findRole`: the seeded role, or 400. */
    function FindRole(role: Role): (r: Result<Role>)
      reads this
      ensures r.Ok? <==> role in roles
      ensures r.Ok? ==> r.value == role
      ensures r.Err? ==> r.error == AppError(BAD_REQUEST, MSG_INVALID_ROLE)
    {
      if role in roles then Ok(role) else Err(AppError(BAD_REQUEST, MSG_INVALID_ROLE))
    }

    /**
     * `create`: 409 for a registered email (before the role lookup and the
     * hashing), 400 for a role missing from `roles`, otherwise a new row
     * holding the hash of the password.
     */
    method Create(data: UserInput, hash: string -> string, now: int) returns (r: Result<PublicUser>)
      requires Valid()
      modifies this
      ensures Valid()
      ensures old(HasEmail(rows, data.email)) ==>
        r == Err(AppError(CONFLICT, MSG_EMAIL_TAKEN)) && rows == old(rows) && nextId == old(nextId)
      ensures !old(HasEmail(rows, data.email)) && data.role !in roles ==>
        r == Err(AppError(BAD_REQUEST, MSG_INVALID_ROLE)) && rows == old(rows) && nextId == old(nextId)
      ensures !old(HasEmail(rows, data.email)) && data.role in roles ==>
        var u := User(old(nextId), data.name, data.email, hash(data.password), data.role, now, now);
        rows == old(rows) + [u] && nextId == old(nextId) + 1 && r == Ok(Selected(u))
    {
      if FindByEmailWithPassword(data.email).Some? {
        return Err(AppError(CONFLICT, MSG_EMAIL_TAKEN));
      }
      var role :- FindRole(data.role);
      var u := User(nextId, data.name, data.email, hash(data.password), role, now, now);
      rows := rows + [u];
      nextId := nextId + 1;
      r := Ok(Selected(u));
    }

    /**
     * `update`: 404 for an unknown id; 409 when a supplied email differs from
     * the user's own and another row holds it; 400 for a role missing from
     * `roles`; otherwise only the supplied fields change. A failure changes
     * nothing.
     */
    method Update(id: int, data: UpdateUserInput, newHash: string, now: int) returns (r: Result<PublicUser>)
      requires Valid()
      modifies this
      ensures Valid() && nextId == old(nextId)
      ensures r.Err? ==> rows == old(rows)
      ensures old(GetById(id)).Err? ==> r == Err(AppError(NOT_FOUND, MSG_USER_NOT_FOUND))
      ensures (old(GetById(id)).Ok? && Supplied(data.email) && data.email.value != old(GetById(id)).value.email
        && old(HasEmail(rows, data.email.value))) ==> r == Err(AppError(CONFLICT, MSG_EMAIL_TAKEN))
      ensures r.Ok? ==> exists k :: (0 <= k < |old(rows)| && old(rows)[k].id == id
        && rows == old(rows)[k := Changed(old(rows)[k], data, newHash, now)]
        && r.value == Selected(rows[k]))
      ensures r.Ok? <==> (old(GetById(id)).Ok?
        && !(Supplied(data.email) && data.email.value != old(GetById(id)).value.email && old(HasEmail(rows, data.email.value)))
        && (data.role.Some? ==> data.role.value in roles))
    {
      var k := IndexOfId(rows, id);
      if k < 0 {
        return Err(AppError(NOT_FOUND, MSG_USER_NOT_FOUND));
      }
      var user := rows[k];
      if Supplied(data.email) && data.email.value != user.email {
        if FindByEmailWithPassword(data.email.value).Some? {
          return Err(AppError(CONFLICT, MSG_EMAIL_TAKEN));
        }
      }
      if data.role.Some? {
        var _ :- FindRole(data.role.value);
      }
      var updated := Changed(user, data, newHash, now);
      rows := rows[k := updated];
      r := Ok(Selected(updated));
    }

    /** `delete`: removes exactly the row with that id, or 404. */
    method Delete(id: int) returns (r: Result<()>)
      requires Valid()
      modifies this
      ensures Valid() && nextId == old(nextId)
      ensures old(GetById(id)).Err? ==> r == Err(AppError(NOT_FOUND, MSG_USER_NOT_FOUND)) && rows == old(rows)
      ensures old(GetById(id)).Ok? ==>
        r == Ok(()) && 0 <= IndexOfId(old(rows), id) && rows == RemoveAt(old(rows), IndexOfId(old(rows), id))
      ensures GetById(id).Err?
    {
      var k := IndexOfId(rows, id);
      if k < 0 {
        return Err(AppError(NOT_FOUND, MSG_USER_NOT_FOUND));
      }
      RemoveKeepsUnique(rows, k, nextId);
      rows := RemoveAt(rows, k);
      assert IndexOfId(rows, id) == -1;
      r := Ok(());
    }
  }
}
