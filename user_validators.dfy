/**
 * The request validators of the user routes. A rule chain rejects its field
 * when any of its rules fails; the model computes the set of rejected fields.
 */
module UserValidators {
  import opened Base
  import opened Js
  import opened UserEntity
  import Users

  /** The JSON body of a create or update request. */
  datatype UserBody = UserBody(name: Value, email: Value, password: Value, role: Value)

  const PASSWORD_MIN_LENGTH := 6
  const PASSWORD_MAX_LENGTH := 20

  /** `isString().isLength({ min: 1, max: 50 })`. */
  predicate NameOk(v: Value) {
    v.Str? && 1 <= |v.s| <= NAME_MAX_LENGTH
  }

  /** `isString().isLength({ max: 50 }).isEmail()`. */
  predicate EmailOk(v: Value, fmt: Formats) {
    v.Str? && |v.s| <= EMAIL_MAX_LENGTH && fmt.isEmail(v.s)
  }

  /** `isString().isLength({ min: 6, max: 20 })`. */
  predicate PasswordOk(v: Value) {
    v.Str? && PASSWORD_MIN_LENGTH <= |v.s| <= PASSWORD_MAX_LENGTH
  }

  /** `isIn(roleValues)`. */
  predicate RoleOk(v: Value) {
    v.Str? && v.s in ROLE_NAMES
  }

  /** The fields `createUserValidator` rejects. */
  function CreateUserErrors(b: UserBody, fmt: Formats): (fields: set<string>)
    ensures "name" in fields <==> !NameOk(b.name)
    ensures "email" in fields <==> !EmailOk(b.email, fmt)
    ensures "password" in fields <==> !PasswordOk(b.password)
    ensures "role" in fields <==> !RoleOk(b.role)
    ensures fields <= {"name", "email", "password", "role"}
  {
    (if NameOk(b.name) then {} else {"name"})
    + (if EmailOk(b.email, fmt) then {} else {"email"})
    + (if PasswordOk(b.password) then {} else {"password"})
    + (if RoleOk(b.role) then {} else {"role"})
  }

  /** The fields `updateUserValidator` rejects: a falsy field is skipped, any other is held to the create rule. */
  function UpdateUserErrors(b: UserBody, fmt: Formats): (fields: set<string>)
    ensures "name" in fields <==> Truthy(b.name) && !NameOk(b.name)
    ensures "email" in fields <==> Truthy(b.email) && !EmailOk(b.email, fmt)
    ensures "password" in fields <==> Truthy(b.password) && !PasswordOk(b.password)
    ensures "role" in fields <==> Truthy(b.role) && !RoleOk(b.role)
    ensures !Truthy(b.name) && !Truthy(b.email) && !Truthy(b.password) && !Truthy(b.role) ==> fields == {}
  {
    (if !Truthy(b.name) || NameOk(b.name) then {} else {"name"})
    + (if !Truthy(b.email) || EmailOk(b.email, fmt) then {} else {"email"})
    + (if !Truthy(b.password) || PasswordOk(b.password) then {} else {"password"})
    + (if !Truthy(b.role) || RoleOk(b.role) then {} else {"role"})
  }

  /** An update rule accepts exactly what the create rule accepts, plus every falsy value. */
  lemma UpdateRelaxesCreate(b: UserBody, fmt: Formats)
    ensures UpdateUserErrors(b, fmt) <= CreateUserErrors(b, fmt)
    ensures CreateUserErrors(b, fmt) == {} ==> UpdateUserErrors(b, fmt) == {}
  {
  }

  /** The service input an accepted create body becomes. */
  function CreateInput(b: UserBody): (r: Option<Users.UserInput>)
    ensures r.Some? ==> (b.name == Str(r.value.name) && b.email == Str(r.value.email)
      && b.password == Str(r.value.password) && b.role == Str(r.value.role.Name()))
  {
    if b.name.Str? && b.email.Str? && b.password.Str? && b.role.Str? then
      match RoleFromName(b.role.s)
      case None => None
      case Some(role) => Some(Users.UserInput(b.name.s, b.email.s, b.password.s, role))
    else None
  }

  /** An accepted create body yields an input that fits the `users` columns. */
  lemma AcceptedCreateFits(b: UserBody, fmt: Formats)
    requires CreateUserErrors(b, fmt) == {}
    ensures CreateInput(b).Some?
    ensures 1 <= |CreateInput(b).value.name| <= NAME_MAX_LENGTH
    ensures |CreateInput(b).value.email| <= EMAIL_MAX_LENGTH && fmt.isEmail(CreateInput(b).value.email)
    ensures PASSWORD_MIN_LENGTH <= |CreateInput(b).value.password| <= PASSWORD_MAX_LENGTH
  {
    assert RoleOk(b.role);
  }

  /** A text field of an update body as the service sees it: any other falsy value is absent. */
  function TextField(v: Value): Option<string> {
    if v.Str? then Some(v.s) else None
  }

  /** The service input an update body becomes. */
  function UpdateInput(b: UserBody): Users.UpdateUserInput {
    Users.UpdateUserInput(TextField(b.name), TextField(b.email), TextField(b.password),
      if b.role.Str? then RoleFromName(b.role.s) else None)
  }

  /**
   * In an accepted update body, exactly the truthy fields are applied by the
   * service, and each of them meets the create rule.
   */
  lemma AcceptedUpdateFields(b: UserBody, fmt: Formats)
    requires UpdateUserErrors(b, fmt) == {}
    ensures Users.Supplied(UpdateInput(b).name) <==> Truthy(b.name)
    ensures Users.Supplied(UpdateInput(b).email) <==> Truthy(b.email)
    ensures Users.Supplied(UpdateInput(b).password) <==> Truthy(b.password)
    ensures UpdateInput(b).role.Some? <==> Truthy(b.role)
    ensures Users.Supplied(UpdateInput(b).name) ==> |UpdateInput(b).name.value| <= NAME_MAX_LENGTH
    ensures Users.Supplied(UpdateInput(b).email) ==> |UpdateInput(b).email.value| <= EMAIL_MAX_LENGTH
    ensures Users.Supplied(UpdateInput(b).password) ==>
      PASSWORD_MIN_LENGTH <= |UpdateInput(b).password.value| <= PASSWORD_MAX_LENGTH
  {
    if Truthy(b.role) {
      assert RoleOk(b.role);
    }
  }
}
