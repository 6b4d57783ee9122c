/**
 * The user form of the client: the schema its values are checked against,
 * the create-only rule that a password must be given, and the payload it
 * submits. The form's text fields always hold text; the password may be
 * absent. The email-format check of the form library is a parameter.
 */
module UserForm {
  import opened Base
  import opened Js
  import opened UserEntity
  import opened UserValidators

  /** The form's values; `isEdit` tells editing from creating. */
  datatype UserFormValues = UserFormValues(name: string, email: string, password: Option<string>, role: string)

  /** `z.string().min(6).max(20)`: zod compares `length`, the count of UTF-16 code units. */
  predicate PasswordLengthOk(p: string) {
    PASSWORD_MIN_LENGTH <= Utf16Length(p) <= PASSWORD_MAX_LENGTH
  }

  /** `Boolean(data.password)`. */
  predicate PasswordGiven(v: UserFormValues) {
    v.password.Some? && v.password.value != ""
  }

  /**
   * The fields the schema's own checks report, before the create-only rule.
   * Every bound counts UTF-16 code units.
   */
  function SchemaIssues(v: UserFormValues, zodEmail: string -> bool): (fields: set<string>)
    ensures "name" in fields <==> !(1 <= Utf16Length(v.name) <= NAME_MAX_LENGTH)
    ensures "email" in fields <==> !(zodEmail(v.email) && Utf16Length(v.email) <= EMAIL_MAX_LENGTH)
    ensures "role" in fields <==> v.role !in ROLE_NAMES
    ensures "password" in fields <==> v.password.Some? && !PasswordLengthOk(v.password.value)
    ensures fields <= {"name", "email", "password", "role"}
  {
    (if 1 <= Utf16Length(v.name) <= NAME_MAX_LENGTH then {} else {"name"})
    + (if zodEmail(v.email) && Utf16Length(v.email) <= EMAIL_MAX_LENGTH then {} else {"email"})
    + (if v.password.Some? && !PasswordLengthOk(v.password.value) then {"password"} else {})
    + (if v.role in ROLE_NAMES then {} else {"role"})
  }

  /**
   * The fields the form reports as written: the schema's checks, and, when
   * creating and the role is valid (a bad role stops the object before the
   * rule runs), a missing password.
   */
  function FormIssuesAsWritten(v: UserFormValues, isEdit: bool, zodEmail: string -> bool): (fields: set<string>)
    ensures SchemaIssues(v, zodEmail) <= fields
    ensures "password" in fields <==>
      (v.password.Some? && !PasswordLengthOk(v.password.value)) || (!isEdit && v.role in ROLE_NAMES && !PasswordGiven(v))
    ensures fields - {"password"} == SchemaIssues(v, zodEmail) - {"password"}
  {
    SchemaIssues(v, zodEmail) + (if !isEdit && v.role in ROLE_NAMES && !PasswordGiven(v) then {"password"} else {})
  }

  /**
   * The form opened for editing holds an empty password, and as written the
   * length check refuses it in edit mode too: an edit that leaves the
   * password alone cannot be submitted.
   */
  lemma EditWithBlankPasswordRefused(name: string, email: string, role: string, zodEmail: string -> bool)
    ensures "password" in FormIssuesAsWritten(UserFormValues(name, email, Some(""), role), true, zodEmail)
  {
    assert !PasswordLengthOk("");
  }

  /**
   * The fields the form reports once an empty password is allowed, as the
   * edit mode intends, and the password is counted in characters, as the
   * server counts it: the length check applies to a non-empty password, and
   * creating still needs one.
   */
  function FormIssues(v: UserFormValues, isEdit: bool, zodEmail: string -> bool): (fields: set<string>)
    ensures "password" in fields <==>
      (PasswordGiven(v) && !PasswordOk(Str(v.password.value))) || (!isEdit && v.role in ROLE_NAMES && !PasswordGiven(v))
    ensures fields - {"password"} == SchemaIssues(v, zodEmail) - {"password"}
    ensures v.password != Some("") && (v.password.Some? ==> NoAstral(v.password.value)) ==>
      fields == FormIssuesAsWritten(v, isEdit, zodEmail)
  {
    (SchemaIssues(v, zodEmail) - {"password"})
    + (if PasswordGiven(v) && !PasswordOk(Str(v.password.value)) then {"password"} else {})
    + (if !isEdit && v.role in ROLE_NAMES && !PasswordGiven(v) then {"password"} else {})
  }

  /** `submit`: when editing without a password the payload leaves it out; otherwise the values go as they are. */
  function Submitted(v: UserFormValues, isEdit: bool): (p: UserFormValues)
    ensures p.name == v.name && p.email == v.email && p.role == v.role
    ensures isEdit && !PasswordGiven(v) ==> p.password.None?
    ensures !(isEdit && !PasswordGiven(v)) ==> p.password == v.password
  {
    if isEdit && !PasswordGiven(v) then v.(password := None) else v
  }

  /** The JSON body the payload is sent as; a left-out password is absent. */
  function Body(p: UserFormValues): UserBody {
    UserBody(Str(p.name), Str(p.email), if p.password.Some? then Str(p.password.value) else Undefined, Str(p.role))
  }

  /**
   * With the corrected rule an edit that leaves the password empty is
   * accepted when the other fields are, and its payload carries no password,
   * so the stored hash is kept.
   */
  lemma EditWithBlankPasswordAccepted(name: string, email: string, role: string, zodEmail: string -> bool)
    requires SchemaIssues(UserFormValues(name, email, None, role), zodEmail) == {}
    ensures var v := UserFormValues(name, email, Some(""), role);
      FormIssues(v, true, zodEmail) == {} && Submitted(v, true).password.None?
  {
    var v := UserFormValues(name, email, Some(""), role);
    var w := UserFormValues(name, email, None, role);
    assert "name" !in SchemaIssues(w, zodEmail) && "email" !in SchemaIssues(w, zodEmail) && "role" !in SchemaIssues(w, zodEmail);
    assert SchemaIssues(v, zodEmail) - {"password"} == {};
  }

  /**
   * A creation the form accepts is accepted by the server's create rules,
   * given that the form's email check accepts no more than the server's.
   */
  lemma AcceptedCreatePassesServer(v: UserFormValues, zodEmail: string -> bool, fmt: Formats)
    requires FormIssues(v, false, zodEmail) == {}
    requires zodEmail(v.email) ==> fmt.isEmail(v.email)
    ensures CreateUserErrors(Body(Submitted(v, false)), fmt) == {}
  {
    assert "name" !in SchemaIssues(v, zodEmail) && "email" !in SchemaIssues(v, zodEmail) && "role" !in SchemaIssues(v, zodEmail);
    assert "password" !in FormIssues(v, false, zodEmail);
  }

  /**
   * An edit the corrected form accepts is accepted by the server's update
   * rules, and its payload carries a password only when one was typed.
   */
  lemma AcceptedEditPassesServer(v: UserFormValues, zodEmail: string -> bool, fmt: Formats)
    requires FormIssues(v, true, zodEmail) == {}
    requires zodEmail(v.email) ==> fmt.isEmail(v.email)
    ensures UpdateUserErrors(Body(Submitted(v, true)), fmt) == {}
    ensures Submitted(v, true).password.Some? <==> PasswordGiven(v)
  {
    assert "name" !in SchemaIssues(v, zodEmail) && "email" !in SchemaIssues(v, zodEmail) && "role" !in SchemaIssues(v, zodEmail);
    assert "password" !in FormIssues(v, true, zodEmail);
  }

  /**
   * As written, a creation the form accepts is refused by the server exactly
   * when its password has fewer than six characters: zod's bounds, counted
   * in UTF-16 code units, imply the server's upper bounds but not its lower
   * bound on the password.
   */
  lemma AcceptedCreateAsWritten(v: UserFormValues, zodEmail: string -> bool, fmt: Formats)
    requires FormIssuesAsWritten(v, false, zodEmail) == {}
    requires zodEmail(v.email) ==> fmt.isEmail(v.email)
    ensures v.password.Some?
    ensures CreateUserErrors(Body(Submitted(v, false)), fmt) ==
      (if |v.password.value| < PASSWORD_MIN_LENGTH then {"password"} else {})
    ensures NoAstral(v.password.value) ==> CreateUserErrors(Body(Submitted(v, false)), fmt) == {}
  {
    assert "name" !in SchemaIssues(v, zodEmail) && "email" !in SchemaIssues(v, zodEmail) && "role" !in SchemaIssues(v, zodEmail);
    assert "password" !in FormIssuesAsWritten(v, false, zodEmail);
  }

  /**
   * A password of three emoji is six UTF-16 code units but three characters:
   * as written the form accepts it and the server's create rules refuse it.
   */
  lemma AstralPasswordPassesFormOnly(name: string, email: string, role: string, zodEmail: string -> bool, fmt: Formats)
    requires SchemaIssues(UserFormValues(name, email, None, role), zodEmail) == {}
    ensures var v := UserFormValues(name, email, Some("\U{1F600}\U{1F600}\U{1F600}"), role);
      FormIssuesAsWritten(v, false, zodEmail) == {} && "password" in CreateUserErrors(Body(Submitted(v, false)), fmt)
  {
    var p := "\U{1F600}\U{1F600}\U{1F600}";
    var v := UserFormValues(name, email, Some(p), role);
    var w := UserFormValues(name, email, None, role);
    assert Utf16Length(p[2..]) == 2;
    assert Utf16Length(p[1..]) == 4;
    assert Utf16Length(p) == 6;
    assert "name" !in SchemaIssues(w, zodEmail) && "email" !in SchemaIssues(w, zodEmail) && "role" !in SchemaIssues(w, zodEmail);
    assert SchemaIssues(v, zodEmail) == {};
  }
}
