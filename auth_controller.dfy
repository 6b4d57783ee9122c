/**
 * The authentication controller: login (captcha, then user, then password,
 * then a signed token), the current-user endpoint, and the user shape both
 * return. Password comparison and token signing are parameters.
 */
module AuthController {
  import opened Base
  import opened Js
  import opened UserEntity
  import opened Users
  import opened Captcha
  import opened Jwt
  import opened AuthMiddleware
  import opened AuthValidators

  const MSG_INVALID_CAPTCHA := "Captcha inválido"
  const MSG_BAD_CREDENTIALS := "Credenciales inválidas"

  /** The body of a successful login. */
  datatype LoginResponse = LoginResponse(token: string, user: UserResponse)

  /** `mapUserResponse`: the public fields, the role by its name. */
  function MapUserResponse(u: PublicUser): (r: UserResponse)
    ensures r.id == u.id && r.name == u.name && r.email == u.email && r.role == u.role.Name()
    ensures r.createdAt == u.createdAt && r.updatedAt == u.updatedAt
  {
    UserResponse(u.id, u.name, u.email, u.role.Name(), u.createdAt, u.updatedAt)
  }

  /** The response shape loses nothing but the password: the row's public part can be read back from it. */
  lemma MapUserResponseInjective(a: PublicUser, b: PublicUser)
    requires MapUserResponse(a) == MapUserResponse(b)
    ensures a == b
  {
    RoleNameRoundTrip(a.role);
    RoleNameRoundTrip(b.role);
  }

  /** The claims signed into the token of a user: id, email and role name. */
  function ClaimsFor(u: User): (c: TokenClaims)
    ensures c.sub == u.id as real && c.email == u.email && c.role == u.role.Name()
  {
    TokenClaims(u.id as real, u.email, u.role.Name())
  }

  /**
   * A token issued at login, presented back as a bearer token and accepted
   * by the signature check, authenticates as the same user with the same
   * role; only administrators then pass the users router.
   */
  lemma IssuedTokenAuthenticates(u: User, token: string, verify: string -> VerifyOutcome, fmt: Formats)
    requires verify(token) == Verified(ObjectPayload(Number(Finite(u.id as real)), Str(u.email), Str(u.role.Name())))
    ensures Authentication(Some(BEARER + token), verify, fmt) == Ok(RequestUser(u.id as real, u.email, u.role.Name()))
    ensures Authorize(Some(RequestUser(u.id as real, u.email, u.role.Name())), USERS_ROLES).Ok? <==> u.role == Admin
  {
    BearerRoundTrip(token);
    ClaimsRoundTrip(ClaimsFor(u), fmt);
    RouterGates(RequestUser(u.id as real, u.email, u.role.Name()));
  }

  class AuthController {
    const captcha: CaptchaService
    const users: UserService

    constructor (captcha: CaptchaService, users: UserService)
      ensures this.captcha == captcha && this.users == users
    {
      this.captcha := captcha;
      this.users := users;
    }

    /**
     * `login`: the captcha is consumed first, whatever happens next; a failed
     * captcha gives 400 before any lookup; an unknown email and a wrong
     * password give the same 401; otherwise the token of the user's claims
     * and the user's public fields.
     */
    method Login(input: LoginInput, compare: (string, string) -> bool, sign: TokenClaims -> string, now: real)
      returns (r: Result<LoginResponse>)
      requires users.Valid()
      modifies captcha
      ensures captcha.store == old(captcha.store) - {input.captchaId}
      ensures !Validated(old(captcha.store), input.captchaId, input.captchaValue, now) ==>
        r == Err(AppError(BAD_REQUEST, MSG_INVALID_CAPTCHA))
      ensures (Validated(old(captcha.store), input.captchaId, input.captchaValue, now)
        && users.FindByEmailWithPassword(input.email).None?) ==> r == Err(AppError(UNAUTHORIZED, MSG_BAD_CREDENTIALS))
      ensures (Validated(old(captcha.store), input.captchaId, input.captchaValue, now)
        && users.FindByEmailWithPassword(input.email).Some?
        && !compare(input.password, users.FindByEmailWithPassword(input.email).value.password))
        ==> r == Err(AppError(UNAUTHORIZED, MSG_BAD_CREDENTIALS))
      ensures r.Ok? ==> (Validated(old(captcha.store), input.captchaId, input.captchaValue, now)
        && users.FindByEmailWithPassword(input.email).Some?
        && var u := users.FindByEmailWithPassword(input.email).value;
           compare(input.password, u.password)
           && r.value == LoginResponse(sign(ClaimsFor(u)), MapUserResponse(Selected(u))))
      ensures (Validated(old(captcha.store), input.captchaId, input.captchaValue, now)
        && users.FindByEmailWithPassword(input.email).Some?
        && compare(input.password, users.FindByEmailWithPassword(input.email).value.password)) ==> r.Ok?
    {
      var captchaValid := captcha.Validate(input.captchaId, input.captchaValue, now);
      if !captchaValid {
        return Err(AppError(BAD_REQUEST, MSG_INVALID_CAPTCHA));
      }
      var found := users.FindByEmailWithPassword(input.email);
      if found.None? {
        return Err(AppError(UNAUTHORIZED, MSG_BAD_CREDENTIALS));
      }
      var user := found.value;
      if !compare(input.password, user.password) {
        return Err(AppError(UNAUTHORIZED, MSG_BAD_CREDENTIALS));
      }
      var token := sign(ClaimsFor(user));
      assert users.GetById(user.id).Ok? by {
        var j :| 0 <= j < |users.rows| && users.rows[j] == user;
      }
      var responseUser := users.GetById(user.id).value;
      assert responseUser == Selected(user) by {
        var j :| 0 <= j < |users.rows| && users.rows[j] == user;
        var k :| 0 <= k < |users.rows| && users.rows[k].id == user.id && responseUser == Selected(users.rows[k]);
        assert j == k;
      }
      r := Ok(LoginResponse(token, MapUserResponse(responseUser)));
    }

    /** `me`: 401 without a caller, otherwise the caller's current row, 404 once it is gone. */
    function Me(user: Option<RequestUser>): (r: Result<UserResponse>)
      reads this, users
      ensures user.None? ==> r == Err(AppError(UNAUTHORIZED, MSG_UNAUTHORIZED))
      ensures r.Ok? ==> (user.Some? && exists k :: (0 <= k < |users.rows| && users.rows[k].id as real == user.value.id
        && r.value == MapUserResponse(Selected(users.rows[k]))))
      ensures r.Err? ==> r.error in {AppError(UNAUTHORIZED, MSG_UNAUTHORIZED), DB_ERROR, AppError(NOT_FOUND, MSG_USER_NOT_FOUND)}
      ensures user.Some? && (exists k :: 0 <= k < |users.rows| && users.rows[k].id as real == user.value.id) ==> r.Ok?
      ensures user.Some? && IntegerKey(user.value.id).Ok? && users.GetById(IntegerKey(user.value.id).value).Err? ==>
        r == Err(AppError(NOT_FOUND, MSG_USER_NOT_FOUND))
    {
      if user.None? then Err(AppError(UNAUTHORIZED, MSG_UNAUTHORIZED))
      else
        var id :- IntegerKey(user.value.id);
        var u :- users.GetById(id);
        Ok(MapUserResponse(u))
    }
  }
}
