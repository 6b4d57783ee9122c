/**
 * The authentication middleware: reading the bearer token from the
 * `Authorization` header, verifying it and attaching the caller to the
 * request, and the role gate placed in front of each router.
 */
module AuthMiddleware {
  import opened Base
  import opened Js
  import opened UserEntity
  import opened Jwt

  const MSG_TOKEN_REQUIRED := "Token de autenticación requerido"
  const MSG_ACTION_FORBIDDEN := "No tienes permisos para realizar esta acción"
  const BEARER := "Bearer "

  /** The caller attached to a request: the id, email and role name taken from the token. */
  datatype RequestUser = RequestUser(id: real, email: string, role: string)

  /** The token of a header that starts with "Bearer ", or 401. */
  function BearerToken(header: Option<string>): (r: Result<string>)
    ensures r.Ok? <==> header.Some? && StartsWith(header.value, BEARER)
    ensures r.Ok? ==> header.value == BEARER + r.value
    ensures r.Err? ==> r.error == AppError(UNAUTHORIZED, MSG_TOKEN_REQUIRED)
  {
    if header.None? || header.value == "" || !StartsWith(header.value, BEARER) then
      Err(AppError(UNAUTHORIZED, MSG_TOKEN_REQUIRED))
    else
      ReplacePrefix(header.value, BEARER);
      assert header.value == header.value[..|BEARER|] + header.value[|BEARER|..];
      Ok(ReplaceFirst(header.value, BEARER, ""))
  }

  /** The header the client sends for a token yields that token back. */
  lemma BearerRoundTrip(token: string)
    ensures BearerToken(Some(BEARER + token)) == Ok(token)
  {
    assert (BEARER + token)[..|BEARER|] == BEARER;
    var r := BearerToken(Some(BEARER + token));
    assert BEARER + token == BEARER + r.value;
    assert token == (BEARER + token)[|BEARER|..] == r.value;
  }

  /**
   * The caller `authenticate` attaches for a header, or the error it raises:
   * 401 for a missing header or a payload of the wrong shape, and 500 when the
   * library's `verify` throws, since that error is not an `AppError`.
   */
  function Authentication(header: Option<string>, verify: string -> VerifyOutcome, fmt: Formats): (r: Result<RequestUser>)
    ensures r.Err? ==> r.error.status in {UNAUTHORIZED, INTERNAL}
    ensures r.Err? && r.error.status == INTERNAL <==>
      BearerToken(header).Ok? && verify(BearerToken(header).value).Rejected?
    ensures r.Ok? ==> (BearerToken(header).Ok?
      && VerifyAccessTokenAsWritten(BearerToken(header).value, verify, fmt).Ok?
      && var c := VerifyAccessTokenAsWritten(BearerToken(header).value, verify, fmt).value;
         r.value == RequestUser(c.sub, c.email, c.role))
    ensures BearerToken(header).Err? ==> r == Err(AppError(UNAUTHORIZED, MSG_TOKEN_REQUIRED))
  {
    var token :- BearerToken(header);
    var claims :- VerifyAccessTokenAsWritten(token, verify, fmt);
    Ok(RequestUser(claims.sub, claims.email, claims.role))
  }

  /** `authenticate` with the intended verifier: every failure is a 401. */
  function AuthenticationCorrected(header: Option<string>, verify: string -> VerifyOutcome, fmt: Formats): (r: Result<RequestUser>)
    ensures r.Err? ==> r.error.status == UNAUTHORIZED
    ensures r.Ok? ==> (BearerToken(header).Ok?
      && VerifyAccessToken(BearerToken(header).value, verify, fmt).Ok?
      && var c := VerifyAccessToken(BearerToken(header).value, verify, fmt).value;
         r.value == RequestUser(c.sub, c.email, c.role))
    ensures BearerToken(header).Err? ==> r == Err(AppError(UNAUTHORIZED, MSG_TOKEN_REQUIRED))
  {
    var token :- BearerToken(header);
    var claims :- VerifyAccessToken(token, verify, fmt);
    Ok(RequestUser(claims.sub, claims.email, claims.role))
  }

  /**
   * The two versions differ only on a token the library rejects, which the
   * code as written answers with 500 and the intended version with 401.
   */
  lemma AuthenticationVersions(header: Option<string>, verify: string -> VerifyOutcome, fmt: Formats)
    ensures !(BearerToken(header).Ok? && verify(BearerToken(header).value).Rejected?) ==>
      Authentication(header, verify, fmt) == AuthenticationCorrected(header, verify, fmt)
    ensures BearerToken(header).Ok? && verify(BearerToken(header).value).Rejected? ==>
      Authentication(header, verify, fmt) == Err(AppError(INTERNAL, MSG_INTERNAL))
      && AuthenticationCorrected(header, verify, fmt) == Err(AppError(UNAUTHORIZED, MSG_INVALID_TOKEN))
  {
    if BearerToken(header).Ok? && verify(BearerToken(header).value).Verified? {
      VerifyVersionsAgree(BearerToken(header).value, verify, fmt);
    }
  }

  /** A request as the middleware sees it: its `Authorization` header and the caller attached to it. */
  class Request {
    const authorization: Option<string>
    var user: Option<RequestUser>

    constructor (authorization: Option<string>)
      ensures this.authorization == authorization && user.None?
    {
      this.authorization := authorization;
      user := None;
    }

    /** `authenticate`: attaches the caller on success; a failure leaves the request as it was. */
    method Authenticate(verify: string -> VerifyOutcome, fmt: Formats) returns (r: Result<()>)
      modifies this
      ensures r.Ok? <==> Authentication(authorization, verify, fmt).Ok?
      ensures r.Err? ==> r.error == Authentication(authorization, verify, fmt).error && user == old(user)
      ensures r.Ok? ==> user == Some(Authentication(authorization, verify, fmt).value)
    {
      var token :- BearerToken(authorization);
      var claims :- VerifyAccessTokenAsWritten(token, verify, fmt);
      user := Some(RequestUser(claims.sub, claims.email, claims.role));
      r := Ok(());
    }
  }

  /** `authorize(...roles)`: 401 without a caller, 403 for a role outside the list. */
  function Authorize(user: Option<RequestUser>, roles: seq<string>): (r: Result<()>)
    ensures r.Ok? <==> user.Some? && user.value.role in roles
    ensures user.None? ==> r == Err(AppError(UNAUTHORIZED, MSG_UNAUTHORIZED))
    ensures user.Some? && user.value.role !in roles ==> r == Err(AppError(FORBIDDEN, MSG_ACTION_FORBIDDEN))
  {
    if user.None? then Err(AppError(UNAUTHORIZED, MSG_UNAUTHORIZED))
    else if user.value.role !in roles then Err(AppError(FORBIDDEN, MSG_ACTION_FORBIDDEN))
    else Ok(())
  }

  /** The roles admitted by the sales router and by the users router. */
  const SALES_ROLES: seq<string> := [Admin.Name(), Advisor.Name()]
  const USERS_ROLES: seq<string> := [Admin.Name()]

  /**
   * The users router admits administrators only; the sales router admits
   * both roles, and a token whose role names neither is refused by both.
   */
  lemma RouterGates(u: RequestUser)
    ensures Authorize(Some(u), USERS_ROLES).Ok? <==> u.role == "Administrador"
    ensures Authorize(Some(u), SALES_ROLES).Ok? <==> RoleFromName(u.role).Some?
    ensures Authorize(Some(u), USERS_ROLES).Ok? ==> Authorize(Some(u), SALES_ROLES).Ok?
  {
    assert SALES_ROLES == ROLE_NAMES;
  }
}
