/**
 * The backend token helper: the claims an access token carries and the shape
 * checks `verifyAccessToken` applies to what the signature check returns.
 * Signing, the signature and expiry check and the secret belong to the
 * token library and are a parameter.
 */
module Jwt {
  import opened Base
  import opened Js

  const MSG_INVALID_TOKEN := "Token inválido"

  /** The claims of an access token: the user id, email and role name. */
  datatype TokenClaims = TokenClaims(sub: real, email: string, role: string)

  /** What a token decodes to: a plain string, or an object whose claims are read as request values. */
  datatype Decoded = TextPayload(text: string) | ObjectPayload(sub: Value, email: Value, role: Value)

  /**
   * The outcome of the library's `verify`: the decoded payload, or the error it
   * throws for a bad signature, a malformed token or an expired one.
   */
  datatype VerifyOutcome = Verified(decoded: Decoded) | Rejected

  /** `typeof subValue === "string" ? Number(subValue) : subValue`, kept only when it is a number other than NaN. */
  function SubjectId(sub: Value, fmt: Formats): (r: Option<real>)
    ensures sub.Number? && sub.n.Finite? ==> r == Some(sub.n.x)
    ensures sub.Str? ==> r == (if ToNumber(sub, fmt).Finite? then Some(ToNumber(sub, fmt).x) else None)
    ensures !sub.Number? && !sub.Str? ==> r.None?
  {
    match sub
    case Str(_) => (match ToNumber(sub, fmt) case Finite(x) => Some(x) case NaN => None)
    case Number(n) => (match n case Finite(x) => Some(x) case NaN => None)
    case _ => None
  }

  /** The shape checks on a verified payload: 401 "Token inválido" unless sub, email and role have the right types. */
  function ClaimsOf(decoded: Decoded, fmt: Formats): (r: Result<TokenClaims>)
    ensures r.Err? ==> r.error == AppError(UNAUTHORIZED, MSG_INVALID_TOKEN)
    ensures decoded.TextPayload? ==> r.Err?
    ensures r.Ok? <==> (decoded.ObjectPayload? && SubjectId(decoded.sub, fmt).Some?
      && decoded.email.Str? && decoded.role.Str?)
    ensures r.Ok? ==> r.value == TokenClaims(SubjectId(decoded.sub, fmt).value, decoded.email.s, decoded.role.s)
  {
    match decoded
    case TextPayload(_) => Err(AppError(UNAUTHORIZED, MSG_INVALID_TOKEN))
    case ObjectPayload(sub, email, role) =>
      match SubjectId(sub, fmt)
      case None => Err(AppError(UNAUTHORIZED, MSG_INVALID_TOKEN))
      case Some(id) =>
        if email.Str? && role.Str? then Ok(TokenClaims(id, email.s, role.s))
        else Err(AppError(UNAUTHORIZED, MSG_INVALID_TOKEN))
  }

  /** A payload that carries the claims of a signed token reads them back unchanged. */
  lemma ClaimsRoundTrip(c: TokenClaims, fmt: Formats)
    ensures ClaimsOf(ObjectPayload(Number(Finite(c.sub)), Str(c.email), Str(c.role)), fmt) == Ok(c)
  {
  }

  /**
   * `verifyAccessToken` as written: a rejection by the library escapes as an
   * error that is not an `AppError`, which the error handler answers with 500.
   */
  function VerifyAccessTokenAsWritten(token: string, verify: string -> VerifyOutcome, fmt: Formats): (r: Result<TokenClaims>)
    ensures verify(token).Rejected? ==> r == Err(AppError(INTERNAL, MSG_INTERNAL))
    ensures verify(token).Verified? ==> r == ClaimsOf(verify(token).decoded, fmt)
  {
    match verify(token)
    case Rejected => Err(AppError(INTERNAL, MSG_INTERNAL))
    case Verified(decoded) => ClaimsOf(decoded, fmt)
  }

  /**
   * `verifyAccessToken` as the authentication contract intends it: a token
   * whose signature or expiry check fails is answered with 401, as every other
   * unusable token is.
   */
  function VerifyAccessToken(token: string, verify: string -> VerifyOutcome, fmt: Formats): (r: Result<TokenClaims>)
    ensures r.Err? ==> r.error.status == UNAUTHORIZED
    ensures verify(token).Rejected? ==> r == Err(AppError(UNAUTHORIZED, MSG_INVALID_TOKEN))
    ensures verify(token).Verified? ==> r == ClaimsOf(verify(token).decoded, fmt)
  {
    match verify(token)
    case Rejected => Err(AppError(UNAUTHORIZED, MSG_INVALID_TOKEN))
    case Verified(decoded) => ClaimsOf(decoded, fmt)
  }

  /** The two versions agree on every token the library accepts. */
  lemma VerifyVersionsAgree(token: string, verify: string -> VerifyOutcome, fmt: Formats)
    requires verify(token).Verified?
    ensures VerifyAccessTokenAsWritten(token, verify, fmt) == VerifyAccessToken(token, verify, fmt)
  {
  }

  /** An expired or forged token gets 500 from the code as written, where 401 is intended. */
  lemma ExpiredTokenAnswered500(token: string, fmt: Formats)
    ensures VerifyAccessTokenAsWritten(token, _ => Rejected, fmt).Status() == INTERNAL
    ensures VerifyAccessToken(token, _ => Rejected, fmt).Status() == UNAUTHORIZED
  {
  }
}
