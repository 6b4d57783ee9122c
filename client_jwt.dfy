/**
 * The client's reading of a token, without checking its signature: the
 * payload part is decoded to claims, from which the role and the expiry are
 * read. Base64 decoding (with its UTF-8 step), `JSON.parse`, the clock and
 * the text of a non-string role are parameters.
 */
module ClientJwt {
  import opened Base
  import opened Js

  /**
   * What `JSON.parse` of the payload gives: an object, of which only the
   * `role` and `exp` members are read, or some other JSON value.
   */
  datatype Claims = ClaimsObject(role: Value, exp: Value) | OtherJson(v: Value)

  /** `claims.role` and `claims.exp`: a non-object has no such member. */
  function RoleOf(c: Claims): Value {
    if c.ClaimsObject? then c.role else Undefined
  }

  function ExpOf(c: Claims): Value {
    if c.ClaimsObject? then c.exp else Undefined
  }

  /** `!claims`: an object is truthy, another value as JavaScript says. */
  predicate ClaimsTruthy(c: Claims) {
    c.ClaimsObject? || Truthy(c.v)
  }

  /** The opaque decoders: base64 text to text (`None` when `atob` throws) and JSON text to claims (`None` when it throws). */
  datatype Decoders = Decoders(base64: string -> Option<string>, parse: string -> Option<Claims>)

  /** The first step of `base64UrlDecode`: '-' becomes '+', '_' becomes '/', and nothing else changes. */
  function Base64UrlToBase64(input: string): (r: string)
    ensures |r| == |input|
    ensures forall i :: 0 <= i < |input| ==>
      r[i] == (if input[i] == '-' then '+' else if input[i] == '_' then '/' else input[i])
    ensures '-' !in r && '_' !in r
  {
    ReplaceAllChar(ReplaceAllChar(input, '-', '+'), '_', '/')
  }

  /** `decodeJwt`: the claims of the middle part, only for a token of exactly three dot-separated parts. */
  function DecodeJwt(token: string, d: Decoders): (r: Option<Claims>)
    ensures |Split(token, '.')| != 3 ==> r.None?
    ensures r.Some? ==> multiset(token)['.'] == 2
    ensures r.Some? ==> exists text :: d.base64(Base64UrlToBase64(Split(token, '.')[1])) == Some(text) && d.parse(text) == r
  {
    var parts := Split(token, '.');
    if |parts| != 3 then None
    else
      match d.base64(Base64UrlToBase64(parts[1]))
      case None => None
      case Some(text) => d.parse(text)
  }

  /** `String(value)`, with the text of a number a parameter. */
  function JsString(v: Value, numberText: Num -> string): string {
    match v
    case Undefined => "undefined"
    case Null => "null"
    case Bool(b) => if b then "true" else "false"
    case Number(n) => numberText(n)
    case Str(s) => s
    case Obj => "[object Object]"
  }

  /** `getRoleFromToken`: the role text of a present, non-empty, decodable token with a truthy role, else nothing. */
  function RoleFromToken(token: Option<string>, d: Decoders, numberText: Num -> string): (r: Option<string>)
    ensures token.None? || token == Some("") ==> r.None?
    ensures token.Some? && DecodeJwt(token.value, d).None? ==> r.None?
    ensures r.Some? <==>
      token.Some? && token.value != "" && DecodeJwt(token.value, d).Some?
      && Truthy(RoleOf(DecodeJwt(token.value, d).value))
    ensures r.Some? && RoleOf(DecodeJwt(token.value, d).value).Str? ==>
      r.value == RoleOf(DecodeJwt(token.value, d).value).s
  {
    if token.None? || token.value == "" then None
    else
      match DecodeJwt(token.value, d)
      case None => None
      case Some(claims) =>
        var role := RoleOf(claims);
        if Truthy(role) then Some(JsString(role, numberText)) else None
  }

  /** `Math.floor(Date.now() / 1000)`: the clock in whole seconds. */
  function NowSeconds(nowMs: real): int {
    (nowMs / 1000.0).Floor
  }

  /**
   * `isTokenExpired`: expired when there is no token or it cannot be read;
   * not expired when the claims carry no truthy `exp`; otherwise expired
   * exactly when `exp` lies before the current whole second.
   */
  function IsTokenExpired(token: Option<string>, d: Decoders, fmt: Formats, nowMs: real): (expired: bool)
    ensures token.None? || token == Some("") ==> expired
    ensures token.Some? && token.value != "" && DecodeJwt(token.value, d).None? ==> expired
    ensures token.Some? && token.value != "" && DecodeJwt(token.value, d).Some? ==>
      var claims := DecodeJwt(token.value, d).value;
      expired == (!ClaimsTruthy(claims) ||
        (Truthy(ExpOf(claims)) && LessThan(ToNumber(ExpOf(claims), fmt), NowSeconds(nowMs) as real)))
  {
    if token.None? || token.value == "" then true
    else
      match DecodeJwt(token.value, d)
      case None => true
      case Some(claims) =>
        if !ClaimsTruthy(claims) then true
        else if !Truthy(ExpOf(claims)) then false
        else LessThan(ToNumber(ExpOf(claims), fmt), NowSeconds(nowMs) as real)
  }

  /** JavaScript `<` on numbers: false whenever one side is NaN. */
  predicate LessThan(a: Num, b: real) {
    a.Finite? && a.x < b
  }

  /** Claims whose `exp` is left out never count as expired, whatever the clock says. */
  lemma NoExpNeverExpires(token: string, d: Decoders, fmt: Formats, nowMs: real, role: Value)
    requires token != "" && DecodeJwt(token, d) == Some(ClaimsObject(role, Undefined))
    ensures !IsTokenExpired(Some(token), d, fmt, nowMs)
  {
  }

  /** Once expired, a token stays expired as the clock moves on. */
  lemma ExpiryIsFinal(token: Option<string>, d: Decoders, fmt: Formats, t1: real, t2: real)
    requires t1 <= t2 && IsTokenExpired(token, d, fmt, t1)
    ensures IsTokenExpired(token, d, fmt, t2)
  {
    assert t1 / 1000.0 <= t2 / 1000.0;
    assert NowSeconds(t1) <= NowSeconds(t2);
  }

  /**
   * A whole-second `exp` is honoured until the end of that second: the token
   * is expired exactly from `(exp + 1) * 1000` milliseconds on.
   */
  lemma ExpiryInstant(token: string, d: Decoders, fmt: Formats, nowMs: real, role: Value, exp: int)
    requires token != "" && exp != 0 && DecodeJwt(token, d) == Some(ClaimsObject(role, Number(Finite(exp as real))))
    ensures IsTokenExpired(Some(token), d, fmt, nowMs) <==> nowMs >= (exp + 1) as real * 1000.0
  {
    var s := NowSeconds(nowMs);
    assert s as real <= nowMs / 1000.0 < s as real + 1.0;
    if nowMs >= (exp + 1) as real * 1000.0 {
      assert nowMs / 1000.0 >= (exp + 1) as real;
      assert s >= exp + 1;
    } else {
      assert nowMs / 1000.0 < (exp + 1) as real;
      assert s <= exp;
    }
  }
}
