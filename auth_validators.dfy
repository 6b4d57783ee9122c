/** The request validator of the login route. */
module AuthValidators {
  import opened Base
  import opened Js
  import opened UserEntity
  import UserValidators

  /** The JSON body of a login request. */
  datatype LoginBody = LoginBody(email: Value, password: Value, captchaId: Value, captchaValue: Value)

  /** A login request once its fields are known to be text. */
  datatype LoginInput = LoginInput(email: string, password: string, captchaId: string, captchaValue: string)

  const CAPTCHA_MIN_LENGTH := 4
  const CAPTCHA_MAX_LENGTH := 6

  /** `isUUID()`: text in UUID format. */
  predicate CaptchaIdOk(v: Value, fmt: Formats) {
    v.Str? && fmt.isUUID(v.s)
  }

  /** `isString().isLength({ min: 4, max: 6 })`. */
  predicate CaptchaValueOk(v: Value) {
    v.Str? && CAPTCHA_MIN_LENGTH <= |v.s| <= CAPTCHA_MAX_LENGTH
  }

  /** The fields `loginValidator` rejects; email and password follow the user rules. */
  function LoginErrors(b: LoginBody, fmt: Formats): (fields: set<string>)
    ensures "email" in fields <==> !UserValidators.EmailOk(b.email, fmt)
    ensures "password" in fields <==> !UserValidators.PasswordOk(b.password)
    ensures "captchaId" in fields <==> !CaptchaIdOk(b.captchaId, fmt)
    ensures "captchaValue" in fields <==> !CaptchaValueOk(b.captchaValue)
    ensures fields <= {"email", "password", "captchaId", "captchaValue"}
  {
    (if UserValidators.EmailOk(b.email, fmt) then {} else {"email"})
    + (if UserValidators.PasswordOk(b.password) then {} else {"password"})
    + (if CaptchaIdOk(b.captchaId, fmt) then {} else {"captchaId"})
    + (if CaptchaValueOk(b.captchaValue) then {} else {"captchaValue"})
  }

  /** An accepted body is all text, within the bounds each field is checked against. */
  lemma AcceptedLogin(b: LoginBody, fmt: Formats)
    requires LoginErrors(b, fmt) == {}
    ensures b == LoginBody(Str(b.email.s), Str(b.password.s), Str(b.captchaId.s), Str(b.captchaValue.s))
    ensures |b.email.s| <= EMAIL_MAX_LENGTH && fmt.isEmail(b.email.s)
    ensures UserValidators.PASSWORD_MIN_LENGTH <= |b.password.s| <= UserValidators.PASSWORD_MAX_LENGTH
    ensures fmt.isUUID(b.captchaId.s)
    ensures CAPTCHA_MIN_LENGTH <= |b.captchaValue.s| <= CAPTCHA_MAX_LENGTH
  {
    assert "email" !in LoginErrors(b, fmt) && "password" !in LoginErrors(b, fmt);
    assert "captchaId" !in LoginErrors(b, fmt) && "captchaValue" !in LoginErrors(b, fmt);
  }
}
