/**
 * Signed, time-limited link tokens (app/auth/email_utils.py), over an
 * abstract model of itsdangerous' `URLSafeTimedSerializer`: a token is the
 * payload, the purpose salt, the secret it was signed with and the time it
 * was issued; `Garbled` stands for any text that is not such a token.
 * Times are whole seconds.
 */
module EmailTokens {
  import opened Wrappers
  import Config

  const EMAIL_VERIFICATION_SALT: string := "email-verification"
  const PASSWORD_RESET_SALT: string := "password-reset"

  /** `VERIFICATION_TOKEN_EXPIRE_HOURS * 3600`: the default validity window, in seconds. */
  const DEFAULT_MAX_AGE: int := Config.VERIFICATION_TOKEN_EXPIRE_HOURS * 3600

  const VERIFICATION_EXPIRED: string := "Verification link has expired. Please request a new one."
  const VERIFICATION_INVALID: string := "Invalid verification token."
  const RESET_EXPIRED: string := "Password reset link has expired."
  const RESET_INVALID: string := "Invalid password reset token."

  datatype SignedToken =
    | Signed(payload: string, salt: string, key: string, issuedAt: int)
    | Garbled

  /** What `serializer.loads` does: return the payload, or raise one of two errors. */
  datatype Loaded = Payload(value: string) | SignatureExpired | BadSignature

  /** `serializer.dumps(payload, salt=salt)` at time `now`. */
  function Dumps(key: string, payload: string, salt: string, now: int): (t: SignedToken)
    ensures SignedWith(t, key, salt)
    ensures forall k, s | SignedWith(t, k, s) :: k == key && s == salt
    ensures Loads(key, t, salt, 0, now) == Payload(payload)
  {
    Signed(payload, salt, key, now)
  }

  /** The token carries a signature made with `key` under `salt`. */
  predicate SignedWith(t: SignedToken, key: string, salt: string) {
    t.Signed? && t.key == key && t.salt == salt
  }

  /**
   * `serializer.loads(t, salt=salt, max_age=maxAge)` at time `now`: the
   * signature (secret and salt) is checked first, then the age, which must
   * lie between 0 and `maxAge`: a timestamp from the future is expired too.
   */
  function Loads(key: string, t: SignedToken, salt: string, maxAge: int, now: int): (r: Loaded)
    ensures r.BadSignature? <==> !SignedWith(t, key, salt)
    ensures r.SignatureExpired? <==> SignedWith(t, key, salt) && !(0 <= now - t.issuedAt <= maxAge)
    ensures r.Payload? ==> r.value == t.payload && 0 <= now - t.issuedAt <= maxAge
  {
    if !SignedWith(t, key, salt) then BadSignature
    else if now - t.issuedAt > maxAge || now - t.issuedAt < 0 then SignatureExpired
    else Payload(t.payload)
  }

  /** The payload of an accepted link token, or the `ValueError` text. */
  datatype Checked = Valid(email: string) | Rejected(reason: string)

  /** `generate_verification_token(email)`: read back at once, it yields the email, and it is no reset token. */
  function GenerateVerificationToken(key: string, email: string, now: int): (t: SignedToken)
    ensures VerifyEmailToken(key, t, None, now) == Valid(email)
    ensures VerifyPasswordResetToken(key, t, now) == Rejected(RESET_INVALID)
  {
    Dumps(key, email, EMAIL_VERIFICATION_SALT, now)
  }

  /** `verify_email_token(token, max_age)`: `None` selects the default window. */
  function VerifyEmailToken(key: string, token: SignedToken, maxAge: Option<int>, now: int): (r: Checked)
    ensures r.Valid? <==> SignedWith(token, key, EMAIL_VERIFICATION_SALT) && 0 <= now - token.issuedAt <= maxAge.GetOr(DEFAULT_MAX_AGE)
    ensures r.Valid? ==> r.email == token.payload
    ensures r == Rejected(VERIFICATION_INVALID) <==> !SignedWith(token, key, EMAIL_VERIFICATION_SALT)
    ensures r.Rejected? ==> r.reason in {VERIFICATION_INVALID, VERIFICATION_EXPIRED}
  {
    match Loads(key, token, EMAIL_VERIFICATION_SALT, maxAge.GetOr(DEFAULT_MAX_AGE), now)
    case Payload(email) => Valid(email)
    case SignatureExpired => Rejected(VERIFICATION_EXPIRED)
    case BadSignature => Rejected(VERIFICATION_INVALID)
  }

  /** `generate_password_reset_token(email)`: read back at once, it yields the email, and it is no verification token. */
  function GeneratePasswordResetToken(key: string, email: string, now: int): (t: SignedToken)
    ensures VerifyPasswordResetToken(key, t, now) == Valid(email)
    ensures VerifyEmailToken(key, t, None, now) == Rejected(VERIFICATION_INVALID)
  {
    Dumps(key, email, PASSWORD_RESET_SALT, now)
  }

  /** `verify_password_reset_token(token)`: always the default window. */
  function VerifyPasswordResetToken(key: string, token: SignedToken, now: int): (r: Checked)
    ensures r.Valid? <==> SignedWith(token, key, PASSWORD_RESET_SALT) && 0 <= now - token.issuedAt <= DEFAULT_MAX_AGE
    ensures r.Valid? ==> r.email == token.payload
    ensures r == Rejected(RESET_INVALID) <==> !SignedWith(token, key, PASSWORD_RESET_SALT)
    ensures r.Rejected? ==> r.reason in {RESET_INVALID, RESET_EXPIRED}
  {
    match Loads(key, token, PASSWORD_RESET_SALT, DEFAULT_MAX_AGE, now)
    case Payload(email) => Valid(email)
    case SignatureExpired => Rejected(RESET_EXPIRED)
    case BadSignature => Rejected(RESET_INVALID)
  }

  /** The default window is 24 hours. */
  lemma DefaultWindow()
    ensures DEFAULT_MAX_AGE == 86400
  {
  }

  /** Round trip: a verification token read within its window gives back exactly the email. */
  lemma VerificationRoundTrip(key: string, email: string, issued: int, now: int, maxAge: Option<int>)
    requires 0 <= now - issued <= maxAge.GetOr(DEFAULT_MAX_AGE)
    ensures VerifyEmailToken(key, GenerateVerificationToken(key, email, issued), maxAge, now) == Valid(email)
  {
  }

  /** A verification token read after its window, or before its issue time, fails with the "expired" text. */
  lemma VerificationExpires(key: string, email: string, issued: int, now: int, maxAge: Option<int>)
    requires !(0 <= now - issued <= maxAge.GetOr(DEFAULT_MAX_AGE))
    ensures VerifyEmailToken(key, GenerateVerificationToken(key, email, issued), maxAge, now) == Rejected(VERIFICATION_EXPIRED)
  {
  }

  /** Round trip for reset tokens, with the fixed 24-hour window. */
  lemma ResetRoundTrip(key: string, email: string, issued: int, now: int)
    requires 0 <= now - issued <= 86400
    ensures VerifyPasswordResetToken(key, GeneratePasswordResetToken(key, email, issued), now) == Valid(email)
  {
  }

  /** A reset token older than 24 hours, or read before its issue time, fails with the "expired" text. */
  lemma ResetExpires(key: string, email: string, issued: int, now: int)
    requires !(0 <= now - issued <= 86400)
    ensures VerifyPasswordResetToken(key, GeneratePasswordResetToken(key, email, issued), now) == Rejected(RESET_EXPIRED)
  {
  }

  /**
   * Purpose separation: a reset token is an invalid verification token and
   * vice versa, whatever its payload and age, and a token signed with
   * another secret is invalid for both purposes.
   */
  lemma PurposesSeparate(key: string, email: string, issued: int, now: int, maxAge: Option<int>)
    ensures VerifyEmailToken(key, GeneratePasswordResetToken(key, email, issued), maxAge, now) == Rejected(VERIFICATION_INVALID)
    ensures VerifyPasswordResetToken(key, GenerateVerificationToken(key, email, issued), now) == Rejected(RESET_INVALID)
  {
  }

  lemma ForeignOrGarbledRejected(key: string, other: string, email: string, issued: int, now: int, maxAge: Option<int>)
    requires other != key
    ensures VerifyEmailToken(key, GenerateVerificationToken(other, email, issued), maxAge, now) == Rejected(VERIFICATION_INVALID)
    ensures VerifyPasswordResetToken(key, GeneratePasswordResetToken(other, email, issued), now) == Rejected(RESET_INVALID)
    ensures VerifyEmailToken(key, Garbled, maxAge, now) == Rejected(VERIFICATION_INVALID)
    ensures VerifyPasswordResetToken(key, Garbled, now) == Rejected(RESET_INVALID)
  {
  }

  /** The signature is checked before the age: an invalid token is never reported as expired. */
  lemma SignatureBeforeAge(key: string, t: SignedToken, maxAge: Option<int>, now: int)
    requires !SignedWith(t, key, EMAIL_VERIFICATION_SALT)
    ensures VerifyEmailToken(key, t, maxAge, now) == Rejected(VERIFICATION_INVALID)
  {
  }

  /** Whatever verifies was issued for that email under the verification salt with this secret. */
  lemma VerifiedMeansIssued(key: string, t: SignedToken, maxAge: Option<int>, now: int)
    requires VerifyEmailToken(key, t, maxAge, now).Valid?
    ensures t == GenerateVerificationToken(key, VerifyEmailToken(key, t, maxAge, now).email, t.issuedAt)
    ensures 0 <= now - t.issuedAt <= maxAge.GetOr(DEFAULT_MAX_AGE)
  {
  }
}
