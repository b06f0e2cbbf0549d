/**
 * The mail jobs the handlers queue and the messages they become
 * (app/defs/auth/service_defs.py). A job is the send function and its
 * keyword arguments, as queued with `background_tasks.add_task`; `Compose`
 * is what the send function computes when the task runs at time `now`
 * (subject, recipients, greeting name, link, expiry hours). The HTML body
 * and the SMTP send are not modelled.
 */
module Mail {
  import opened Wrappers
  import Config
  import PyText
  import opened EmailTokens

  datatype Job =
    | SendVerification(email: string, username: string)
    | SendPasswordReset(email: string, resetToken: SignedToken, maybeUsername: Option<string>)
    | SendChangeMail(email: string, maybeUsername: Option<string>)
    | SendWelcome(email: string, username: string)

  /** A link: the text `url`, followed by the text of `token` when there is one. */
  datatype Link = Link(url: string, token: Option<SignedToken>)

  datatype Message = Message(
    subject: string,
    recipients: seq<string>,
    username: string,
    link: Link,
    expireHours: Option<int>)

  const VERIFY_PATH: string := "/auth/verify?token="
  const RESET_PATH: string := "/auth/reset-password?token="
  const CHANGE_EMAIL_PATH: string := "/auth/change-email?token="
  const DASHBOARD_PATH: string := "/dashboard"

  /** `username`, or `email.split('@')[0]` when it is missing or empty. */
  function GreetingName(email: string, username: Option<string>): (r: string)
    ensures PyText.Truthy(username) ==> r == username.value
    ensures !PyText.Truthy(username) ==> r <= email && '@' !in r && (|r| < |email| ==> email[|r|] == '@')
  {
    if PyText.Truthy(username) then username.value else PyText.BeforeFirst(email, '@')
  }

  /** `send_verification_email`: a fresh verification-salt token of the recipient's email. */
  function SendVerificationEmail(key: string, email: string, username: string, now: int): (m: Message)
    ensures m.recipients == [email] && m.username == username && m.expireHours.None?
    ensures m.link.url == Config.APP_URL + VERIFY_PATH && m.link.token.Some?
    ensures VerifyEmailToken(key, m.link.token.value, None, now) == Valid(email)
  {
    Message("Подтверждение регистрации - Brain Notes", [email], username,
            Link(Config.APP_URL + VERIFY_PATH, Some(GenerateVerificationToken(key, email, now))), None)
  }

  /** `send_password_reset_email`: the reset token was minted by the caller. */
  function SendPasswordResetEmail(email: string, resetToken: SignedToken, username: Option<string>): (m: Message)
    ensures m.recipients == [email] && m.username == GreetingName(email, username)
    ensures m.link == Link(Config.APP_URL + RESET_PATH, Some(resetToken))
    ensures m.expireHours == Some(24)
  {
    Config.LinkExpirySettingsAbsent();
    Message("Сброс пароля - Brain Notes", [email], GreetingName(email, username),
            Link(Config.APP_URL + RESET_PATH, Some(resetToken)),
            Some(Config.GetAttrInt("PASSWORD_RESET_TOKEN_EXPIRE_HOURS", 24)))
  }

  /** `send_change_mail_email`: note the verification salt, not a purpose of its own. */
  function SendChangeMailEmail(key: string, email: string, username: Option<string>, now: int): (m: Message)
    ensures m.recipients == [email] && m.username == GreetingName(email, username)
    ensures m.link == Link(Config.APP_URL + CHANGE_EMAIL_PATH, Some(GenerateVerificationToken(key, email, now)))
    ensures m.expireHours == Some(24)
  {
    Config.LinkExpirySettingsAbsent();
    Message("Смена email - Brain Notes", [email], GreetingName(email, username),
            Link(Config.APP_URL + CHANGE_EMAIL_PATH, Some(GenerateVerificationToken(key, email, now))),
            Some(Config.GetAttrInt("EMAIL_CHANGE_TOKEN_EXPIRE_HOURS", 24)))
  }

  /** `send_welcome_email`: a link to the dashboard, with no token. */
  function SendWelcomeEmail(email: string, username: string): (m: Message)
    ensures m.recipients == [email] && m.username == username
    ensures m.link == Link(Config.APP_URL + DASHBOARD_PATH, None)
  {
    Message("Добро пожаловать в Brain Notes! 🎉", [email], username,
            Link(Config.APP_URL + DASHBOARD_PATH, None), None)
  }

  /** The message a queued job sends when it runs at time `now`. */
  function Compose(job: Job, key: string, now: int): (m: Message)
    ensures m.recipients == [job.email]
  {
    match job
    case SendVerification(email, username) => SendVerificationEmail(key, email, username, now)
    case SendPasswordReset(email, token, username) => SendPasswordResetEmail(email, token, username)
    case SendChangeMail(email, username) => SendChangeMailEmail(key, email, username, now)
    case SendWelcome(email, username) => SendWelcomeEmail(email, username)
  }

  /**
   * A verification mail links to `/auth/verify?token=` with a token that,
   * read within 24 hours of sending, yields exactly the recipient's email.
   */
  lemma VerificationLinkReadsBack(key: string, email: string, username: string, sent: int, now: int)
    requires 0 <= now - sent <= 86400
    ensures var m := Compose(SendVerification(email, username), key, sent);
      && m.link.url == Config.APP_URL + VERIFY_PATH
      && m.link.token.Some?
      && VerifyEmailToken(key, m.link.token.value, None, now) == Valid(email)
      && m.username == username
  {
  }

  /**
   * The change-email token is a verification-salt token of the new email:
   * the verification endpoint accepts it, and the reset endpoint rejects it.
   */
  lemma ChangeMailReusesVerificationSalt(key: string, email: string, username: Option<string>, sent: int, now: int)
    requires 0 <= now - sent <= 86400
    ensures var t := SendChangeMailEmail(key, email, username, sent).link.token.value;
      && VerifyEmailToken(key, t, None, now) == Valid(email)
      && VerifyPasswordResetToken(key, t, now) == Rejected(RESET_INVALID)
  {
    VerificationRoundTrip(key, email, sent, now, None);
    PurposesSeparate(key, email, sent, now, None);
  }
}
