/**
 * The cookie-based variant of the account lifecycle (app/routers/auth.py):
 * register, verify, `/me`, logout, resend, login and refresh. It checks
 * less than app/auth/routes.py: register looks only for a duplicate email,
 * login does not look at `is_active` and refresh does not look at the
 * token's type. Its forgot-password and reset-password handlers are the
 * same code as `AuthRoutes.ForgotPassword` and `AuthRoutes.ResetPassword`,
 * and its reset form is `AuthRoutes.ResetPasswordForm` with its own
 * template name.
 */
module AuthRouter {
  import opened Wrappers
  import opened Hasher
  import opened Schema
  import opened SessionTokens
  import opened EmailTokens
  import opened Http
  import Store
  import Mail
  import Config
  import PyText
  import AuthRoutes
  import Dependencies

  const EMAIL_TAKEN: string := "Email уже зарегистрирован"
  const REGISTERED: string := "Registration successful. Check your email for verification."
  const NOT_AUTHENTICATED: string := "Not authenticated"
  const INVALID_TOKEN: string := "Invalid token"
  const USER_NOT_FOUND: string := "User not found"
  const LOGGED_OUT: string := "Logout successful"
  const ALREADY_VERIFIED: string := "Email уже подтверждён"
  const BAD_CREDENTIALS: string := "Неверные учетные данные"
  const UNVERIFIED: string := "Email не подтверждён"
  const NO_REFRESH_COOKIE: string := "Refresh token not found"
  const BAD_REFRESH: string := "Invalid refresh token"
  const REFRESHED: string := "Token refreshed"

  /** `max_age` of the access cookie: 30 minutes. */
  const ACCESS_COOKIE_AGE: int := 1800
  /** `max_age` of the refresh cookie: 30 days. */
  const REFRESH_COOKIE_AGE: int := 2592000

  /**
   * `POST /auth/register` with four required form fields. Only the email is
   * looked up first: a taken username, or a value too long for its column,
   * fails at commit.
   */
  method Register(db: Store.Store, username: string, email: string, fullName: string, password: string)
    returns (r: Reply)
    requires db.Valid()
    modifies db
    ensures db.Valid()
    ensures FindIndex(old(db.users), ByEmail(email)).Some? ==> r == Error(400, EMAIL_TAKEN)
    ensures FindIndex(old(db.users), ByEmail(email)).None? ==>
      var u := AuthRoutes.NewUser(old(db.nextUserId), username, email, fullName, password);
      if UserFits(u) && FindIndex(old(db.users), ByUsername(username)).None? then
        r == Json([("message", REGISTERED), ("email", email)]) && db.users == old(db.users) + [u]
        && db.outbox == old(db.outbox) + [Mail.SendVerification(email, username)]
        && db.nextUserId == old(db.nextUserId) + 1
      else r == ServerError
    ensures !r.Json? ==> db.users == old(db.users) && db.outbox == old(db.outbox) && db.nextUserId == old(db.nextUserId)
    ensures db.folders == old(db.folders) && db.notes == old(db.notes)
  {
    if FindIndex(db.users, ByEmail(email)).Some? {
      return Error(400, EMAIL_TAKEN);
    }
    assert forall j | 0 <= j < |db.users| :: !Matches(db.users[j], ById(db.nextUserId)) by {
      forall j | 0 <= j < |db.users| ensures !Matches(db.users[j], ById(db.nextUserId)) {
        assert db.users[j] in db.users;
      }
    }
    var created := db.InsertUser(username, email, Some(fullName), Hash(password), false);
    if created.None? {
      return ServerError;
    }
    var u := created.value;
    db.Enqueue(Mail.SendVerification(u.email, u.username));
    return Json([("message", REGISTERED), ("email", email)]);
  }

  /** `GET /auth/verify?token=...`: every outcome is a page; a first verification queues the welcome mail. */
  method VerifyEmail(db: Store.Store, key: string, token: SignedToken, now: int) returns (r: Reply)
    requires db.Valid()
    modifies db
    ensures db.Valid()
    ensures match VerifyEmailToken(key, token, None, now)
      case Rejected(_) => r == Page(400, "403.html") && db.users == old(db.users) && db.outbox == old(db.outbox)
      case Valid(email) =>
        match FindIndex(old(db.users), ByEmail(email))
        case None => r == Page(404, "404.html") && db.users == old(db.users) && db.outbox == old(db.outbox)
        case Some(i) =>
          if old(db.users)[i].isVerified then
            r == Page(200, "already_registered.html") && db.users == old(db.users) && db.outbox == old(db.outbox)
          else
            r == Page(200, "register_success.html")
            && db.users == old(db.users)[i := old(db.users)[i].(isVerified := true)]
            && db.outbox == old(db.outbox) + [Mail.SendWelcome(email, old(db.users)[i].username)]
    ensures db.folders == old(db.folders) && db.notes == old(db.notes) && db.nextUserId == old(db.nextUserId)
  {
    match VerifyEmailToken(key, token, None, now)
    case Rejected(_) =>
      return Page(400, "403.html");
    case Valid(email) =>
      match FindIndex(db.users, ByEmail(email))
      case None =>
        return Page(404, "404.html");
      case Some(i) =>
        if db.users[i].isVerified {
          return Page(200, "already_registered.html");
        }
        var row := db.users[i].(isVerified := true);
        assert db.users[i] in db.users;
        var ok := db.UpdateUser(i, row);
        assert ok;
        db.Enqueue(Mail.SendWelcome(row.email, row.username));
        return Page(200, "register_success.html");
  }

  /**
   * `GET /auth/me` with the `access_token` cookie, if any. A token that
   * does not decode fails inside the `try` and gets the same 401 as one
   * without a subject; an unknown user is 404, not 401.
   */
  function GetMe(decode: Decoder, users: seq<User>, accessToken: Option<string>): (r: Reply)
    ensures !PyText.Truthy(accessToken) <==> r == Error(401, NOT_AUTHENTICATED)
    ensures PyText.Truthy(accessToken) && !HasSubject(decode(accessToken.value)) <==> r == Error(401, INVALID_TOKEN)
    ensures r.Me? <==> PyText.Truthy(accessToken) && HasSubject(decode(accessToken.value))
                       && Find(users, ByUsername(decode(accessToken.value).value.sub.value)).Some?
    ensures r.Me? ==> exists u | u in users :: Some(u.username) == decode(accessToken.value).value.sub
                        && r == Me(u.username, u.email, u.fullName, u.isVerified)
    ensures r in {Error(401, NOT_AUTHENTICATED), Error(401, INVALID_TOKEN), Error(404, USER_NOT_FOUND)} || r.Me?
  {
    if !PyText.Truthy(accessToken) then Error(401, NOT_AUTHENTICATED)
    else
      var decoded := decode(accessToken.value);
      if !HasSubject(decoded) then Error(401, INVALID_TOKEN)
      else match Find(users, ByUsername(decoded.value.sub.value))
        case None => Error(404, USER_NOT_FOUND)
        case Some(u) => Me(u.username, u.email, u.fullName, u.isVerified)
  }

  /** `POST /auth/logout`: both session cookies are deleted. */
  method Logout(response: Response) returns (r: Reply)
    modifies response
    ensures response.cookies == old(response.cookies) + [DeleteCookie("access_token"), DeleteCookie("refresh_token")]
    ensures r == Msg(LOGGED_OUT)
  {
    response.DeleteCookie("access_token");
    response.DeleteCookie("refresh_token");
    return Msg(LOGGED_OUT);
  }

  /**
   * `POST /auth/resend-verification` with a JSON body holding the email.
   * The `EmailStr` field hands on `normalize(email)`, which is what is
   * looked up.
   */
  method ResendVerificationEmail(db: Store.Store, email: string, normalize: string -> string) returns (r: Reply)
    modifies db
    ensures var e := normalize(email);
      match FindIndex(old(db.users), ByEmail(e))
      case None => r == Msg(AuthRoutes.RESEND_UNKNOWN) && db.outbox == old(db.outbox)
      case Some(i) =>
        if old(db.users)[i].isVerified then r == Error(400, ALREADY_VERIFIED) && db.outbox == old(db.outbox)
        else r == Msg(AuthRoutes.RESEND_SENT) && db.outbox == old(db.outbox) + [Mail.SendVerification(e, old(db.users)[i].username)]
    ensures db.Tables() == old(db.Tables()) && db.nextUserId == old(db.nextUserId)
  {
    match FindIndex(db.users, ByEmail(normalize(email)))
    case None =>
      return Msg(AuthRoutes.RESEND_UNKNOWN);
    case Some(i) =>
      var u := db.users[i];
      if u.isVerified {
        return Error(400, ALREADY_VERIFIED);
      }
      db.Enqueue(Mail.SendVerification(u.email, u.username));
      return Msg(AuthRoutes.RESEND_SENT);
  }

  /** The credential and verification checks of `POST /auth/login`; `is_active` is not among them. */
  function Authenticate(users: seq<User>, username: string, password: string): (r: Dependencies.Gate)
    ensures var f := Find(users, ByUsername(username));
      r.Authorized? <==> f.Some? && Verify(password, f.value.hashedPassword) && f.value.isVerified
    ensures r.Authorized? ==> r.user in users && r.user.username == username
    ensures var f := Find(users, ByUsername(username));
      f.None? || !Verify(password, f.value.hashedPassword) ==> r == Dependencies.Denied(401, BAD_CREDENTIALS)
    ensures var f := Find(users, ByUsername(username));
      f.Some? && Verify(password, f.value.hashedPassword) && !f.value.isVerified ==> r == Dependencies.Denied(403, UNVERIFIED)
  {
    match Find(users, ByUsername(username))
    case None => Dependencies.Denied(401, BAD_CREDENTIALS)
    case Some(u) =>
      if !Verify(password, u.hashedPassword) then Dependencies.Denied(401, BAD_CREDENTIALS)
      else if !u.isVerified then Dependencies.Denied(403, UNVERIFIED)
      else Dependencies.Authorized(u)
  }

  /** `POST /auth/login`: on success the two tokens go into HTTP-only cookies. */
  method Login(db: Store.Store, response: Response, username: string, password: string) returns (r: Reply)
    modifies response
    ensures match Authenticate(db.users, username, password)
      case Denied(status, detail) => r == Error(status, detail) && response.cookies == old(response.cookies)
      case Authorized(u) =>
        && r == LoggedIn(u.username, u.email, u.fullName)
        && response.cookies == old(response.cookies) + [
             SetCookie("access_token", Minted(Access, Some(username), Some(30)), ACCESS_COOKIE_AGE),
             SetCookie("refresh_token", Minted(Refresh, Some(username), None), REFRESH_COOKIE_AGE)]
  {
    match Authenticate(db.users, username, password)
    case Denied(status, detail) =>
      return Error(status, detail);
    case Authorized(u) =>
      response.SetCookie("access_token", Minted(Access, Some(u.username), Some(30)), ACCESS_COOKIE_AGE);
      response.SetCookie("refresh_token", Minted(Refresh, Some(u.username), None), REFRESH_COOKIE_AGE);
      return LoggedIn(u.username, u.email, u.fullName);
  }

  /** What `POST /auth/refresh` decides: a new access token for the decoded `sub`, or a 401. */
  datatype Renewal = Renew(access: Minted) | RenewDenied(status: int, detail: string)

  function RefreshDecision(decode: Decoder, refreshCookie: Option<string>): (r: Renewal)
    ensures !PyText.Truthy(refreshCookie) <==> r == RenewDenied(401, NO_REFRESH_COOKIE)
    ensures PyText.Truthy(refreshCookie) && decode(refreshCookie.value).None? <==> r == RenewDenied(401, BAD_REFRESH)
    ensures r.Renew? ==> r.access == Minted(Access, decode(refreshCookie.value).value.sub, Some(30))
  {
    if !PyText.Truthy(refreshCookie) then RenewDenied(401, NO_REFRESH_COOKIE)
    else match decode(refreshCookie.value)
      case None => RenewDenied(401, BAD_REFRESH)
      case Some(claims) => Renew(Minted(Access, claims.sub, Some(30)))
  }

  /** `POST /auth/refresh` with the `refresh_token` cookie, if any. */
  method RefreshToken(decode: Decoder, response: Response, refreshCookie: Option<string>) returns (r: Reply)
    modifies response
    ensures match RefreshDecision(decode, refreshCookie)
      case RenewDenied(status, detail) => r == Error(status, detail) && response.cookies == old(response.cookies)
      case Renew(access) =>
        r == Msg(REFRESHED) && response.cookies == old(response.cookies) + [SetCookie("access_token", access, ACCESS_COOKIE_AGE)]
  {
    match RefreshDecision(decode, refreshCookie)
    case RenewDenied(status, detail) =>
      return Error(status, detail);
    case Renew(access) =>
      response.SetCookie("access_token", access, ACCESS_COOKIE_AGE);
      return Msg(REFRESHED);
  }

  // ---------------------------------------------------------------------
  // Where this router is looser than app/auth/routes.py

  /** A disabled but verified account logs in here, while app/auth/routes.py refuses it. */
  lemma{:induction false} DisabledAccountLogsIn(users: seq<User>, i: nat, password: string)
    requires KeysUnique(users) && i < |users|
    requires !users[i].isActive && users[i].isVerified && Verify(password, users[i].hashedPassword)
    ensures Authenticate(users, users[i].username, password) == Dependencies.Authorized(users[i])
    ensures AuthRoutes.Login(users, users[i].username, password) == Error(403, AuthRoutes.LOGIN_DISABLED)
  {
    FindTheRow(users, i, ByUsername(users[i].username));
  }

  /** Any token that decodes is renewed, whatever its type and even without a `sub`. */
  lemma AnyDecodableTokenRenews(decode: Decoder, cookie: string, sub: Option<string>, typ: Option<string>)
    requires cookie != "" && decode(cookie) == Some(Claims(sub, typ))
    ensures RefreshDecision(decode, Some(cookie)) == Renew(Minted(Access, sub, Some(30)))
  {
  }

  /** An access token renews here but is refused by app/auth/routes.py. */
  lemma AccessTokenRenewsOnlyHere(decode: Decoder, cookie: string)
    requires cookie != "" && decode(cookie).Some? && decode(cookie).value.typ == Some("access")
    ensures RefreshDecision(decode, Some(cookie)).Renew?
    ensures AuthRoutes.RefreshAccessToken(decode, cookie) == Error(403, AuthRoutes.NOT_REFRESH)
  {
  }

  /** `/me` names the one row whose username is the token's subject. */
  lemma{:induction false} MeShowsTheSubject(decode: Decoder, users: seq<User>, i: nat, token: string)
    requires KeysUnique(users) && i < |users| && token != ""
    requires decode(token).Some? && decode(token).value.sub == Some(users[i].username) && users[i].username != ""
    ensures GetMe(decode, users, Some(token)) == Me(users[i].username, users[i].email, users[i].fullName, users[i].isVerified)
  {
    FindTheRow(users, i, ByUsername(users[i].username));
  }

  /** A subject that names no user is 404 at `/me` but 401 at the bearer gate. */
  lemma UnknownSubjectIs404(decode: Decoder, users: seq<User>, token: string)
    requires token != "" && HasSubject(decode(token)) && decode(token).value.typ == Some("access")
    requires forall u | u in users :: Some(u.username) != decode(token).value.sub
    ensures GetMe(decode, users, Some(token)) == Error(404, USER_NOT_FOUND)
    ensures Dependencies.GetCurrentUser(decode, token, users) == Dependencies.Denied(401, Dependencies.CREDENTIALS_DETAIL)
  {
  }
}
