/**
 * The account lifecycle of app/auth/routes.py: register, verify, resend,
 * login, refresh, forgot and reset. Handlers that write to the database or
 * queue mail are methods on the store; login and refresh only decide and
 * are functions. `key` is the application's `SECRET_KEY` and `now` the
 * time of the request, in seconds.
 */
module AuthRoutes {
  import opened Wrappers
  import opened Hasher
  import opened Schema
  import opened SessionTokens
  import opened EmailTokens
  import opened Http
  import Store
  import Mail
  import Config
  import Validators
  import PyText

  const EMAIL_TAKEN: string := "Email already registered"
  const USERNAME_TAKEN: string := "Username already taken"
  const USER_NOT_FOUND: string := "User not found"
  const ALREADY_VERIFIED: string := "Email already verified"
  const RESEND_UNKNOWN: string := "If email exists, verification link has been sent"
  const RESEND_SENT: string := "Verification email sent"
  const BAD_CREDENTIALS: string := "Incorrect username or password"
  const LOGIN_UNVERIFIED: string := "Email not verified. Please check your inbox."
  const LOGIN_DISABLED: string := "Account is disabled"
  const BAD_REFRESH: string := "Invalid refresh token"
  const NOT_REFRESH: string := "Please provide a refresh token"
  const BAD_PAYLOAD: string := "Invalid token payload"
  const FORGOT_UNKNOWN: string := "If email exists, password reset link has been sent"
  const FORGOT_SENT: string := "Password reset link sent"
  const RESET_DONE: string := "Password successfully reset"

  /** The row `register_user` commits for a query that found no match. */
  function NewUser(id: int, username: string, email: string, fullName: string, password: string): (u: User)
    ensures u.isActive && !u.isVerified && Verify(password, u.hashedPassword)
  {
    User(id, username, email, fullName, Hash(password), true, false)
  }

  /**
   * `POST /auth/register` with a body that passed `UserCreate`. The
   * `EmailStr` field hands on `normalize(email)`, the address in the
   * normalized form the validator returns; that form is what is queried,
   * stored and mailed. One query selects rows whose email or username
   * match; several rows make `scalar_one_or_none` raise. A missing
   * `full_name` breaks the `NOT NULL` column at commit, as does a value too
   * long for its column.
   */
  method RegisterUser(db: Store.Store, username: string, email: string, fullName: Option<string>, password: string,
                      isEmail: string -> bool, normalize: string -> string)
    returns (r: Reply)
    requires db.Valid()
    requires Validators.ValidUserCreate(username, email, password, isEmail)
    modifies db
    ensures db.Valid()
    ensures var e := normalize(email);
      var look := ScalarOneOrNone(old(db.users), ByEmailOrUsername(e, username));
      && (look.ManyRows? ==> r == ServerError)
      && (look.OneRow? ==> r == Error(400, if old(db.users)[look.index].email == e then EMAIL_TAKEN else USERNAME_TAKEN))
      && (look.NoRow? ==>
            var u := NewUser(old(db.nextUserId), username, e, fullName.GetOr(""), password);
            if fullName.Some? && UserFits(u) then
              r == Created(View(u)) && db.users == old(db.users) + [u]
              && db.outbox == old(db.outbox) + [Mail.SendVerification(e, username)]
              && db.nextUserId == old(db.nextUserId) + 1
            else r == ServerError)
    ensures !r.Created? ==> db.users == old(db.users) && db.outbox == old(db.outbox) && db.nextUserId == old(db.nextUserId)
    ensures db.folders == old(db.folders) && db.notes == old(db.notes)
  {
    var e := normalize(email);
    var look := ScalarOneOrNone(db.users, ByEmailOrUsername(e, username));
    match look
    case ManyRows =>
      return ServerError;
    case OneRow(i) =>
      if db.users[i].email == e {
        return Error(400, EMAIL_TAKEN);
      }
      return Error(400, USERNAME_TAKEN);
    case NoRow =>
      assert forall j | 0 <= j < |db.users| :: !Matches(db.users[j], ByUsername(username)) && !Matches(db.users[j], ByEmail(e)) by {
        forall j | 0 <= j < |db.users| ensures !Matches(db.users[j], ByUsername(username)) && !Matches(db.users[j], ByEmail(e)) {
          assert !Matches(db.users[j], ByEmailOrUsername(e, username));
        }
      }
      assert forall j | 0 <= j < |db.users| :: !Matches(db.users[j], ById(db.nextUserId)) by {
        forall j | 0 <= j < |db.users| ensures !Matches(db.users[j], ById(db.nextUserId)) {
          assert db.users[j] in db.users;
        }
      }
      var created := db.InsertUser(username, e, fullName, Hash(password), false);
      if created.None? {
        return ServerError;
      }
      var u := created.value;
      db.Enqueue(Mail.SendVerification(u.email, u.username));
      return Created(View(u));
  }

  /**
   * `GET /auth/verify?token=...`. The email column is unique, so the
   * lookup is the first match (`Schema.UniqueColumnLookup`).
   */
  method VerifyEmail(db: Store.Store, key: string, token: SignedToken, now: int) returns (r: Reply)
    requires db.Valid()
    modifies db
    ensures db.Valid()
    ensures match VerifyEmailToken(key, token, None, now)
      case Rejected(reason) => r == Error(400, reason) && db.users == old(db.users)
      case Valid(email) =>
        match FindIndex(old(db.users), ByEmail(email))
        case None => r == Error(404, USER_NOT_FOUND) && db.users == old(db.users)
        case Some(i) =>
          if old(db.users)[i].isVerified then
            r == Json([("message", ALREADY_VERIFIED), ("status", "success")]) && db.users == old(db.users)
          else
            r == Page(200, "register_success.html")
            && db.users == old(db.users)[i := old(db.users)[i].(isVerified := true)]
    ensures db.folders == old(db.folders) && db.notes == old(db.notes) && db.outbox == old(db.outbox) && db.nextUserId == old(db.nextUserId)
  {
    match VerifyEmailToken(key, token, None, now)
    case Rejected(reason) =>
      return Error(400, reason);
    case Valid(email) =>
      match FindIndex(db.users, ByEmail(email))
      case None =>
        return Error(404, USER_NOT_FOUND);
      case Some(i) =>
        if db.users[i].isVerified {
          return Json([("message", ALREADY_VERIFIED), ("status", "success")]);
        }
        var row := db.users[i].(isVerified := true);
        assert db.users[i] in db.users;
        var ok := db.UpdateUser(i, row);
        assert ok;
        return Page(200, "register_success.html");
  }

  /** `POST /auth/resend-verification?email=...`. */
  method ResendVerificationEmail(db: Store.Store, email: string) returns (r: Reply)
    modifies db
    ensures match FindIndex(old(db.users), ByEmail(email))
      case None => r == Msg(RESEND_UNKNOWN) && db.outbox == old(db.outbox)
      case Some(i) =>
        if old(db.users)[i].isVerified then r == Error(400, ALREADY_VERIFIED) && db.outbox == old(db.outbox)
        else r == Msg(RESEND_SENT) && db.outbox == old(db.outbox) + [Mail.SendVerification(email, old(db.users)[i].username)]
    ensures db.Tables() == old(db.Tables()) && db.nextUserId == old(db.nextUserId)
  {
    match FindIndex(db.users, ByEmail(email))
    case None =>
      return Msg(RESEND_UNKNOWN);
    case Some(i) =>
      var u := db.users[i];
      if u.isVerified {
        return Error(400, ALREADY_VERIFIED);
      }
      db.Enqueue(Mail.SendVerification(u.email, u.username));
      return Msg(RESEND_SENT);
  }

  /** The two tokens of a successful login for `username`. */
  function SessionFor(username: string): (r: Reply)
    ensures r.Tokens? && r.access.Issued? && r.refresh.Issued?
    ensures r.access.minted.kind == Access && r.refresh.minted.kind == Refresh
    ensures r.access.minted.sub == Some(username) && r.refresh.minted.sub == Some(username)
    ensures r.access.minted.expiresMinutes == Some(Config.ACCESS_TOKEN_EXPIRE_MINUTES)
    ensures r.refresh.minted.expiresMinutes.None?
  {
    Tokens(Issued(Minted(Access, Some(username), Some(Config.ACCESS_TOKEN_EXPIRE_MINUTES))),
           Issued(Minted(Refresh, Some(username), None)))
  }

  /** `POST /auth/login` with the form's username and password. */
  function Login(users: seq<User>, username: string, password: string): (r: Reply)
    ensures var f := Find(users, ByUsername(username));
      r.Tokens? <==> f.Some? && Verify(password, f.value.hashedPassword) && f.value.isVerified && f.value.isActive
    ensures r.Tokens? ==> r == SessionFor(username)
    ensures var f := Find(users, ByUsername(username));
      f.None? || !Verify(password, f.value.hashedPassword) ==> r == Error(401, BAD_CREDENTIALS)
    ensures var f := Find(users, ByUsername(username));
      f.Some? && Verify(password, f.value.hashedPassword) && !f.value.isVerified ==> r == Error(403, LOGIN_UNVERIFIED)
    ensures var f := Find(users, ByUsername(username));
      f.Some? && Verify(password, f.value.hashedPassword) && f.value.isVerified && !f.value.isActive ==>
        r == Error(403, LOGIN_DISABLED)
  {
    match FindIndex(users, ByUsername(username))
    case None => Error(401, BAD_CREDENTIALS)
    case Some(i) =>
      var u := users[i];
      if !Verify(password, u.hashedPassword) then Error(401, BAD_CREDENTIALS)
      else if !u.isVerified then Error(403, LOGIN_UNVERIFIED)
      else if !u.isActive then Error(403, LOGIN_DISABLED)
      else SessionFor(u.username)
  }

  /** `POST /auth/refresh?refresh_token=...`. */
  function RefreshAccessToken(decode: Decoder, token: string): (r: Reply)
    ensures decode(token).None? ==> r == Error(401, BAD_REFRESH)
    ensures decode(token).Some? && decode(token).value.typ != Some("refresh") ==> r == Error(403, NOT_REFRESH)
    ensures r.Tokens? <==> decode(token).Some? && decode(token).value.typ == Some("refresh") && HasSubject(decode(token))
    ensures r.Tokens? ==>
      r == Tokens(Issued(Minted(Access, decode(token).value.sub, Some(Config.ACCESS_TOKEN_EXPIRE_MINUTES))), Echoed(token))
    ensures !r.Tokens? && decode(token).Some? && decode(token).value.typ == Some("refresh") ==> r == Error(401, BAD_PAYLOAD)
  {
    match decode(token)
    case None => Error(401, BAD_REFRESH)
    case Some(claims) =>
      if claims.typ != Some("refresh") then Error(403, NOT_REFRESH)
      else if !PyText.Truthy(claims.sub) then Error(401, BAD_PAYLOAD)
      else Tokens(Issued(Minted(Access, claims.sub, Some(Config.ACCESS_TOKEN_EXPIRE_MINUTES))), Echoed(token))
  }

  /**
   * `POST /auth/forgot-password?email=...`: an unknown email gets a
   * different message than a known one, and nothing is queued for it.
   */
  method ForgotPassword(db: Store.Store, key: string, email: string, now: int) returns (r: Reply)
    modifies db
    ensures match FindIndex(old(db.users), ByEmail(email))
      case None => r == Msg(FORGOT_UNKNOWN) && db.outbox == old(db.outbox)
      case Some(_) =>
        r == Msg(FORGOT_SENT)
        && db.outbox == old(db.outbox) + [Mail.SendPasswordReset(email, GeneratePasswordResetToken(key, email, now), None)]
    ensures db.Tables() == old(db.Tables()) && db.nextUserId == old(db.nextUserId)
  {
    match FindIndex(db.users, ByEmail(email))
    case None =>
      return Msg(FORGOT_UNKNOWN);
    case Some(i) =>
      var u := db.users[i];
      var resetToken := GeneratePasswordResetToken(key, u.email, now);
      db.Enqueue(Mail.SendPasswordReset(u.email, resetToken, None));
      return Msg(FORGOT_SENT);
  }

  /**
   * `GET /auth/reset-password?token=...`: the form page, or 403 with the
   * reason. app/auth/routes.py renders `reset_password.html`,
   * app/routers/auth.py `reset-password.html`.
   */
  function ResetPasswordForm(key: string, token: SignedToken, now: int, template: string): (r: Reply)
    ensures r == Page(200, template) <==> VerifyPasswordResetToken(key, token, now).Valid?
    ensures r != Page(200, template) ==> r == Error(403, VerifyPasswordResetToken(key, token, now).reason)
  {
    match VerifyPasswordResetToken(key, token, now)
    case Valid(_) => Page(200, template)
    case Rejected(reason) => Error(403, reason)
  }

  /** `POST /auth/reset-password` with the form's token and new password. */
  method ResetPassword(db: Store.Store, key: string, token: SignedToken, newPassword: string, now: int) returns (r: Reply)
    requires db.Valid()
    modifies db
    ensures db.Valid()
    ensures match VerifyPasswordResetToken(key, token, now)
      case Rejected(reason) => r == Error(400, reason) && db.users == old(db.users)
      case Valid(email) =>
        match FindIndex(old(db.users), ByEmail(email))
        case None => r == Error(404, USER_NOT_FOUND) && db.users == old(db.users)
        case Some(i) =>
          r == Msg(RESET_DONE) && db.users == old(db.users)[i := old(db.users)[i].(hashedPassword := Hash(newPassword))]
    ensures db.folders == old(db.folders) && db.notes == old(db.notes) && db.outbox == old(db.outbox) && db.nextUserId == old(db.nextUserId)
  {
    match VerifyPasswordResetToken(key, token, now)
    case Rejected(reason) =>
      return Error(400, reason);
    case Valid(email) =>
      match FindIndex(db.users, ByEmail(email))
      case None =>
        return Error(404, USER_NOT_FOUND);
      case Some(i) =>
        var row := db.users[i].(hashedPassword := Hash(newPassword));
        assert db.users[i] in db.users;
        var ok := db.UpdateUser(i, row);
        assert ok;
        return Msg(RESET_DONE);
  }

  // ---------------------------------------------------------------------
  // Properties across handlers

  /** A freshly registered account cannot log in before it is verified, whatever its password. */
  lemma{:induction false} NewAccountNeedsVerification(users: seq<User>, u: User, password: string)
    requires KeysUnique(users) && CanInsert(users, u) && !u.isVerified && Verify(password, u.hashedPassword)
    ensures Login(users + [u], u.username, password) == Error(403, LOGIN_UNVERIFIED)
  {
    var all := users + [u];
    forall j | 0 <= j < |users| ensures Differ(all[j], u) {
      assert !Matches(users[j], ById(u.id)) && !Matches(users[j], ByUsername(u.username)) && !Matches(users[j], ByEmail(u.email));
    }
    assert KeysUnique(all);
    FindTheRow(all, |users|, ByUsername(u.username));
  }

  /**
   * Once verified, an active account logs in with its password and gets
   * both tokens for its username.
   */
  lemma VerifiedAccountLogsIn(users: seq<User>, i: nat, password: string)
    requires KeysUnique(users) && i < |users| && users[i].isActive && users[i].hashedPassword == Hash(password)
    ensures Login(users[i := users[i].(isVerified := true)], users[i].username, password) == SessionFor(users[i].username)
  {
    var after := users[i := users[i].(isVerified := true)];
    assert forall a, b | 0 <= a < b < |after| :: Differ(after[a], after[b]) by {
      forall a, b | 0 <= a < b < |after| ensures Differ(after[a], after[b]) {
        assert Differ(users[a], users[b]);
      }
    }
    FindTheRow(after, i, ByUsername(users[i].username));
  }

  /** After a reset the new password logs in and any other password is refused. */
  lemma ResetReplacesPassword(users: seq<User>, i: nat, newPassword: string, other: string)
    requires KeysUnique(users) && i < |users| && users[i].isActive && users[i].isVerified && other != newPassword
    ensures var after := users[i := users[i].(hashedPassword := Hash(newPassword))];
      && Login(after, users[i].username, newPassword) == SessionFor(users[i].username)
      && Login(after, users[i].username, other) == Error(401, BAD_CREDENTIALS)
  {
    var after := users[i := users[i].(hashedPassword := Hash(newPassword))];
    assert forall a, b | 0 <= a < b < |after| :: Differ(after[a], after[b]) by {
      forall a, b | 0 <= a < b < |after| ensures Differ(after[a], after[b]) {
        assert Differ(users[a], users[b]);
      }
    }
    FindTheRow(after, i, ByUsername(users[i].username));
  }

  /** On a table with unique keys, login succeeds exactly for an active, verified account and its password. */
  lemma LoginSucceedsIff(users: seq<User>, username: string, password: string)
    requires KeysUnique(users)
    ensures Login(users, username, password).Tokens? <==> exists i | 0 <= i < |users| ::
      && users[i].username == username && Verify(password, users[i].hashedPassword)
      && users[i].isVerified && users[i].isActive
  {
    if exists i | 0 <= i < |users| :: users[i].username == username {
      var i :| 0 <= i < |users| && users[i].username == username;
      FindTheRow(users, i, ByUsername(username));
    }
  }

  /** An access token cannot be exchanged for a new one: its type is checked first. */
  lemma AccessTokenNotRefreshable(decode: Decoder, token: string)
    requires decode(token).Some? && decode(token).value.typ == Some("access")
    ensures RefreshAccessToken(decode, token) == Error(403, NOT_REFRESH)
  {
  }
}
