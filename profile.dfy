/**
 * `POST /profile/update` (app/routers/profile.py). The caller passes the
 * active gate; then at most one change is made, chosen in the order
 * email, new password, full name. The email branch only sends a
 * confirmation mail: nothing in the handler writes the new email.
 */
module Profile {
  import opened Wrappers
  import opened Hasher
  import opened Schema
  import opened SessionTokens
  import opened Http
  import Store
  import Mail
  import PyText
  import Dependencies

  const EMAIL_IN_USE: string := "Данный email уже используется"
  const BAD_CREDENTIALS: string := "Неверные учетные данные"
  const CHECK_MAIL: string := "Successful. Check your email for verification."
  const PASSWORD_CHANGED: string := "Password successfully changed"
  const FULL_NAME_CHANGED: string := "Full name successfully changed"

  /** The JSON body's optional fields; a missing key reads as `None`. */
  datatype ProfileBody = ProfileBody(
    fullName: Option<string>,
    oldPassword: Option<string>,
    newPassword: Option<string>,
    email: Option<string>)

  /** What the handler decides to do for `user`. */
  datatype Step =
    | Refuse(reply: Reply)
    | ChangeMail(email: string)
    | SetPassword(hashed: Digest)
    | SetFullName(name: string)
    | NoChange

  /** Some row of `users`, the caller's included, already has `email`. */
  predicate EmailInUse(users: seq<User>, email: string) {
    FindIndex(users, ByEmail(email)).Some?
  }

  function Decide(user: User, users: seq<User>, body: ProfileBody): (s: Step)
    ensures s.Refuse? ==> s.reply in {Error(403, EMAIL_IN_USE), Error(401, BAD_CREDENTIALS)}
    ensures s == Refuse(Error(403, EMAIL_IN_USE)) <==> PyText.Truthy(body.email) && EmailInUse(users, body.email.value)
    ensures s.ChangeMail? <==> PyText.Truthy(body.email) && !EmailInUse(users, body.email.value)
    ensures s.ChangeMail? ==> s.email == body.email.value
    ensures s.SetPassword? <==>
      && !PyText.Truthy(body.email) && PyText.Truthy(body.newPassword)
      && PyText.Truthy(body.oldPassword) && Verify(body.oldPassword.value, user.hashedPassword)
    ensures s.SetPassword? ==> Verify(body.newPassword.value, s.hashed)
    ensures s.SetFullName? <==> !PyText.Truthy(body.email) && !PyText.Truthy(body.newPassword) && PyText.Truthy(body.fullName)
    ensures s.SetFullName? ==> s.name == body.fullName.value
    ensures s.NoChange? <==> !PyText.Truthy(body.email) && !PyText.Truthy(body.newPassword) && !PyText.Truthy(body.fullName)
  {
    if PyText.Truthy(body.email) then
      if EmailInUse(users, body.email.value) then Refuse(Error(403, EMAIL_IN_USE))
      else ChangeMail(body.email.value)
    else if PyText.Truthy(body.newPassword) then
      if !PyText.Truthy(body.oldPassword) || !Verify(body.oldPassword.value, user.hashedPassword) then
        Refuse(Error(401, BAD_CREDENTIALS))
      else SetPassword(Hash(body.newPassword.value))
    else if PyText.Truthy(body.fullName) then SetFullName(body.fullName.value)
    else NoChange
  }

  /** `update_profile` for the bearer `token` and the JSON `body`. */
  method UpdateProfile(db: Store.Store, decode: Decoder, token: string, body: ProfileBody) returns (r: Reply)
    requires db.Valid()
    modifies db
    ensures db.Valid()
    ensures var g := Dependencies.GetCurrentActiveUser(decode, token, old(db.users));
      && (g.Denied? ==> r == Error(g.status, g.detail) && db.users == old(db.users) && db.outbox == old(db.outbox))
      && (g.Authorized? ==>
            var u := g.user;
            match Decide(u, old(db.users), body)
            case Refuse(reply) => r == reply && db.users == old(db.users) && db.outbox == old(db.outbox)
            case ChangeMail(e) =>
              r == Json([("message", CHECK_MAIL), ("email", e)]) && db.users == old(db.users)
              && db.outbox == old(db.outbox) + [Mail.SendChangeMail(e, Some(u.username))]
            case SetPassword(d) =>
              r == Msg(PASSWORD_CHANGED) && db.outbox == old(db.outbox)
              && exists i | 0 <= i < |old(db.users)| :: old(db.users)[i] == u && db.users == old(db.users)[i := u.(hashedPassword := d)]
            case SetFullName(n) =>
              db.outbox == old(db.outbox) &&
              if UserFits(u.(fullName := n)) then
                r == Msg(FULL_NAME_CHANGED)
                && exists i | 0 <= i < |old(db.users)| :: old(db.users)[i] == u && db.users == old(db.users)[i := u.(fullName := n)]
              else r == ServerError && db.users == old(db.users)
            case NoChange => r == NullBody && db.users == old(db.users) && db.outbox == old(db.outbox))
    ensures db.folders == old(db.folders) && db.notes == old(db.notes) && db.nextUserId == old(db.nextUserId)
  {
    var g := Dependencies.GetCurrentActiveUser(decode, token, db.users);
    if g.Denied? {
      return Error(g.status, g.detail);
    }
    var u := g.user;
    var k :| 0 <= k < |db.users| && db.users[k] == u;
    FindTheRow(db.users, k, ByUsername(u.username));
    match Decide(u, db.users, body)
    case Refuse(reply) =>
      return reply;
    case ChangeMail(e) =>
      db.Enqueue(Mail.SendChangeMail(e, Some(u.username)));
      return Json([("message", CHECK_MAIL), ("email", e)]);
    case SetPassword(d) =>
      assert db.users[k] in db.users;
      var ok := db.UpdateUser(k, u.(hashedPassword := d));
      assert ok;
      return Msg(PASSWORD_CHANGED);
    case SetFullName(n) =>
      var ok := db.UpdateUser(k, u.(fullName := n));
      if !ok {
        return ServerError;
      }
      return Msg(FULL_NAME_CHANGED);
    case NoChange =>
      return NullBody;
  }

  /** With an email in the body the other fields are ignored. */
  lemma EmailTakesPrecedence(user: User, users: seq<User>, body: ProfileBody, other: ProfileBody)
    requires PyText.Truthy(body.email) && other.email == body.email
    ensures Decide(user, users, body) == Decide(user, users, other)
    ensures Decide(user, users, body).Refuse? || Decide(user, users, body).ChangeMail?
  {
  }

  /** Asking to "change" to the email one already has is refused: the caller's own row counts as in use. */
  lemma OwnEmailRefused(users: seq<User>, i: nat, body: ProfileBody)
    requires i < |users| && body.email == Some(users[i].email) && users[i].email != ""
    ensures Decide(users[i], users, body) == Refuse(Error(403, EMAIL_IN_USE))
  {
    assert Matches(users[i], ByEmail(users[i].email));
  }

  /** Without an email, a new password is checked against the old one before anything else. */
  lemma WrongOldPasswordRefused(user: User, users: seq<User>, body: ProfileBody)
    requires !PyText.Truthy(body.email) && PyText.Truthy(body.newPassword)
    requires body.oldPassword.None? || !Verify(body.oldPassword.value, user.hashedPassword)
    ensures Decide(user, users, body) == Refuse(Error(401, BAD_CREDENTIALS))
  {
  }

  /** After a password change the new password verifies and the old one no longer does, unless they are equal. */
  lemma PasswordChangeTakesEffect(user: User, users: seq<User>, body: ProfileBody)
    requires Decide(user, users, body).SetPassword?
    ensures var d := Decide(user, users, body).hashed;
      Verify(body.newPassword.value, d) && (body.oldPassword.value != body.newPassword.value ==> !Verify(body.oldPassword.value, d))
  {
  }
}
