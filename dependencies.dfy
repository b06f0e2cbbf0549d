/**
 * The authorization gate (app/defs/auth/dependencies.py): the bearer token
 * is decoded, its subject and type are checked, and the subject is looked
 * up in `users`; the active gate then checks the account flags. Both only
 * read.
 */
module Dependencies {
  import opened Wrappers
  import opened SessionTokens
  import opened Schema

  const CREDENTIALS_DETAIL: string := "Could not validate credentials"
  const NOT_ACCESS_DETAIL: string := "Pleace provide an access token, not a refresh token"
  const INACTIVE_DETAIL: string := "Inactive user"
  const UNVERIFIED_DETAIL: string := "Email not verified"

  datatype Gate = Authorized(user: User) | Denied(status: int, detail: string)

  /** The claims decode, carry a `sub` (possibly empty) and say `type == "access"`. */
  predicate AccessClaims(decoded: Option<Claims>) {
    decoded.Some? && decoded.value.sub.Some? && decoded.value.typ == Some("access")
  }

  /** `get_current_user(token)`. */
  function GetCurrentUser(decode: Decoder, token: string, users: seq<User>): (r: Gate)
    ensures r.Authorized? <==> AccessClaims(decode(token)) && Find(users, ByUsername(decode(token).value.sub.value)).Some?
    ensures r.Authorized? ==> r.user in users && decode(token).value.sub == Some(r.user.username)
    ensures r == Denied(403, NOT_ACCESS_DETAIL) <==>
      decode(token).Some? && decode(token).value.sub.Some? && decode(token).value.typ != Some("access")
    ensures r.Denied? && r.status != 403 ==> r == Denied(401, CREDENTIALS_DETAIL)
  {
    match decode(token)
    case None => Denied(401, CREDENTIALS_DETAIL)
    case Some(claims) =>
      if claims.sub.None? then Denied(401, CREDENTIALS_DETAIL)
      else if claims.typ != Some("access") then Denied(403, NOT_ACCESS_DETAIL)
      else match Find(users, ByUsername(claims.sub.value))
        case None => Denied(401, CREDENTIALS_DETAIL)
        case Some(u) => Authorized(u)
  }

  /** `get_current_active_user`: applied to what `get_current_user` gave. */
  function GetCurrentActiveUser(decode: Decoder, token: string, users: seq<User>): (r: Gate)
    ensures r.Authorized? <==> var g := GetCurrentUser(decode, token, users); g.Authorized? && g.user.isActive && g.user.isVerified
    ensures r.Authorized? ==> r == GetCurrentUser(decode, token, users)
    ensures GetCurrentUser(decode, token, users).Denied? ==> r == GetCurrentUser(decode, token, users)
  {
    match GetCurrentUser(decode, token, users)
    case Denied(s, d) => Denied(s, d)
    case Authorized(u) =>
      if !u.isActive then Denied(403, INACTIVE_DETAIL)
      else if !u.isVerified then Denied(403, UNVERIFIED_DETAIL)
      else Authorized(u)
  }

  /** The outcomes in order: no claims 401, no `sub` 401, wrong type 403, unknown user 401. */
  lemma GateOrder(decode: Decoder, token: string, users: seq<User>)
    ensures decode(token).None? ==> GetCurrentUser(decode, token, users) == Denied(401, CREDENTIALS_DETAIL)
    ensures decode(token).Some? && decode(token).value.sub.None? ==> GetCurrentUser(decode, token, users) == Denied(401, CREDENTIALS_DETAIL)
    ensures AccessClaims(decode(token)) && (forall u | u in users :: u.username != decode(token).value.sub.value)
      ==> GetCurrentUser(decode, token, users) == Denied(401, CREDENTIALS_DETAIL)
  {
  }

  /** The type check comes before the lookup: a non-access token gets the same 403 whatever the users table holds. */
  lemma TypeCheckedBeforeLookup(decode: Decoder, token: string, users: seq<User>, others: seq<User>)
    requires GetCurrentUser(decode, token, users).Denied? && GetCurrentUser(decode, token, users).status == 403
    ensures GetCurrentUser(decode, token, others) == GetCurrentUser(decode, token, users)
  {
  }

  /** A refresh token never passes the gate. */
  lemma RefreshTokenRejected(decode: Decoder, token: string, users: seq<User>)
    requires decode(token).Some? && decode(token).value.typ == Some("refresh")
    ensures !GetCurrentUser(decode, token, users).Authorized?
    ensures !GetCurrentActiveUser(decode, token, users).Authorized?
  {
  }

  /** On a consistent table the gate returns the one row whose username is `sub`. */
  lemma GateFindsTheRow(decode: Decoder, token: string, users: seq<User>, i: nat)
    requires KeysUnique(users) && i < |users|
    requires AccessClaims(decode(token)) && decode(token).value.sub == Some(users[i].username)
    ensures GetCurrentUser(decode, token, users) == Authorized(users[i])
  {
    assert Matches(users[i], ByUsername(users[i].username));
  }

  /** The active gate rejects an inactive account first, then an unverified one. */
  lemma ActiveGateOrder(decode: Decoder, token: string, users: seq<User>)
    requires GetCurrentUser(decode, token, users).Authorized?
    ensures var u := GetCurrentUser(decode, token, users).user;
      && (!u.isActive ==> GetCurrentActiveUser(decode, token, users) == Denied(403, INACTIVE_DETAIL))
      && (u.isActive && !u.isVerified ==> GetCurrentActiveUser(decode, token, users) == Denied(403, UNVERIFIED_DETAIL))
  {
  }
}
