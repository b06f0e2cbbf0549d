# Brain Notes: authentication and notes core, in Dafny

This project models the server side of Brain Notes, a FastAPI note-taking
application. It covers:

- account lifecycle: register, verify the email, resend the verification
  mail, log in, refresh the session, forgot password, reset password,
  `/me`, logout;
- the bearer-token authorization gate and the cookie gates of the pages;
- the profile update;
- owner-scoped note and folder operations of the dashboard;
- the signed link tokens and the mail messages that carry them;
- the tables, their column constraints and their cascading deletes;
- the request-body schemas and `validate_data`.

The database is the class `Store.Store`. It holds:

- the `users` rows, as a sequence, so that `scalar_one_or_none` can be
  modelled with its three outcomes (no row, one row, several rows);
- the `folders` and `notes` tables, as maps from UUID to row;
- the next value of the user id sequence;
- an `outbox` of mail jobs, one per `background_tasks.add_task`.

`Store.Valid()` is what the database guarantees about committed rows:

- ids, usernames and emails are unique;
- every value fits its column;
- every foreign key points to an existing row.

Each write method commits. A write that would break a constraint fails at
commit with a 500 (`Reply.ServerError`), and nothing changes. Handlers that
decide without writing (login and refresh of app/auth/routes.py, `/me`, the
gates, the pages) are functions.

The application has two variants of the account lifecycle, and both are
modelled:

- `AuthRoutes` models app/auth/routes.py. It answers in JSON with bearer
  tokens.
- `AuthRouter` models app/routers/auth.py. It works with cookies and
  template pages, and checks less:
  - register looks only for a duplicate email;
  - login does not look at `is_active`;
  - refresh does not look at the token's type.

The forgot-password and reset-password handlers of app/routers/auth.py
(lines 315-335 and 349-376) are the same code as those of
app/auth/routes.py, so `AuthRoutes.ForgotPassword` and
`AuthRoutes.ResetPassword` model both. The two reset-form pages differ
only in their template name, which is a parameter of
`AuthRoutes.ResetPasswordForm`.

Behaviour the model keeps as the code has it (where an item relies on a module that is not part of this model, "## Left out" names the assumption):

- register in app/auth/routes.py runs one query for `email OR username`:
  - if two different rows match, `scalar_one_or_none` raises, and the reply
    is a 500;
  - if one row matches and it has the email, the reply is "Email already
    registered";
  - if one row matches only by username, the reply is "Username already
    taken";
  - an omitted `full_name` passes the schema but breaks the `NOT NULL`
    column at commit, which is a 500.
- In app/routers/auth.py a taken username passes the email check and
  fails at commit, which is a 500.
- Forgot-password answers differently for known and unknown emails.
- Resend answers 400 for an already-verified email.
- The change-email mail carries a token made with the verification salt (under the assumption, stated in "## Left out", that app/defs/auth/email_utils.py matches app/auth/email_utils.py).
  So the verification endpoint accepts it, and the reset endpoint refuses
  it.
- The profile email branch sends that mail and returns. Nothing writes the
  new email. An email already used by anyone, the caller included, is 403.
- `/me` answers 404, not 401, for a subject that names no user.
- `delete_folder` never commits. It answers "Folder successfully deleted"
  and the stored tables are unchanged. `Dashboard.DeleteFolder` also
  returns the view its uncommitted transaction had, which is the cascade
  delete.
- The link expiry settings read with `getattr(settings, ..., 24)` do not
  exist in `Settings`, so the mails always say 24 hours.

Foreign parts of the system are parameters or stand-ins:

- The JWT handler is not part of this model. Decoding is a parameter
  `decode: string -> Option<Claims>`. A minted token is the record of what
  the handler was asked for: its kind, its `sub` and its lifetime.
- Argon2 is replaced by an injective stand-in. `Verify(p, Hash(q))` holds
  exactly when `p == q`.
- An itsdangerous token is the tuple (payload, salt, secret, issue time),
  or `Garbled` for any other text. `Loads` checks the secret and the salt
  first, then the age, which must lie between 0 and the limit.
- `SECRET_KEY` is the parameter `key`. The request time is the parameter
  `now`, in whole seconds.
- The generated UUIDs of new notes and folders are parameters.
- `EmailStr` is two parameters: `isEmail`, which says whether the text is accepted, and `normalize`, the normalized address it hands on (pydantic's email validation lower-cases the domain and strips a display name). The normalized form is used wherever an `EmailStr` value enters: the query, the insert and the mail of `AuthRoutes.RegisterUser`, and the lookup of `AuthRouter.ResendVerificationEmail`.

## Model

| member | source | states |
|---|---|---|
| Schema.FindIndex | app/auth/routes.py:86-87 | the index of the first row a `WHERE` clause selects; `None` exactly when no row matches |
| Schema.ScalarOneOrNone | app/auth/routes.py:35-40 | no row exactly when none matches, one row only when it is the unique match, an error exactly when two rows match |
| Schema.UniqueColumnLookup | app/models/database.py:11-13 | on the primary key or a unique column the lookup never raises and returns the first match |
| Schema.FindTheRow | app/models/database.py:11-13 | on a unique column a matching row is the one the lookup returns |
| Schema.EmailOrUsernameMany | app/auth/routes.py:35-40 | the email-or-username query raises exactly when one row has the email and a different row has the username |
| Schema.InsertKeepsConsistent | app/models/database.py:11-17 | inserting a row whose values fit their columns and collide with no id, username or email keeps ids, usernames and emails unique and all columns within bounds |
| Schema.UpdateKeepsConsistent | app/models/database.py:11-17 | overwriting non-key columns with fitting values keeps the table consistent and the set of user ids the same |
| Schema.PutNoteKeepsConsistent | app/models/database.py:68-76 | a note whose title fits and whose user and folder exist can be written without breaking any constraint |
| Schema.PutFolderKeepsConsistent | app/models/database.py:34-41 | a folder whose title fits and whose user and parent exist can be written without breaking any constraint |
| Schema.SubsetNoLarger | app/models/database.py:40 | a subset of a finite set is no larger (termination measure of the folder subtree) |
| Schema.StrictSubsetSmaller | app/models/database.py:40 | a proper subset is strictly smaller |
| Schema.Subtree | app/models/database.py:40 | the folders below the roots: a superset of the roots, closed under children, and contained in every such set |
| Schema.DeleteFolderCascade | app/models/database.py:40 | the folder is gone, the users are untouched, and every remaining folder and note is unchanged; `Schema.DeleteFolderCascadeOk` states exactly which rows remain |
| Schema.DeleteFolderCascadeOk | app/models/database.py:40 | deleting a folder removes it, every folder below it and every note filed in any of them; all other rows are kept unchanged and the result is consistent |
| Schema.RemoveUser | app/models/database.py:11 | exactly the rows whose id differs from the deleted one remain |
| Schema.TailKeysUnique | app/models/database.py:11-13 | dropping the first row keeps the keys unique and the first row differs from all others |
| Schema.ConsKeysUnique | app/models/database.py:11-13 | a row that differs from every row of a table with unique keys can be put in front of it |
| Schema.RemoveUserKeepsKeys | app/models/database.py:11-13 | removing a user keeps the keys unique and removes exactly that id |
| Schema.DeleteUserCascade | app/models/database.py:40-41 | no remaining user has the id, and every remaining folder and note is unchanged and no remaining note is the user's; `Schema.DeleteUserCascadeOk` states exactly which rows remain |
| Schema.DeleteUserCascadeOk | app/models/database.py:40-41 | deleting a user removes the user and, through the `ondelete="CASCADE"` foreign keys of folders (lines 40-41) and notes (lines 75-76), every folder and note of the user and everything filed below those folders; a folder remains exactly when it is outside that subtree, a note exactly when it is another user's and filed outside it, a user row exactly when its id differs; what is left is unchanged and consistent |
| Store.Store.constructor | app/models/database.py:8-17 | an empty database is consistent |
| Store.Store.InsertUser | app/auth/routes.py:56-66 | the insert succeeds exactly when `full_name` is given and the row fits and collides with nothing; the new row gets the next id and `is_active = true`; on failure nothing changes |
| Store.Store.UpdateUser | app/auth/routes.py:98-99 | the row is overwritten exactly when its values fit their columns; nothing else changes |
| Store.Store.InsertNote | app/defs/dashboard/defs.py:27-28 | the note is added exactly when its id is new and it obeys its constraints; nothing else changes |
| Store.Store.UpdateNote | app/defs/dashboard/defs.py:47-57 | the note is overwritten exactly when the new row obeys its constraints |
| Store.Store.DeleteNote | app/defs/dashboard/defs.py:66-75 | the note is removed and nothing else changes |
| Store.Store.PutFolder | app/defs/dashboard/defs.py:92-93 | the folder is written exactly when it is new (for an insert) and obeys its constraints in the table it ends up in |
| Store.Store.Enqueue | app/auth/routes.py:68-72 | the job is appended to the outbox and no table changes |
| Validators.FailingFields | app/models/validators.py:50 | a name is in the list exactly when a field of that name fails; empty exactly when every field validates |
| Validators.ValidateData | app/models/validators.py:45-59 | a non-mapping input is 400 "NotJSONFormat"; an invalid mapping is 400 "ParameterError" followed by the repr of the failing field names; it passes exactly when every field validates |
| Validators.UserCreateAccepts | app/models/validators.py:6-13 | a registration validates exactly when the username has 3 to 50 characters, the email is an email and the password has at least 8 characters |
| Validators.ShortPasswordReported | app/models/validators.py:13 | a password shorter than 8 characters is reported as `ParameterError ['password']` |
| Validators.FullNameOptional | app/models/validators.py:10 | an absent or null `full_name` never fails |
| Validators.NewNoteAccepts | app/models/validators.py:41-43 | a note body validates exactly when `body` is a string and the header, if any, is null or at most 50 characters |
| PyText.Head | app/defs/dashboard/defs.py:18 | `s[:n]` is the prefix of `s` of length exactly `n`, or all of `s` when it is shorter |
| PyText.BeforeFirst | app/defs/auth/service_defs.py:53 | `s.split(c)[0]` is the prefix of `s` before the first `c` |
| PyText.ListRepr | app/models/validators.py:53 | a list repr is bracketed, and `[]` for the empty list |
| PyText.ReadQuotedJoin | app/models/validators.py:53 | for names without single quotes, the quoted, comma-separated items read back as exactly those names in order |
| PyText.ListReprReadsBack | app/models/validators.py:53 | the repr of a list of quoteless names reads back as that list: each name appears in quotes, in order, and nothing else |
| Config.GetAttrInt | app/defs/auth/service_defs.py:56 | `getattr` returns the declared setting, or the default when the setting is not declared |
| Config.LinkExpirySettingsAbsent | app/config.py:4-26 | `Settings` declares no reset or change-email expiry |
| Hasher.VerifyHash | app/auth/routes.py:54 | a password verifies against its own digest, and no other password does |
| EmailTokens.Loads | app/auth/email_utils.py:13-23 | a bad signature exactly when the secret or salt differ; expired exactly when the signature is good and the age exceeds the limit or is negative; otherwise the payload |
| EmailTokens.Dumps | app/auth/email_utils.py:7 | the token is signed with exactly the given secret and salt, and read back at once it yields its payload |
| EmailTokens.GenerateVerificationToken | app/auth/email_utils.py:6-7 | read back at once the token verifies to the email, and the reset check refuses it |
| EmailTokens.VerifyEmailToken | app/auth/email_utils.py:9-23 | the email exactly when the token is signed with the secret and the verification salt and is within the window; "invalid" exactly when the signature or salt is wrong; otherwise "expired" |
| EmailTokens.GeneratePasswordResetToken | app/auth/email_utils.py:25-26 | read back at once the token passes the reset check with the email, and the verification check refuses it |
| EmailTokens.VerifyPasswordResetToken | app/auth/email_utils.py:28-41 | the email exactly when the token is signed with the secret and the reset salt and is within 24 hours; "invalid" exactly when the signature or salt is wrong; otherwise "expired" |
| EmailTokens.DefaultWindow | app/auth/email_utils.py:10-11 | the default window is 24 hours, in seconds |
| EmailTokens.VerificationRoundTrip | app/auth/email_utils.py:6-19 | a verification token read within its window gives back exactly the email |
| EmailTokens.VerificationExpires | app/auth/email_utils.py:20-21 | a verification token older than its window, or read before its issue time, fails with the "expired" text |
| EmailTokens.ResetRoundTrip | app/auth/email_utils.py:25-37 | a reset token read within 24 hours gives back exactly the email |
| EmailTokens.ResetExpires | app/auth/email_utils.py:28-39 | a reset token older than 24 hours, or read before its issue time, fails with "Password reset link has expired." |
| EmailTokens.PurposesSeparate | app/auth/email_utils.py:7-34 | a reset token is an invalid verification token and a verification token an invalid reset token |
| EmailTokens.ForeignOrGarbledRejected | app/auth/email_utils.py:22-41 | a token signed with another secret, or not a token at all, is invalid for both purposes |
| EmailTokens.SignatureBeforeAge | app/auth/email_utils.py:20-23 | a token with a bad signature is reported as invalid, never as expired |
| EmailTokens.VerifiedMeansIssued | app/auth/email_utils.py:9-19 | a token that verifies was issued for that email, with this secret and the verification salt, within the window |
| Mail.GreetingName | app/defs/auth/service_defs.py:52-53 | the given username if truthy, else the part of the email before the first '@' |
| Mail.SendVerificationEmail | app/defs/auth/service_defs.py:21-41 | the mail goes to the given email, greets the username, and links to `APP_URL` + `/auth/verify?token=` with a token that, read at once, verifies to that email |
| Mail.SendPasswordResetEmail | app/defs/auth/service_defs.py:44-74 | the mail goes to the given email, greets the username or the part of the email before '@', links to `APP_URL` + `/auth/reset-password?token=` with the given token, and says 24 hours |
| Mail.SendChangeMailEmail | app/defs/auth/service_defs.py:76-105 | the mail goes to the new email, links to `APP_URL` + `/auth/change-email?token=` with a verification-salt token of that email, and says 24 hours |
| Mail.SendWelcomeEmail | app/defs/auth/service_defs.py:107-126 | the mail goes to the given email, greets the username, and links to `APP_URL` + `/dashboard` with no token |
| Mail.Compose | app/defs/auth/service_defs.py:35 | every message has exactly one recipient, the job's email |
| Mail.VerificationLinkReadsBack | app/defs/auth/service_defs.py:26-27 | the verification link is the verify URL with a token that, read within 24 hours, gives back the recipient's email |
| Mail.ChangeMailReusesVerificationSalt | app/defs/auth/service_defs.py:80 | the change-email token passes the verification check and fails the reset check |
| Dependencies.GetCurrentUser | app/defs/auth/dependencies.py:13-44 | authorized exactly for access-type claims with a `sub` that names a row, and then that row; 403 exactly for a decoded `sub` with the wrong type; every other refusal is 401 |
| Dependencies.GetCurrentActiveUser | app/defs/auth/dependencies.py:46-61 | authorized exactly when the base gate authorizes an active and verified user; a refusal of the base gate is passed on unchanged |
| Dependencies.GateOrder | app/defs/auth/dependencies.py:23-42 | no claims, no `sub`, and an unknown user are each 401 "Could not validate credentials" |
| Dependencies.TypeCheckedBeforeLookup | app/defs/auth/dependencies.py:31-38 | a 403 does not depend on the users table |
| Dependencies.RefreshTokenRejected | app/defs/auth/dependencies.py:31-36 | a refresh-type token never passes either gate |
| Dependencies.GateFindsTheRow | app/defs/auth/dependencies.py:38-44 | on a consistent table the gate returns the row whose username is `sub` |
| Dependencies.ActiveGateOrder | app/defs/auth/dependencies.py:49-59 | an inactive user is "Inactive user" before verification is looked at; an active unverified user is "Email not verified" |
| AuthRoutes.NewUser | app/auth/routes.py:54-62 | a new account is active, unverified, and its password verifies |
| AuthRoutes.RegisterUser | app/auth/routes.py:29-74 | the email is taken in its `EmailStr`-normalized form, which is queried, stored and mailed; several matches are 500; one match is "Email already registered" when it has the email, else "Username already taken"; no match adds exactly the new row and queues one verification mail to it, or fails at commit with nothing changed |
| AuthRoutes.VerifyEmail | app/auth/routes.py:76-101 | a bad token is 400 with its reason; an unknown email is 404; an already verified user gets the success message with no write; otherwise only `is_verified` of that row becomes true |
| AuthRoutes.ResendVerificationEmail | app/auth/routes.py:103-127 | an unknown email gets the "If email exists" message with nothing queued; a verified user gets 400; otherwise exactly one verification mail is queued; no table changes |
| AuthRoutes.SessionFor | app/auth/routes.py:160-171 | an access token for 30 minutes and a refresh token, both with `sub` the username |
| AuthRoutes.Login | app/auth/routes.py:133-171 | tokens exactly when the row found by username has a matching password, is verified and is active; no row or a wrong password is 401 "Incorrect username or password"; otherwise an unverified row is 403 "Email not verified"; otherwise a disabled row is 403 "Account is disabled" |
| AuthRoutes.LoginSucceedsIff | app/auth/routes.py:138-158 | on a consistent table, login succeeds exactly when some row has that username and password and is verified and active |
| AuthRoutes.RefreshAccessToken | app/auth/routes.py:173-209 | an undecodable token is 401; a non-refresh type is 403; a falsy `sub` is 401; success is a new 30-minute access token for the same `sub` and the refresh token echoed back |
| AuthRoutes.AccessTokenNotRefreshable | app/auth/routes.py:186-190 | an access token is refused with 403 |
| AuthRoutes.ForgotPassword | app/auth/routes.py:216-236 | an unknown email gets "If email exists" with nothing queued; a known one gets "Password reset link sent" and one reset mail with a reset-salt token of that email; no table changes |
| AuthRoutes.ResetPasswordForm | app/auth/routes.py:238-247 | the form page exactly when the reset token verifies, else 403 with the reason; app/routers/auth.py:337-347 is the same with the template `reset-password.html` |
| AuthRoutes.ResetPassword | app/auth/routes.py:249-276 | a bad token is 400 with its reason; an unknown email is 404; success overwrites only that user's password hash |
| AuthRoutes.NewAccountNeedsVerification | app/auth/routes.py:148-152 | a just-registered account is refused with 403 "Email not verified" even with the right password |
| AuthRoutes.VerifiedAccountLogsIn | app/auth/routes.py:98-171 | after verification an active account logs in with its password and gets tokens for its username |
| AuthRoutes.ResetReplacesPassword | app/auth/routes.py:273 | after a reset the new password logs in and any other password is 401 |
| AuthRouter.Register | app/routers/auth.py:29-72 | a taken email is 400 "Email уже зарегистрирован"; otherwise the new unverified row is added and one verification mail queued, or a taken username or over-long value fails at commit with nothing changed |
| AuthRouter.VerifyEmail | app/routers/auth.py:74-116 | a bad token is the 400 page; an unknown email the 404 page; a verified user the already-registered page with no write and no mail; a first verification sets only `is_verified` and queues exactly one welcome mail |
| AuthRouter.GetMe | app/routers/auth.py:118-164 | no cookie is 401 "Not authenticated"; an undecodable token or a falsy `sub` is 401 "Invalid token"; an unknown user is 404; otherwise only username, email, full name and `is_verified` of the row named by `sub` |
| AuthRouter.MeShowsTheSubject | app/routers/auth.py:150-164 | on a consistent table `/me` shows the row whose username is the token's subject |
| AuthRouter.UnknownSubjectIs404 | app/routers/auth.py:153-157 | a subject naming no user is 404 at `/me` but 401 at the bearer gate |
| AuthRouter.Logout | app/routers/auth.py:166-174 | both session cookies are deleted, access first |
| AuthRouter.ResendVerificationEmail | app/routers/auth.py:176-200 | as in app/auth/routes.py, with the 400 text "Email уже подтверждён", and the lookup is by the `EmailStr`-normalized email |
| AuthRouter.Authenticate | app/routers/auth.py:216-229 | authorized exactly when the row found by username has a matching password and is verified; no row or a wrong password is 401, otherwise an unverified row is 403 |
| AuthRouter.Login | app/routers/auth.py:206-265 | on success an access cookie (30 minutes, max_age 1800) and a refresh cookie (max_age 2592000) for the username, and the user's names; on refusal no cookie |
| AuthRouter.DisabledAccountLogsIn | app/routers/auth.py:219-229 | a verified but disabled account logs in here while app/auth/routes.py refuses it |
| AuthRouter.RefreshDecision | app/routers/auth.py:276-297 | no cookie is 401 "Refresh token not found"; an undecodable token is 401 "Invalid refresh token"; any other token renews with its `sub` |
| AuthRouter.RefreshToken | app/routers/auth.py:267-308 | on renewal exactly one new access cookie with max_age 1800; on refusal no cookie |
| AuthRouter.AnyDecodableTokenRenews | app/routers/auth.py:284-297 | any decoded type, and even a missing `sub`, renews |
| AuthRouter.AccessTokenRenewsOnlyHere | app/routers/auth.py:284-297 | an access token renews here and is 403 in app/auth/routes.py |
| Profile.Decide | app/routers/profile.py:30-78 | a truthy email wins: 403 exactly when some user has it, else a change mail to it; otherwise a truthy new password is set exactly when the old one verifies, else 401; otherwise a truthy full name; otherwise nothing |
| Profile.UpdateProfile | app/routers/profile.py:28-78 | a refused gate is its refusal; a change mail is queued with the caller's username and no row changes; a password change overwrites only the caller's hash; a full name change overwrites only the caller's full name, or is 500 when too long; no fields is a `null` reply |
| Profile.EmailTakesPrecedence | app/routers/profile.py:35-52 | with an email in the body the other fields do not matter |
| Profile.OwnEmailRefused | app/routers/profile.py:36-41 | the caller's own email counts as in use |
| Profile.WrongOldPasswordRefused | app/routers/profile.py:54-59 | a missing or wrong old password is 401 |
| Profile.PasswordChangeTakesEffect | app/routers/profile.py:61-63 | after a change the new password verifies and a different old one does not |
| DashboardDefs.DefaultTitle | app/defs/dashboard/defs.py:17-18 | a truthy title is kept; otherwise the title is the first 50 characters of the body |
| DashboardDefs.DefaultTitleFits | app/defs/dashboard/defs.py:17-18 | a generated title always fits the 50-character column |
| DashboardDefs.NotePatch | app/defs/dashboard/defs.py:38-44 | the patch has exactly one entry per truthy argument, with `body` stored under `content` |
| DashboardDefs.ApplyPatch | app/defs/dashboard/defs.py:47-50 | named columns take the patch's values, the others and the owner are kept |
| DashboardDefs.EmptyPatch | app/defs/dashboard/defs.py:38-44 | all arguments falsy gives an empty patch |
| DashboardDefs.PatchTouchesOnlyNamedFields | app/defs/dashboard/defs.py:38-50 | an update changes the truthy fields and keeps every other field and the owner |
| DashboardDefs.FolderEdit | app/defs/dashboard/defs.py:104-108 | a truthy title or parent replaces the old one; the owner is kept |
| DashboardDefs.Dashboard.NewNote | app/defs/dashboard/defs.py:11-31 | an unknown user id is 403; otherwise the note with the defaulted title is added under the given folder, owned by that user, or fails at commit with nothing changed |
| DashboardDefs.Dashboard.UpdateNote | app/defs/dashboard/defs.py:33-62 | a note that is missing or not the caller's is 404; otherwise only that note changes, by the patch, or an invalid result is 500 with nothing changed; an empty patch on the caller's note succeeds and changes no modelled column |
| DashboardDefs.Dashboard.DeleteNote | app/defs/dashboard/defs.py:64-80 | the caller's note is removed and no other; a missing or foreign note is 400 "Note does not exists" |
| DashboardDefs.Dashboard.NewFolder | app/defs/dashboard/defs.py:82-96 | the folder is added with the `folder_id` argument as parent, owned by the caller, or fails at commit with nothing changed |
| DashboardDefs.Dashboard.UpdateFolder | app/defs/dashboard/defs.py:98-116 | a missing or foreign folder is 400; otherwise only that folder changes, by its truthy fields, or fails at commit |
| DashboardDefs.Dashboard.DeleteFolder | app/defs/dashboard/defs.py:118-130 | the caller's folder is reported deleted and the transaction saw the cascade delete; a missing or foreign folder is 400; nothing is committed |
| DashboardDefs.PendingDeleteRemovesSubtree | app/defs/dashboard/defs.py:119-123 | the uncommitted delete removes the folder and every note filed in it, and stays consistent |
| DashboardPage.Dashboard | app/routers/dashboard.py:12-38 | the page exactly when the cookie is truthy and decodes with a truthy `sub`; otherwise a redirect to the login page |
| DashboardPage.NoTypeCheck | app/routers/dashboard.py:27-35 | a token of any type with a subject opens the page |
| DashboardPage.RedirectsToLogin | app/routers/dashboard.py:21-38 | no cookie, an empty cookie, an undecodable token or no `sub` redirects to "/auth/login" |
| MainApp.Root | app/main.py:40-52 | a redirect to "/dashboard" exactly when the cookie decodes with a truthy `sub`; otherwise the index page |
| MainApp.HandleHttpException | app/main.py:32-38 | 404 becomes the 404 page; every other status its detail text with that status |

## Left out

- The JWT handlers (`create_access_token`, `create_refresh_token`, `decode_jwt`) are not part of this model. There are two of them: app/auth/jwt_handler.py, used by app/auth/routes.py and app/defs/auth/dependencies.py, and app/defs/auth/jwt_handler.py, used by app/routers/auth.py. The model assumes both decode alike: one `decode` parameter serves both. Decoding is a parameter, and what the handlers put in the `type` claim is not assumed.
- app/defs/auth/email_utils.py is not part of this model. app/routers/auth.py takes `verify_email_token`, `generate_password_reset_token` and `verify_password_reset_token` from it, and app/defs/auth/service_defs.py takes `generate_verification_token` from it. The model assumes it has the same secret, salts, messages and maximum ages as app/auth/email_utils.py, and `EmailTokens` serves both. The verification-salt claim about the change-email token, `AuthRouter.VerifyEmail`, `AuthRouter.AccessTokenRenewsOnlyHere` and `AuthRouter.UnknownSubjectIs404` rest on these two assumptions.
- Argon2 and passlib: an injective stand-in digest. Salt randomness and rehashing are not modelled.
- itsdangerous HMAC and its timestamp encoding: the abstract token tuple. The library itself is not part of this model. Its documented age check is followed: `loads` with a `max_age` raises `SignatureExpired` for an age above `max_age` and also for a negative age (a timestamp from the future), so `EmailTokens.Loads` reports both as expired. Clock skew between the issuer and the reader is not modelled beyond that.
- `EmailStr` format validation is the parameter `isEmail`, and its normalization the parameter `normalize`; what email-validator computes is not part of this model. `AuthRouter.Register` takes a plain `Form` string, and forgot-password and the routes.py resend take a plain `str`: those are used as typed. So an address registered as `bob@Example.COM` is stored as `normalize("bob@Example.COM")`, and a later forgot-password with the typed text looks up that text.
- The HTML of mails and pages (app/defs/auth/mail_templates_defs.py, app/auth/email_templates.py, the templates). A page is its template name and status.
- The SMTP send (`fastmail.send_message`) is left out; a queued job is the send function with its arguments. app/auth/email_service.py, which app/auth/routes.py queues, is not part of this model. Only its two link formats are shared with app/defs/auth/service_defs.py (lines 27 and 49). `Mail.Compose` gives the subjects, greetings and expiry text of app/defs/auth/service_defs.py only. The mails of app/auth/email_service.py have other subjects ("Подтвердите ваш email", "Сброс пароля"), and its reset mail has no greeting name or expiry argument.
- app/database.py is not part of this model. The request session is assumed to be shared by the handler and its dependencies, and to roll back anything not committed.
- Environment loading of app/config.py is left out; the model uses its defaults.
- `created_at`/`updated_at` timestamps, the `created_at` field of `UserResponse`, and the `token_type` field of the token reply are left out.
- Cookie attributes other than name, value and max_age (`httponly`, `secure`, `samesite`), response headers such as `WWW-Authenticate`, and the framework's own 422 for bodies that fail a typed parameter are left out.
- The OAuth2 bearer scheme's 401 for a missing `Authorization` header is left out: the gate starts from the token text.
- Check-then-insert races on the unique columns, and gaps in the id sequence after a failed insert, are left out. The model's next id only advances on success.
- `decode_jwt(None)` for a missing cookie at `/` is modelled as the handled failure the `try` turns into the index page. The handler's exact exception is not part of this model.
- Profile bodies that are not a JSON object (a list, a number, a string) make `data.get` raise, which is an unhandled 500. Such bodies, and objects whose values are not strings, are left out. Each field is an optional string.
- The model assumes a database that enforces `VARCHAR(n)` lengths, as PostgreSQL does. `DATABASE_URL` is configurable (app/config.py), and a database that does not enforce them would accept over-long values.
- Ids of notes and folders are modelled as plain strings (`Uuid = string`). In the source a `source_id` or `folder_id` that is not a UUID makes the query raise: `update_note` and `delete_note` turn that into 500 through their `try`, and the folder handlers give an unhandled 500. The model answers 404 or 400 for such ids instead.
- `Schema.FindIndex` is used for lookups on unique columns. `Schema.UniqueColumnLookup` shows it equals `scalar_one_or_none` on a consistent table.
- `DashboardDefs.Dashboard.UpdateNote`: an empty `values` dict is read as `UPDATE notes SET updated_at=now() ...`, because `updated_at` has `onupdate=func.now()` (app/models/database.py:79) and SQLAlchemy adds such columns to every UPDATE. The timestamp itself is left out, so the modelled note is unchanged. The statement's constraint errors fall into the handler's `try`, which turns them into 500 "Internal Server Error".
- `AuthRoutes.Login`: the success condition is stated for the row the lookup returns. `AuthRoutes.LoginSucceedsIff` states it over all rows, for a consistent table.
- Deleting a user (`Schema.DeleteUserCascade`) has no handler in the modelled files. It is stated only as the cascade the foreign keys declare.
- ORM-level cascades are left out. The cascades modelled are the `ondelete="CASCADE"` foreign keys (app/models/database.py:40-41 and 75-76), which a bulk `delete()` triggers. The ORM relationships can differ: `Folder.children` (app/models/database.py:57-64) has `remote_side=[id]` and `foreign_keys=[parent_id]`, so despite its name it is the many-to-one link to the parent, and its `cascade="all, delete-orphan"` would delete a folder's parent in an ORM `session.delete`. No modelled handler takes that path: `delete_folder` uses a bulk `delete()`.
- Folder cycles: `update_folder` checks only that the parent exists, so a folder can be moved under itself or its descendants. The model allows this, and `Schema.Subtree` is defined for cyclic parent links too.
