/**
 * What a handler answers: a raised `HTTPException`, an unhandled error, or
 * one of the bodies and pages it returns; and the cookies it sets on the
 * response.
 */
module Http {
  import opened Wrappers
  import opened SessionTokens
  import Schema

  /** The fields of `UserResponse` that the model keeps (`created_at` is not modelled). */
  datatype UserView = UserView(id: int, username: string, email: string, fullName: string, isActive: bool)

  datatype Reply =
    | Error(status: int, detail: string)                 // HTTPException(status_code, detail)
    | ServerError                                        // 500: an exception no handler catches
    | Json(entries: seq<(string, string)>)               // 200 with a JSON object of strings
    | NullBody                                           // 200 with `null`: the handler returned None
    | Page(status: int, template: string)                // a template response
    | Html(status: int, text: string)                    // a plain HTML text response
    | Redirect(location: string)                         // a redirect response
    | Created(user: UserView)                            // 201 with the new user
    | Tokens(access: TokenValue, refresh: TokenValue)    // {"access_token", "refresh_token", "token_type": "bearer"}
    | Me(username: string, email: string, fullName: string, isVerified: bool)
    | LoggedIn(username: string, email: string, fullName: string)   // {"message": "Login successful", "user": {...}}
    | NoteCreated(noteId: Schema.Uuid, note: Schema.Note)
    | FolderCreated(folderId: Schema.Uuid, folder: Schema.Folder)

  /** `{"message": text}`. */
  function Msg(text: string): Reply {
    Json([("message", text)])
  }

  function View(u: Schema.User): UserView {
    UserView(u.id, u.username, u.email, u.fullName, u.isActive)
  }

  datatype CookieOp =
    | SetCookie(key: string, value: Minted, maxAge: int)   // httponly, samesite="lax"
    | DeleteCookie(key: string)

  /** The response object a handler writes cookies to. */
  class Response {
    var cookies: seq<CookieOp>

    constructor ()
      ensures cookies == []
    {
      cookies := [];
    }

    method SetCookie(key: string, value: Minted, maxAge: int)
      modifies this
      ensures cookies == old(cookies) + [CookieOp.SetCookie(key, value, maxAge)]
    {
      cookies := cookies + [CookieOp.SetCookie(key, value, maxAge)];
    }

    method DeleteCookie(key: string)
      modifies this
      ensures cookies == old(cookies) + [CookieOp.DeleteCookie(key)]
    {
      cookies := cookies + [CookieOp.DeleteCookie(key)];
    }
  }
}
