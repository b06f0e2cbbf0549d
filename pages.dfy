/**
 * The cookie gate of the dashboard page (app/routers/dashboard.py). It only
 * asks whether the `access_token` cookie decodes to claims with a truthy
 * `sub`: there is no type check and no lookup.
 */
module DashboardPage {
  import opened Wrappers
  import opened SessionTokens
  import opened Http
  import PyText

  const LOGIN_URL: string := "/auth/login"

  /** `GET /dashboard` with the `access_token` cookie, if any. */
  function Dashboard(decode: Decoder, accessToken: Option<string>): (r: Reply)
    ensures r == Page(200, "dashboard.html") <==> PyText.Truthy(accessToken) && HasSubject(decode(accessToken.value))
    ensures r != Page(200, "dashboard.html") ==> r == Redirect(LOGIN_URL)
  {
    if !PyText.Truthy(accessToken) then Redirect(LOGIN_URL)
    else if HasSubject(decode(accessToken.value)) then Page(200, "dashboard.html")
    else Redirect(LOGIN_URL)
  }

  /** A refresh token with a subject opens the page just as an access token does. */
  lemma NoTypeCheck(decode: Decoder, token: string, sub: string, typ: Option<string>)
    requires token != "" && sub != "" && decode(token) == Some(Claims(Some(sub), typ))
    ensures Dashboard(decode, Some(token)) == Page(200, "dashboard.html")
  {
  }

  /** No cookie, an empty cookie, a token that does not decode or one without `sub`: back to the login page. */
  lemma RedirectsToLogin(decode: Decoder, token: string)
    requires token == "" || decode(token).None? || decode(token).value.sub.None? || decode(token).value.sub == Some("")
    ensures Dashboard(decode, None) == Redirect("/auth/login")
    ensures Dashboard(decode, Some(token)) == Redirect("/auth/login")
  {
  }
}

/**
 * The application entry points kept in the model (app/main.py): the `/`
 * redirect and the HTTP error handler.
 */
module MainApp {
  import opened Wrappers
  import opened SessionTokens
  import opened Http

  /**
   * `GET /` with the `access_token` cookie. A missing cookie reaches
   * `decode_jwt(None)`, whose failure the handler catches like any other.
   */
  function Root(decode: Decoder, accessToken: Option<string>): (r: Reply)
    ensures r == Redirect("/dashboard") <==> accessToken.Some? && HasSubject(decode(accessToken.value))
    ensures r != Redirect("/dashboard") ==> r == Page(200, "index.html")
  {
    if accessToken.Some? && HasSubject(decode(accessToken.value)) then Redirect("/dashboard")
    else Page(200, "index.html")
  }

  /** `custom_http_exception_handler`: a 404 becomes the 404 page, every other error its detail text. */
  function HandleHttpException(status: int, detail: string): (r: Reply)
    ensures status == 404 ==> r == Page(404, "404.html")
    ensures status != 404 ==> r == Html(status, detail)
  {
    if status == 404 then Page(404, "404.html") else Html(status, detail)
  }
}
