/** The password check of src/app/api/login/route.ts and the cookie it issues. */
module Login {
  import opened Wrappers
  import opened Middleware

  const DEFAULT_PASSWORD: string := "gtse2026"
  const SEVEN_DAYS_SECONDS: int := 60 * 60 * 24 * 7
  const INVALID_PASSWORD: string := "Invalid password"

  /** A cookie set on the response; `httpOnly`, `secure` and `sameSite` are not modelled. */
  datatype Cookie = Cookie(name: string, value: string, maxAge: int)

  datatype LoginResponse = LoginResponse(status: int, success: bool, error: Option<string>, cookie: Option<Cookie>)

  /** `DASHBOARD_PASSWORD || 'gtse2026'`; an unset variable is the empty string. */
  function ExpectedPassword(configured: string): (p: string)
    ensures p != ""
    ensures configured != "" ==> p == configured
    ensures configured == "" ==> p == DEFAULT_PASSWORD
  {
    if configured == "" then DEFAULT_PASSWORD else configured
  }

  /** `POST(request)`: `password` is the body's `password` field, `None` when it is absent
      or not a string (strict equality then fails). */
  function Post(password: Option<string>, configured: string): (r: LoginResponse)
    ensures r.success <==> password == Some(ExpectedPassword(configured))
    ensures r.success ==>
      r == LoginResponse(200, true, None, Some(Cookie(AUTH_COOKIE, AUTHENTICATED, SEVEN_DAYS_SECONDS)))
    ensures !r.success ==> r == LoginResponse(401, false, Some(INVALID_PASSWORD), None)
    ensures r.cookie.Some? <==> r.success
  {
    if password == Some(ExpectedPassword(configured)) then
      LoginResponse(200, true, None, Some(Cookie(AUTH_COOKIE, AUTHENTICATED, SEVEN_DAYS_SECONDS)))
    else
      LoginResponse(401, false, Some(INVALID_PASSWORD), None)
  }

  /** The cookie lasts 604800 seconds. */
  lemma CookieLastsSevenDays(password: Option<string>, configured: string)
    requires Post(password, configured).success
    ensures Post(password, configured).cookie.value.maxAge == 604800
  {
  }

  /** Any cookie a successful login issues, once stored by the browser, lets every later
      request through the gate, whatever its path and other cookies. */
  lemma IssuedCookieOpensGate(password: Option<string>, configured: string, path: string, cookies: map<string, string>)
    requires Post(password, configured).cookie.Some?
    ensures var c := Post(password, configured).cookie.value;
      Gate(path, cookies[c.name := c.value]) == Next
  {
  }

  /** Without a configured password, only the default one is accepted. */
  lemma DefaultPasswordOnlyWhenUnset(password: string)
    ensures Post(Some(password), "").success <==> password == DEFAULT_PASSWORD
  {
  }
}
