/** The request gate of src/middleware.ts: which requests go through and which are sent
    to the login page. */
module Middleware {
  const AUTH_COOKIE: string := "gtse-auth"
  const AUTHENTICATED: string := "authenticated"
  const CHECK_PATH: string := "/api/check"
  const LOGIN_API_PATH: string := "/api/login"
  const LOGIN_PAGE_PATH: string := "/login"

  datatype Decision = Next | RedirectToLogin

  /** Whether the request carries the `gtse-auth` cookie with the value `authenticated`. */
  predicate Authenticated(cookies: map<string, string>) {
    AUTH_COOKIE in cookies && cookies[AUTH_COOKIE] == AUTHENTICATED
  }

  /** `middleware(request)` for a request to `path` carrying `cookies`. */
  function Gate(path: string, cookies: map<string, string>): (d: Decision)
    ensures path == CHECK_PATH ==> d == Next
    ensures Authenticated(cookies) ==> d == Next
    ensures path == LOGIN_API_PATH ==> d == Next
    ensures path == LOGIN_PAGE_PATH ==> d == Next
    ensures d == RedirectToLogin <==>
      !Authenticated(cookies) && path !in {CHECK_PATH, LOGIN_API_PATH, LOGIN_PAGE_PATH}
  {
    if path == CHECK_PATH then Next
    else if Authenticated(cookies) then Next
    else if path == LOGIN_API_PATH then Next
    else if path != LOGIN_PAGE_PATH then RedirectToLogin
    else Next
  }

  /** Following the redirect never redirects again, whatever the cookies. */
  lemma RedirectTargetPasses(path: string, cookies: map<string, string>)
    requires Gate(path, cookies) == RedirectToLogin
    ensures Gate(LOGIN_PAGE_PATH, cookies) == Next
  {
  }

  /** Only the cookie `gtse-auth` matters: other cookies never change the decision. */
  lemma OtherCookiesIgnored(path: string, cookies: map<string, string>, name: string, value: string)
    requires name != AUTH_COOKIE
    ensures Gate(path, cookies[name := value]) == Gate(path, cookies)
  {
    assert Authenticated(cookies[name := value]) == Authenticated(cookies);
  }
}
