/** The access gate (middleware.ts): login and auth paths pass; otherwise a request
    needs a `session` cookie whose token verifies. API paths are refused with a JSON
    error, page paths are redirected to the login page. Token verification is an
    oracle. */
module Middleware {
  import opened Js

  datatype Decision =
    | Next                                          // NextResponse.next()
    | JsonError(status: int, error: string, code: string)
    | RedirectToLogin                               // redirect to /login

  /** `path.startsWith(prefix)`. */
  predicate StartsWith(path: string, prefix: string) {
    |prefix| <= |path| && path[..|prefix|] == prefix
  }

  /** Paths served without a session. */
  predicate IsPublic(path: string) {
    StartsWith(path, "/login") || StartsWith(path, "/api/auth")
  }

  predicate IsApi(path: string) {
    StartsWith(path, "/api/")
  }

  /** `request.cookies.get('session')?.value` is truthy. */
  predicate HasToken(cookie: Option<string>) {
    cookie.Some? && cookie.value != []
  }

  /** `middleware(request)` for the request's path, its `session` cookie and the outcome
      of `jwtVerify` on a token. */
  function Decide(path: string, cookie: Option<string>, verifies: string -> bool): (d: Decision)
    ensures d.JsonError? ==> IsApi(path) && !IsPublic(path)
    ensures d == RedirectToLogin ==> !IsApi(path) && !IsPublic(path)
  {
    if IsPublic(path) then Next
    else if !HasToken(cookie) then
      if IsApi(path) then JsonError(401, "Authentication required", "NO_TOKEN") else RedirectToLogin
    else if verifies(cookie.value) then Next
    else if IsApi(path) then JsonError(403, "Invalid or expired session", "INVALID_TOKEN")
    else RedirectToLogin
  }

  /** A request passes exactly when its path is public or it carries a token that verifies. */
  lemma PassesIff(path: string, cookie: Option<string>, verifies: string -> bool)
    ensures Decide(path, cookie, verifies) == Next
        <==> IsPublic(path) || (HasToken(cookie) && verifies(cookie.value))
  {
  }

  /** Public paths pass whatever the cookie. */
  lemma PublicPasses(path: string, cookie: Option<string>, verifies: string -> bool)
    requires IsPublic(path)
    ensures Decide(path, cookie, verifies) == Next
  {
  }

  /** Without a token an API path gets 401 `NO_TOKEN` and a page is redirected; with a
      token that fails to verify, 403 `INVALID_TOKEN` and a redirect. */
  lemma RefusalKinds(path: string, cookie: Option<string>, verifies: string -> bool)
    requires !IsPublic(path)
    ensures var d := Decide(path, cookie, verifies);
      && (!HasToken(cookie) ==> d == (if IsApi(path) then JsonError(401, "Authentication required", "NO_TOKEN") else RedirectToLogin))
      && (HasToken(cookie) && !verifies(cookie.value) ==>
            d == (if IsApi(path) then JsonError(403, "Invalid or expired session", "INVALID_TOKEN") else RedirectToLogin))
  {
  }
}
