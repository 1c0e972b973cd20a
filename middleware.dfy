/** The request middleware: the public and API path tests, the session
    check that redirects to the login page, and the choice between the
    authentication response and the internationalisation response. The
    session lookup is the parameter `hasSession`; the status a redirect
    carries is the parameter `redirectStatus`. `Handle` is the body of the
    handler given to next-intl's `createMiddleware(routing, handler)`;
    whether and when next-intl calls that handler is not part of this
    model. */
module Middleware {
  import opened Strings

  /** `publicPaths` */
  const PublicPaths: seq<string> := ["/login", "/unauthorized"]

  /** `publicPaths.some(path => currentPath.includes(path))` */
  predicate IsPublicPath(path: string)
  {
    exists k :: 0 <= k < |PublicPaths| && Contains(path, PublicPaths[k])
  }

  /** `currentPath.startsWith('/api/')` */
  predicate IsApiPath(path: string)
  {
    StartsWith(path, "/api/")
  }

  /** A path is public exactly when it contains `/login` or `/unauthorized`
      anywhere, not only as its first segment. */
  lemma PublicIffContains(path: string)
    ensures IsPublicPath(path) <==> Contains(path, "/login") || Contains(path, "/unauthorized")
    ensures IsPublicPath("/fr/login") && IsPublicPath("/fr/employes/login-history")
  {
    assert PublicPaths[0] == "/login" && PublicPaths[1] == "/unauthorized";
    LoginPathsContainLogin();
  }

  lemma LoginPathsContainLogin()
    ensures Contains("/fr/login", "/login") && Contains("/fr/employes/login-history", "/login")
  {
    assert OccursAt("/fr/login", "/login", 3);
    ContainsIffOccurs("/fr/login", "/login");
    assert OccursAt("/fr/employes/login-history", "/login", 12);
    ContainsIffOccurs("/fr/employes/login-history", "/login");
  }

  /** The responses: `NextResponse.next()`, a redirect to `/login` carrying
      the `next` parameter, and the internationalisation middleware's. */
  datatype Response = Next | LoginRedirect(next: string, status: int) | IntlResponse

  /** `response.status`; `NextResponse.next()` answers 200. */
  function Status(r: Response): int
  {
    match r
    case Next => 200
    case LoginRedirect(_, status) => status
    case IntlResponse => 200
  }

  /** `authMiddleware(request)` */
  function AuthMiddleware(path: string, hasSession: bool, redirectStatus: int): (r: Response)
    ensures r == Next <==> IsPublicPath(path) || IsApiPath(path) || hasSession
    ensures r != Next ==> r == LoginRedirect(path, redirectStatus)
  {
    if IsPublicPath(path) || IsApiPath(path) then Next
    else if !hasSession then LoginRedirect(path, redirectStatus)
    else Next
  }

  /** The combined middleware: API paths pass; otherwise the authentication
      response wins when its status is 302, and the internationalisation
      response is returned in every other case. */
  function Handle(path: string, hasSession: bool, redirectStatus: int): (r: Response)
    ensures IsApiPath(path) ==> r == Next
    ensures !IsApiPath(path) ==>
      (r.LoginRedirect? <==> !IsPublicPath(path) && !hasSession && redirectStatus == 302)
    ensures !IsApiPath(path) && !r.LoginRedirect? ==> r == IntlResponse
    ensures r.LoginRedirect? ==> r == LoginRedirect(path, 302)
  {
    if IsApiPath(path) then Next
    else
      var authResponse := AuthMiddleware(path, hasSession, redirectStatus);
      if Status(authResponse) == 302 then authResponse else IntlResponse
  }

  /** An API path gets the same answer with or without a session. */
  lemma ApiIgnoresSession(path: string, redirectStatus: int)
    requires IsApiPath(path)
    ensures Handle(path, true, redirectStatus) == Handle(path, false, redirectStatus) == Next
  {
  }

  /** With a session, or on a public page, the internationalisation
      response is served; so it is whenever redirects do not carry 302. */
  lemma IntlUnlessRedirect302(path: string, hasSession: bool, redirectStatus: int)
    requires !IsApiPath(path)
    requires hasSession || IsPublicPath(path) || redirectStatus != 302
    ensures Handle(path, hasSession, redirectStatus) == IntlResponse
  {
  }
}
