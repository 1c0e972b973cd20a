/** The root layout's choice: public pages are shown as they are, every
    other page inside the authentication guard together with the sidebar. */
module ConditionalLayout {
  import opened Strings
  import Middleware

  /** `publicPages` */
  const PublicPages: seq<string> := ["/login", "/unauthorized"]

  /** `publicPages.some(page => pathname.includes(page))` */
  predicate IsPublicPage(pathname: string)
  {
    exists k :: 0 <= k < |PublicPages| && Contains(pathname, PublicPages[k])
  }

  /** The two layouts: the children alone, or the children under
      `AuthGuard` next to `Navigation`. */
  datatype Layout = Bare | Guarded

  function LayoutFor(pathname: string): (r: Layout)
    ensures r == Bare <==> Contains(pathname, "/login") || Contains(pathname, "/unauthorized")
    ensures r == Guarded <==> !Contains(pathname, "/login") && !Contains(pathname, "/unauthorized")
  {
    assert PublicPages[0] == "/login" && PublicPages[1] == "/unauthorized";
    if IsPublicPage(pathname) then Bare else Guarded
  }

  /** The layout and the middleware classify every path alike: a page is
      unguarded exactly when the middleware lets it through without a
      session. */
  lemma AgreesWithMiddleware(pathname: string)
    ensures LayoutFor(pathname) == Bare <==> Middleware.IsPublicPath(pathname)
  {
    Middleware.PublicIffContains(pathname);
  }
}
