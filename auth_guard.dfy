/** The client-side guard of protected pages: the decision `checkAuth`
    takes on the user details it captures and on the role required, the
    `user`/`loading` state it sets, what the guard shows, and the admin and
    manager guards. Capturing the user details is an input. */
module AuthGuard {
  import opened Wrappers
  import opened Records

  datatype UserDetails = UserDetails(role: string)

  /** What `await captureUserDetails()` gives: an exception, no user, or
      the user's details. */
  datatype Capture = Threw | NoUser | Captured(details: UserDetails)

  /** `router.push('/login')`, `router.push('/')`, or `setUser(userDetails)`. */
  datatype Decision = RedirectLogin | RedirectHome | Allow(user: UserDetails)

  const AdminRole := "admin"
  const ManagerRole := "manager"

  /** The decision of `checkAuth`; an empty `requiredRole` counts as none. */
  function Decide(c: Capture, requiredRole: Option<string>): (d: Decision)
    ensures !c.Captured? ==> d == RedirectLogin
    ensures c.Captured? && Missing(requiredRole) ==> d == Allow(c.details)
    ensures c.Captured? && !Missing(requiredRole) ==>
      (d == Allow(c.details) <==> c.details.role == AdminRole || c.details.role == requiredRole.value)
    ensures c.Captured? && !Missing(requiredRole) && d != Allow(c.details) ==> d == RedirectHome
  {
    match c
    case Threw => RedirectLogin
    case NoUser => RedirectLogin
    case Captured(u) =>
      if Missing(requiredRole) then Allow(u)
      else if u.role == AdminRole then Allow(u)
      else if u.role == requiredRole.value then Allow(u)
      else RedirectHome
  }

  /** What the guard shows. */
  datatype View = Loader | Nothing | Children

  /** The guard's state. */
  class GuardState {
    var user: Option<UserDetails>
    var loading: bool
    /** Where `router.push` was sent, if anywhere. */
    var redirect: Option<string>

    /** `useState(null)` and `useState(true)`. */
    constructor ()
      ensures user == None && loading && redirect == None
    {
      user, loading, redirect := None, true, None;
    }

    /** `checkAuth`: apply the decision, then, in `finally`, stop loading. */
    method CheckAuth(c: Capture, requiredRole: Option<string>)
      modifies this
      ensures !loading
      ensures Decide(c, requiredRole).Allow? ==> user == Some(Decide(c, requiredRole).user) && redirect == old(redirect)
      ensures Decide(c, requiredRole) == RedirectLogin ==> user == old(user) && redirect == Some("/login")
      ensures Decide(c, requiredRole) == RedirectHome ==> user == old(user) && redirect == Some("/")
    {
      var d := Decide(c, requiredRole);
      match d {
        case Allow(u) => user := Some(u);
        case RedirectLogin => redirect := Some("/login");
        case RedirectHome => redirect := Some("/");
      }
      loading := false;
    }

    /** The loader while checking, nothing without a user, else the page. */
    function Render(): (v: View)
      reads this
    {
      if loading then Loader else if user.None? then Nothing else Children
    }
  }

  /** A guard mounted and checked once shows the page exactly when the
      decision allows the user, and nothing otherwise. */
  method Guard(c: Capture, requiredRole: Option<string>) returns (v: View)
    ensures v == Children <==> Decide(c, requiredRole).Allow?
    ensures v != Children ==> v == Nothing
  {
    var g := new GuardState();
    g.CheckAuth(c, requiredRole);
    v := g.Render();
  }

  /** `AdminGuard` */
  function AdminGuard(c: Capture): Decision
  {
    Decide(c, Some(AdminRole))
  }

  /** `ManagerGuard` */
  function ManagerGuard(c: Capture): Decision
  {
    Decide(c, Some(ManagerRole))
  }

  /** `AdminGuard` admits only admins; `ManagerGuard` admits managers and
      admins; so whoever passes the first passes the second. */
  lemma GuardRoles(c: Capture)
    ensures AdminGuard(c).Allow? <==> c.Captured? && c.details.role == AdminRole
    ensures ManagerGuard(c).Allow? <==> c.Captured? && (c.details.role == ManagerRole || c.details.role == AdminRole)
    ensures AdminGuard(c).Allow? ==> ManagerGuard(c).Allow?
  {
  }
}
