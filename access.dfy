/** The session a login leaves behind and the three route decorators of login_logout.py,
    stated as predicates on that session. */
module Access {
  import opened Common
  import opened Http

  /** The keys the portal stores in the signed session cookie; None is an absent key. */
  datatype Session = Session(userId: Option<int>, email: Option<string>, username: Option<string>,
                             role: Option<string>, departmentId: Option<int>,
                             departmentName: Option<string>)

  /** The session after `session.clear()`. */
  const Anonymous: Session := Session(None, None, None, None, None, None)

  /** The roles that see every dashboard and every admin page. */
  predicate IsPrivileged(role: Option<string>) {
    role == Some("admin") || role == Some("superuser")
  }

  /** A decorator's verdict: run the wrapped handler, or redirect with a flashed message. */
  datatype Gate = Admit | Refuse(to: Page, flash: string) {
    function AsReply(): Reply
      requires Refuse?
    {
      Redirect(to, flash)
    }
  }

  /** `login_required` */
  function LoginRequired(s: Session): (g: Gate)
    ensures g == Admit <==> s.userId.Some?
    ensures g != Admit ==> g == Refuse(LoginPage, "Please login first")
  {
    if s.userId.None? then Refuse(LoginPage, "Please login first") else Admit
  }

  /** `admin_required`: admin or superuser. */
  function AdminRequired(s: Session): (g: Gate)
    ensures g == Admit <==> s.userId.Some? && IsPrivileged(s.role)
    ensures s.userId.None? ==> g == Refuse(LoginPage, "Please login first")
    ensures s.userId.Some? && !IsPrivileged(s.role) ==> g == Refuse(UserDashboardPage, "You do not have admin access")
  {
    if s.userId.None? then Refuse(LoginPage, "Please login first")
    else if !IsPrivileged(s.role) then Refuse(UserDashboardPage, "You do not have admin access")
    else Admit
  }

  /** `admin_write_required`: admin only; a superuser is sent back to the admin dashboard. */
  function AdminWriteRequired(s: Session): (g: Gate)
    ensures g == Admit <==> s.userId.Some? && s.role == Some("admin")
    ensures s.userId.None? ==> g == Refuse(LoginPage, "Please login first")
    ensures s.userId.Some? && s.role == Some("superuser") ==>
              g == Refuse(AdminDashboardPage, "You do not have permission to perform this action")
    ensures s.userId.Some? && !IsPrivileged(s.role) ==>
              g == Refuse(UserDashboardPage, "You do not have permission to perform this action")
  {
    if s.userId.None? then Refuse(LoginPage, "Please login first")
    else if s.role != Some("admin") then
      Refuse(if s.role == Some("superuser") then AdminDashboardPage else UserDashboardPage,
             "You do not have permission to perform this action")
    else Admit
  }

  /** The role split written once, as a capability set. */
  datatype Capability = ViewGranted | ViewAll | Administer

  function Capabilities(role: Option<string>): set<Capability> {
    if role == Some("admin") then {ViewGranted, ViewAll, Administer}
    else if role == Some("superuser") then {ViewGranted, ViewAll}
    else {ViewGranted}
  }

  /** The decorators agree with the capability sets. */
  lemma GatesFollowCapabilities(s: Session)
    ensures LoginRequired(s) == Admit <==> s.userId.Some? && ViewGranted in Capabilities(s.role)
    ensures AdminRequired(s) == Admit <==> s.userId.Some? && ViewAll in Capabilities(s.role)
    ensures AdminWriteRequired(s) == Admit <==> s.userId.Some? && Administer in Capabilities(s.role)
  {
  }

  /** Every session admitted to a write route is admitted to the read-only admin routes,
      which in turn are behind the login check; a superuser is admitted to read and never to write. */
  lemma WriteImpliesRead(s: Session)
    ensures AdminWriteRequired(s) == Admit ==> AdminRequired(s) == Admit
    ensures AdminRequired(s) == Admit ==> LoginRequired(s) == Admit
    ensures s.role == Some("superuser") ==> AdminWriteRequired(s) != Admit
    ensures s.userId.Some? && s.role == Some("superuser") ==> AdminRequired(s) == Admit
  {
  }
}
