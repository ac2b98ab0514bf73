/** The token route of user_interface.py: a chain of early-return guards over the session
    snapshot, the dashboard row and the grant count, then one get_embed_token call. */
module UserInterface {
  import opened Common
  import opened Tables
  import opened Http
  import opened Access
  import opened Embed
  import AdminPermissions
  import AdminUsers
  import LoginLogout

  /** The POWERBI_CLIENT_ID, POWERBI_TENANT_ID and POWERBI_CLIENT_SECRET environment variables. */
  datatype PowerBiEnv = PowerBiEnv(clientId: Option<string>, tenantId: Option<string>, clientSecret: Option<string>)

  predicate Filled(v: Option<string>) {
    v.Some? && v.value != ""
  }

  /** The `all([...])` configuration check of the route. */
  predicate Configured(env: PowerBiEnv, d: Dashboard) {
    Filled(env.clientId) && Filled(env.tenantId) && Filled(env.clientSecret)
    && d.reportId != "" && d.groupId != "" && d.coreDatasetId != ""
  }

  /** get_dashboard_by_id: a failed connection reads as a missing row. */
  function DashboardById(dashboards: seq<Dashboard>, id: int, conn: bool): (r: Option<Dashboard>)
    ensures r.Some? ==> conn && r.value in dashboards && r.value.id == id
    ensures conn && r.None? ==> forall d :: d in dashboards ==> d.id != id
  {
    if conn then FindDashboard(dashboards, id) else None
  }

  /** The COUNT(*) of grants for the session's department_id; a missing one matches no row. */
  function SessionGrantCount(grants: seq<Grant>, s: Session, dashboardId: int): (n: nat)
    ensures n > 0 <==> s.departmentId.Some? && HasGrant(grants, s.departmentId.value, dashboardId)
  {
    match s.departmentId
    case None => 0
    case Some(dept) => GrantCount(grants, dept, dashboardId)
  }

  /** Who may be issued a credential for a dashboard: any privileged session; otherwise a session
      whose department holds a grant for the dashboard, while that dashboard is Active. */
  predicate CanAccess(s: Session, dashboards: seq<Dashboard>, grants: seq<Grant>, id: int) {
    s.userId.Some?
    && exists d :: d in dashboards && d.id == id
         && (IsPrivileged(s.role)
             || (d.status == "Active" && s.departmentId.Some? && HasGrant(grants, s.departmentId.value, id)))
  }

  /** The role, status and grant guards of the token route let the session through for row `d`.
      This is CanAccess read guard by guard. CanAccess is the policy over the tables; this is the route's
      walk over the one row it fetched, including the grant query's connection, which the policy has
      no notion of. AllowedAndDeliveredSucceeds ties the two together. */
  predicate PassesPolicy(s: Session, d: Dashboard, grants: seq<Grant>, grantConn: bool) {
    IsPrivileged(s.role) || (d.status == "Active" && grantConn && SessionGrantCount(grants, s, d.id) > 0)
  }

  const NotFound := Fail(404, "Dashboard not found")
  const UnderDevelopment := Fail(400, "This dashboard is currently under development")
  const NoAccess := Fail(403, "You do not have access to this dashboard")
  const BadConfiguration := Fail(400, "Invalid dashboard configuration")

  /** `user_report_token(dashboard_id)`, behind `login_required`. `lookupConn` and `grantConn` say whether
      the two database connections it opens succeed. Role and department come from the session. */
  function UserReportToken(s: Session, dashboards: seq<Dashboard>, grants: seq<Grant>, dashboardId: int,
                           lookupConn: bool, grantConn: bool, env: PowerBiEnv, up: Upstream): (r: Attempt)
    ensures s.userId.None? ==> r == Attempt(Redirect(LoginPage, "Please login first"), None)
    ensures s.userId.Some? && DashboardById(dashboards, dashboardId, lookupConn).None? ==>
              r == Attempt(NotFound, None)
    ensures s.userId.Some? && DashboardById(dashboards, dashboardId, lookupConn).Some? && !IsPrivileged(s.role)
            && DashboardById(dashboards, dashboardId, lookupConn).value.status != "Active" ==>
              r == Attempt(UnderDevelopment, None)
    ensures s.userId.Some? && DashboardById(dashboards, dashboardId, lookupConn).Some? && !IsPrivileged(s.role)
            && DashboardById(dashboards, dashboardId, lookupConn).value.status == "Active"
            && grantConn && SessionGrantCount(grants, s, dashboardId) == 0 ==>
              r == Attempt(NoAccess, None)
    ensures s.userId.Some? && DashboardById(dashboards, dashboardId, lookupConn).Some? && !IsPrivileged(s.role)
            && DashboardById(dashboards, dashboardId, lookupConn).value.status == "Active" && !grantConn ==>
              r == Attempt(Fail(500, "Database connection failed"), None)
    ensures s.userId.Some? && DashboardById(dashboards, dashboardId, lookupConn).Some?
            && PassesPolicy(s, DashboardById(dashboards, dashboardId, lookupConn).value, grants, grantConn) ==>
              (Configured(env, DashboardById(dashboards, dashboardId, lookupConn).value) <==> r.call.Some?)
              && (!Configured(env, DashboardById(dashboards, dashboardId, lookupConn).value) ==>
                    r == Attempt(BadConfiguration, None))
    ensures r.call.Some? && !Delivers(up) ==> r.reply == Fail(400, GetEmbedToken(r.call.value, up).error.value)
    ensures r.call.Some? && Delivers(up) ==>
              var d := DashboardById(dashboards, dashboardId, lookupConn).value;
              r.reply == Json(200, ReportIssued(up.issue.token, up.report.embedUrl, d.reportId,
                                                Some(WorkspaceName(up.workspace)),
                                                Some(up.report.name.GetOr("Unknown Report")), d.name,
                                                "Report token generated successfully!"))
    ensures r.call.Some? ==>
              var d := DashboardById(dashboards, dashboardId, lookupConn).value;
              s.userId.Some? && DashboardById(dashboards, dashboardId, lookupConn).Some? && Configured(env, d)
              && r.call.value == EmbedArgs(env.clientId.value, env.tenantId.value, env.clientSecret.value,
                                           d.reportId, d.groupId, d.coreDatasetId, d.proxyDatasetId.GetOr(""),
                                           s.email, ["RM"])
    ensures Succeeded(r.reply) ==> CanAccess(s, dashboards, grants, dashboardId) && Delivers(up) && r.call.Some?
  {
    var gate := LoginRequired(s);
    if gate.Refuse? then Attempt(gate.AsReply(), None)
    else
      var found := DashboardById(dashboards, dashboardId, lookupConn);
      if found.None? then Attempt(NotFound, None)
      else
        var d := found.value;
        if !IsPrivileged(s.role) && d.status != "Active" then Attempt(UnderDevelopment, None)
        else if !IsPrivileged(s.role) && !grantConn then Attempt(Fail(500, "Database connection failed"), None)
        else if !IsPrivileged(s.role) && SessionGrantCount(grants, s, dashboardId) == 0 then Attempt(NoAccess, None)
        else if !Configured(env, d) then Attempt(BadConfiguration, None)
        else
          var args := EmbedArgs(env.clientId.value, env.tenantId.value, env.clientSecret.value,
                                d.reportId, d.groupId, d.coreDatasetId, d.proxyDatasetId.GetOr(""),
                                s.email, ["RM"]);
          var e := GetEmbedToken(args, up);
          if e.error.Some? then Attempt(Fail(400, e.error.value), Some(args))
          else Attempt(Json(200, ReportIssued(e.token, e.embedUrl, d.reportId, e.workspaceName, e.reportName,
                                              d.name, "Report token generated successfully!")), Some(args))
  }

  /** The converse of the route's success guarantee: when the policy allows the session, both
      connections open, the dashboard is configured and every upstream call succeeds, a token is issued. */
  lemma AllowedAndDeliveredSucceeds(s: Session, dashboards: seq<Dashboard>, grants: seq<Grant>, dashboardId: int,
                                    env: PowerBiEnv, up: Upstream)
    requires DashboardIdsAscending(dashboards)
    requires CanAccess(s, dashboards, grants, dashboardId) && Delivers(up)
    requires Configured(env, FindDashboard(dashboards, dashboardId).value)
    ensures Succeeded(UserReportToken(s, dashboards, grants, dashboardId, true, true, env, up).reply)
  {
    var d :| d in dashboards && d.id == dashboardId
             && (IsPrivileged(s.role) || (d.status == "Active" && s.departmentId.Some? && HasGrant(grants, s.departmentId.value, dashboardId)));
    var f := FindDashboard(dashboards, dashboardId).value;
    assert f == d by {
      var i :| 0 <= i < |dashboards| && dashboards[i] == d;
      var j :| 0 <= j < |dashboards| && dashboards[j] == f;
      assert !(i < j) && !(j < i);
    }
  }

  /** A privileged session skips the status and grant checks: once the dashboard is found and configured
      the token call is made whatever its status, and the grants and their connection make no difference. */
  lemma PrivilegedIgnoresGrantsAndStatus(s: Session, dashboards: seq<Dashboard>, grants: seq<Grant>,
                                         other: seq<Grant>, dashboardId: int, lookupConn: bool,
                                         grantConn: bool, otherConn: bool, env: PowerBiEnv, up: Upstream)
    requires IsPrivileged(s.role)
    ensures var r := UserReportToken(s, dashboards, grants, dashboardId, lookupConn, grantConn, env, up);
            (s.userId.Some? && DashboardById(dashboards, dashboardId, lookupConn).Some?
             && Configured(env, DashboardById(dashboards, dashboardId, lookupConn).value)) ==> r.call.Some?
    ensures UserReportToken(s, dashboards, grants, dashboardId, lookupConn, grantConn, env, up)
         == UserReportToken(s, dashboards, other, dashboardId, lookupConn, otherConn, env, up)
  {
  }

  /** Revocation takes effect on the next request: once the grant row for the session's department is
      deleted by its id, a non-privileged session gets no credential, and 403 when the dashboard is Active. */
  lemma RevocationTakesEffect(s: Session, dashboards: seq<Dashboard>, grants: seq<Grant>, g: Grant,
                              lookupConn: bool, env: PowerBiEnv, up: Upstream)
    requires GrantPairsUnique(grants) && g in grants
    requires !IsPrivileged(s.role) && s.departmentId == Some(g.departmentId)
    ensures var r := UserReportToken(s, dashboards, AdminPermissions.RemoveGrant(grants, g.id), g.dashboardId,
                                     lookupConn, true, env, up);
            !Succeeded(r.reply) && r.call.None?
    ensures s.userId.Some? && DashboardById(dashboards, g.dashboardId, lookupConn).Some?
            && DashboardById(dashboards, g.dashboardId, lookupConn).value.status == "Active" ==>
              UserReportToken(s, dashboards, AdminPermissions.RemoveGrant(grants, g.id), g.dashboardId,
                              lookupConn, true, env, up).reply == NoAccess
  {
    var after := AdminPermissions.RemoveGrant(grants, g.id);
    forall h | h in after ensures !(h.departmentId == g.departmentId && h.dashboardId == g.dashboardId) {
      var i :| 0 <= i < |grants| && grants[i] == h;
      var j :| 0 <= j < |grants| && grants[j] == g;
      assert i != j;
    }
    assert SessionGrantCount(after, s, g.dashboardId) == 0;
  }

  /** Granting department D a dashboard lets a user of D obtain a credential for it, while a user of a
      department without a grant is refused with 403. */
  lemma GrantOpensAccessForThatDepartmentOnly(s: Session, t: Session, dashboards: seq<Dashboard>, grants: seq<Grant>,
                                              g: Grant, env: PowerBiEnv, up: Upstream)
    requires DashboardIdsAscending(dashboards)
    requires s.userId.Some? && !IsPrivileged(s.role) && s.departmentId == Some(g.departmentId)
    requires t.userId.Some? && !IsPrivileged(t.role) && t.departmentId.Some?
    requires !HasGrant(grants, t.departmentId.value, g.dashboardId) && t.departmentId != s.departmentId
    requires FindDashboard(dashboards, g.dashboardId).Some?
    requires FindDashboard(dashboards, g.dashboardId).value.status == "Active"
    requires Configured(env, FindDashboard(dashboards, g.dashboardId).value) && Delivers(up)
    ensures Succeeded(UserReportToken(s, dashboards, grants + [g], g.dashboardId, true, true, env, up).reply)
    ensures UserReportToken(t, dashboards, grants + [g], g.dashboardId, true, true, env, up).reply == NoAccess
  {
    var after := grants + [g];
    assert g in after;
    AllowedAndDeliveredSucceeds(s, dashboards, after, g.dashboardId, env, up);
    forall h | h in after ensures !(h.departmentId == t.departmentId.value && h.dashboardId == g.dashboardId) {
      if h != g { assert h in grants; }
    }
    assert SessionGrantCount(after, t, g.dashboardId) == 0;
  }

  /** Which rows get_user_accessible_dashboards lists for a user id. Role and DepartmentID are read
      from the Users row, not from the session: an admin or superuser gets every dashboard, anyone
      else the dashboards granted to their department; an unknown user id gets none. */
  predicate Listed(users: seq<User>, dashboards: seq<Dashboard>, grants: seq<Grant>, userId: int, d: Dashboard) {
    d in dashboards && FindUser(users, userId).Some?
    && (IsPrivileged(Some(FindUser(users, userId).value.role))
        || HasGrant(grants, FindUser(users, userId).value.departmentId, d.id))
  }

  /** With a session freshly written from the user's row, the listing and the token route agree: a
      credential is issued for exactly the listed dashboards, less the inactive ones for a
      non-privileged user. */
  lemma ListingMatchesTokenPolicy(users: seq<User>, dashboards: seq<Dashboard>, grants: seq<Grant>, u: User, id: int)
    requires UserIdsAscending(users) && u in users
    ensures CanAccess(LoginLogout.SessionFor(u), dashboards, grants, id)
            <==> exists d :: Listed(users, dashboards, grants, u.id, d) && d.id == id
                             && (IsPrivileged(Some(u.role)) || d.status == "Active")
  {
    var k :| 0 <= k < |users| && users[k] == u;
    FindUserAt(users, k);
  }

  /** The split between the two sources of the role: once an admin is demoted to 'user', the listing
      drops an ungranted dashboard at once, while the session written at login still reaches the
      token call for it until the next login. */
  lemma StaleSessionKeepsPrivilege(users: seq<User>, dashboards: seq<Dashboard>, grants: seq<Grant>, u: User,
                                   d: Dashboard, env: PowerBiEnv, up: Upstream)
    requires UserIdsAscending(users) && DashboardIdsAscending(dashboards)
    requires u in users && u.role == "admin" && d in dashboards
    requires !HasGrant(grants, u.departmentId, d.id) && Configured(env, d)
    ensures !Listed(AdminUsers.SetRole(users, u.id, "user"), dashboards, grants, u.id, d)
    ensures UserReportToken(LoginLogout.SessionFor(u), dashboards, grants, d.id, true, true, env, up).call.Some?
  {
    var k :| 0 <= k < |users| && users[k] == u;
    FindUserAt(users, k);
    AdminUsers.SetRoleThenFindUser(users, u.id, "user");
    var j :| 0 <= j < |dashboards| && dashboards[j] == d;
    FindDashboardAt(dashboards, j);
  }
}
