/** The portal's database: the five tables the routes read and write, the listing functions that
    copy query results into lists, and the routes that change a table. Each route first runs its
    decorator, then the pure checks of its module, then its statement. */
module Store {
  import opened Common
  import opened Tables
  import opened Http
  import opened Access
  import AdminReports
  import AdminPermissions
  import AdminUsers
  import AdminDepartments
  import LoginLogout
  import UserInterface

  const ConnectionFailed := Fail(500, "Database connection failed")

  /** The loop that appends each fetched row of the inner query to the department's list. */
  method CollectRows(rows: seq<AdminDepartments.GrantedDashboard>) returns (list: seq<AdminDepartments.GrantedDashboard>)
    ensures list == rows
  {
    list := [];
    var j := 0;
    while j < |rows|
      invariant 0 <= j <= |rows| && list == rows[..j]
    {
      list := list + [rows[j]];
      j := j + 1;
    }
  }

  /** The outer loop of get_departments_with_dashboards: one group per department, in the order given. */
  method GroupDepartments(byName: seq<Department>, grants: seq<Grant>, dashboards: seq<Dashboard>)
    returns (r: seq<AdminDepartments.DepartmentGroup>)
    ensures r == AdminDepartments.GroupsInOrder(byName, grants, dashboards)
  {
    r := [];
    var i := 0;
    while i < |byName|
      invariant 0 <= i <= |byName| && |r| == i
      invariant forall k :: 0 <= k < i ==> r[k] == AdminDepartments.GroupOf(byName[k], grants, dashboards)
    {
      var dept := byName[i];
      var rows := AdminDepartments.DashboardsOf(grants, dashboards, dept.id);
      var list := CollectRows(rows);
      var group := AdminDepartments.DepartmentGroup(dept.id, dept.name, dept.createdAt, |list|, list);
      assert group == AdminDepartments.GroupOf(dept, grants, dashboards);
      r := r + [group];
      i := i + 1;
    }
  }

  class Portal {
    var users: seq<User>
    var departments: seq<Department>
    var dashboards: seq<Dashboard>
    var grants: seq<Grant>
    var logs: seq<LogEntry>
    /** The next values the Dashboards and DepartmentDashboards identity columns hand out. */
    var nextDashboardId: int
    var nextGrantId: int

    /** Rows in identity order, identities below the next one, grant pairs unique, and every
        dashboard's status and alert coupled. */
    ghost predicate Valid()
      reads this
    {
      UserIdsAscending(users) && DepartmentIdsAscending(departments)
      && DashboardIdsAscending(dashboards) && GrantIdsAscending(grants)
      && GrantPairsUnique(grants) && AllStatusAlertCoupled(dashboards)
      && (forall i :: 0 <= i < |dashboards| ==> dashboards[i].id < nextDashboardId)
      && (forall i :: 0 <= i < |grants| ==> grants[i].id < nextGrantId)
    }

    constructor (users0: seq<User>, departments0: seq<Department>, dashboards0: seq<Dashboard>,
                 grants0: seq<Grant>, nextDashboardId0: int, nextGrantId0: int)
      requires UserIdsAscending(users0) && DepartmentIdsAscending(departments0)
      requires DashboardIdsAscending(dashboards0) && GrantIdsAscending(grants0)
      requires GrantPairsUnique(grants0) && AllStatusAlertCoupled(dashboards0)
      requires forall i :: 0 <= i < |dashboards0| ==> dashboards0[i].id < nextDashboardId0
      requires forall i :: 0 <= i < |grants0| ==> grants0[i].id < nextGrantId0
      ensures Valid()
      ensures users == users0 && departments == departments0 && dashboards == dashboards0
      ensures grants == grants0 && logs == [] && nextDashboardId == nextDashboardId0 && nextGrantId == nextGrantId0
    {
      users := users0;
      departments := departments0;
      dashboards := dashboards0;
      grants := grants0;
      logs := [];
      nextDashboardId := nextDashboardId0;
      nextGrantId := nextGrantId0;
    }

    // Listings. `db` is whether the function's connection opens; a failed one yields [].

    /** get_all_dashboards: every row, ORDER BY DashboardID DESC. */
    method GetAllDashboards(db: bool) returns (r: seq<Dashboard>)
      requires Valid()
      ensures !db ==> r == []
      ensures db ==> |r| == |dashboards| && forall d :: d in r <==> d in dashboards
      ensures forall i, j :: 0 <= i < j < |r| ==> r[i].id > r[j].id
    {
      r := [];
      if !db {
        return;
      }
      var n := |dashboards|;
      var i := n;
      while i > 0
        invariant 0 <= i <= n && |r| == n - i
        invariant forall k :: 0 <= k < |r| ==> r[k] == dashboards[n - 1 - k]
      {
        i := i - 1;
        r := r + [dashboards[i]];
      }
      forall d | d in dashboards ensures d in r {
        var k :| 0 <= k < n && dashboards[k] == d;
        assert r[n - 1 - k] == d;
      }
    }

    /** get_department_permissions: every grant row, ORDER BY DepartmentDashboardID DESC. */
    method GetDepartmentPermissions(db: bool) returns (r: seq<Grant>)
      requires Valid()
      ensures !db ==> r == []
      ensures db ==> |r| == |grants| && forall g :: g in r <==> g in grants
      ensures forall i, j :: 0 <= i < j < |r| ==> r[i].id > r[j].id
    {
      r := [];
      if !db {
        return;
      }
      var n := |grants|;
      var i := n;
      while i > 0
        invariant 0 <= i <= n && |r| == n - i
        invariant forall k :: 0 <= k < |r| ==> r[k] == grants[n - 1 - k]
      {
        i := i - 1;
        r := r + [grants[i]];
      }
      forall g | g in grants ensures g in r {
        var k :| 0 <= k < n && grants[k] == g;
        assert r[n - 1 - k] == g;
      }
    }

    /** get_all_users: every user, ORDER BY UserID DESC. */
    method GetAllUsers(db: bool) returns (r: seq<User>)
      requires Valid()
      ensures !db ==> r == []
      ensures db ==> |r| == |users| && forall u :: u in r <==> u in users
      ensures forall i, j :: 0 <= i < j < |r| ==> r[i].id > r[j].id
    {
      r := [];
      if !db {
        return;
      }
      var n := |users|;
      var i := n;
      while i > 0
        invariant 0 <= i <= n && |r| == n - i
        invariant forall k :: 0 <= k < |r| ==> r[k] == users[n - 1 - k]
      {
        i := i - 1;
        r := r + [users[i]];
      }
      forall u | u in users ensures u in r {
        var k :| 0 <= k < n && users[k] == u;
        assert r[n - 1 - k] == u;
      }
    }

    /** get_all_departments: every department, ORDER BY DepartmentID DESC. */
    method GetAllDepartments(db: bool) returns (r: seq<Department>)
      requires Valid()
      ensures !db ==> r == []
      ensures db ==> |r| == |departments| && forall d :: d in r <==> d in departments
      ensures forall i, j :: 0 <= i < j < |r| ==> r[i].id > r[j].id
    {
      r := [];
      if !db {
        return;
      }
      var n := |departments|;
      var i := n;
      while i > 0
        invariant 0 <= i <= n && |r| == n - i
        invariant forall k :: 0 <= k < |r| ==> r[k] == departments[n - 1 - k]
      {
        i := i - 1;
        r := r + [departments[i]];
      }
      forall d | d in departments ensures d in r {
        var k :| 0 <= k < n && departments[k] == d;
        assert r[n - 1 - k] == d;
      }
    }

    /** get_user_accessible_dashboards: the Users row decides; every dashboard for an admin or
        superuser, else the dashboards joined to the user's DepartmentID, each once, by DashboardID DESC. */
    method GetUserAccessibleDashboards(userId: int, db: bool) returns (r: seq<Dashboard>)
      requires Valid()
      ensures !db || FindUser(users, userId).None? ==> r == []
      ensures db ==> forall d :: d in r <==> UserInterface.Listed(users, dashboards, grants, userId, d)
      ensures forall i, j :: 0 <= i < j < |r| ==> r[i].id > r[j].id
    {
      r := [];
      if !db {
        return;
      }
      var user := FindUser(users, userId);
      if user.None? {
        return;
      }
      var role := user.value.role;
      var dept := user.value.departmentId;
      var privileged := role == "admin" || role == "superuser";
      var n := |dashboards|;
      var i := n;
      while i > 0
        invariant 0 <= i <= n
        invariant forall d :: d in r <==> d in dashboards[i..] && UserInterface.Listed(users, dashboards, grants, userId, d)
        invariant forall a, b :: 0 <= a < b < |r| ==> r[a].id > r[b].id
        invariant forall a, k :: 0 <= a < |r| && 0 <= k < i ==> r[a].id > dashboards[k].id
      {
        i := i - 1;
        var d := dashboards[i];
        assert dashboards[i..] == [d] + dashboards[i + 1..];
        if privileged || GrantCount(grants, dept, d.id) > 0 {
          r := r + [d];
        }
      }
    }

    /** get_departments_with_dashboards: departments by name, each with its granted dashboards
        by name and their count. */
    method GetDepartmentsWithDashboards(db: bool) returns (r: seq<AdminDepartments.DepartmentGroup>)
      requires Valid()
      ensures !db ==> r == []
      ensures db ==> r == AdminDepartments.Grouping(departments, grants, dashboards)
    {
      r := [];
      if !db {
        return;
      }
      var byName := AdminDepartments.SortBy(departments, AdminDepartments.DepartmentName);
      r := GroupDepartments(byName, grants, dashboards);
    }

    // Dashboard routes of admin_reports.py, behind admin_write_required.

    /** add_dashboard */
    method AddDashboard(s: Session, req: AdminReports.DashboardRequest, conn: bool, now: Timestamp) returns (r: Reply)
      requires Valid()
      modifies this
      ensures Valid()
      ensures users == old(users) && departments == old(departments) && grants == old(grants)
      ensures logs == old(logs) && nextGrantId == old(nextGrantId)
      ensures AdminWriteRequired(s) != Admit ==>
                r == AdminWriteRequired(s).AsReply() && dashboards == old(dashboards) && nextDashboardId == old(nextDashboardId)
      ensures AdminWriteRequired(s) == Admit && AdminReports.CheckAdd(req).Err? ==>
                r == AdminReports.CheckAdd(req).error && dashboards == old(dashboards) && nextDashboardId == old(nextDashboardId)
      ensures AdminWriteRequired(s) == Admit && AdminReports.CheckAdd(req).Ok? && !conn ==>
                r == ConnectionFailed && dashboards == old(dashboards) && nextDashboardId == old(nextDashboardId)
      ensures AdminWriteRequired(s) == Admit && AdminReports.CheckAdd(req).Ok? && conn ==>
                r == Json(200, Done("Dashboard added successfully"))
                && dashboards == old(dashboards) + [AdminReports.NewDashboard(old(nextDashboardId), AdminReports.CheckAdd(req).value, s.username, now)]
                && nextDashboardId == old(nextDashboardId) + 1
    {
      var gate := AdminWriteRequired(s);
      if gate.Refuse? {
        return gate.AsReply();
      }
      var checked := AdminReports.CheckAdd(req);
      if checked.Err? {
        return checked.error;
      }
      if !conn {
        return ConnectionFailed;
      }
      var row := AdminReports.NewDashboard(nextDashboardId, checked.value, s.username, now);
      InsertDashboard(row);
      r := Json(200, Done("Dashboard added successfully"));
    }

    /** The INSERT of add_dashboard: the row takes the next identity. */
    method InsertDashboard(row: Dashboard)
      requires Valid() && row.id == nextDashboardId && StatusAlertCoupled(row)
      modifies this
      ensures Valid()
      ensures users == old(users) && departments == old(departments) && grants == old(grants)
      ensures logs == old(logs) && nextGrantId == old(nextGrantId)
      ensures dashboards == old(dashboards) + [row] && nextDashboardId == old(nextDashboardId) + 1
    {
      AdminReports.InsertKeepsInvariants(dashboards, row);
      dashboards := dashboards + [row];
      nextDashboardId := nextDashboardId + 1;
    }

    /** update_dashboard(dashboard_id) */
    method UpdateDashboard(s: Session, id: int, req: AdminReports.DashboardRequest, conn: bool, now: Timestamp) returns (r: Reply)
      requires Valid()
      modifies this
      ensures Valid()
      ensures users == old(users) && departments == old(departments) && grants == old(grants) && logs == old(logs)
      ensures nextDashboardId == old(nextDashboardId) && nextGrantId == old(nextGrantId)
      ensures AdminWriteRequired(s) != Admit ==> r == AdminWriteRequired(s).AsReply() && dashboards == old(dashboards)
      ensures AdminWriteRequired(s) == Admit && AdminReports.CheckUpdate(req).Err? ==>
                r == AdminReports.CheckUpdate(req).error && dashboards == old(dashboards)
      ensures AdminWriteRequired(s) == Admit && AdminReports.CheckUpdate(req).Ok? && !conn ==>
                r == ConnectionFailed && dashboards == old(dashboards)
      ensures AdminWriteRequired(s) == Admit && AdminReports.CheckUpdate(req).Ok? && conn ==>
                r == Json(200, Done("Dashboard updated successfully"))
                && dashboards == AdminReports.UpdateRows(old(dashboards), id, AdminReports.CheckUpdate(req).value, s.username, now)
    {
      var gate := AdminWriteRequired(s);
      if gate.Refuse? {
        return gate.AsReply();
      }
      var checked := AdminReports.CheckUpdate(req);
      if checked.Err? {
        return checked.error;
      }
      if !conn {
        return ConnectionFailed;
      }
      AdminReports.UpdateRowsKeepsInvariants(dashboards, id, checked.value, s.username, now);
      dashboards := AdminReports.UpdateRows(dashboards, id, checked.value, s.username, now);
      r := Json(200, Done("Dashboard updated successfully"));
    }

    /** delete_dashboard(dashboard_id) */
    method DeleteDashboard(s: Session, id: int, conn: bool) returns (r: Reply)
      requires Valid()
      modifies this
      ensures Valid()
      ensures users == old(users) && departments == old(departments) && grants == old(grants) && logs == old(logs)
      ensures nextDashboardId == old(nextDashboardId) && nextGrantId == old(nextGrantId)
      ensures AdminWriteRequired(s) != Admit ==> r == AdminWriteRequired(s).AsReply() && dashboards == old(dashboards)
      ensures AdminWriteRequired(s) == Admit && !conn ==> r == ConnectionFailed && dashboards == old(dashboards)
      ensures AdminWriteRequired(s) == Admit && conn ==>
                r == Json(200, Done("Dashboard deleted successfully"))
                && dashboards == AdminReports.DeleteRows(old(dashboards), id)
    {
      var gate := AdminWriteRequired(s);
      if gate.Refuse? {
        return gate.AsReply();
      }
      if !conn {
        return ConnectionFailed;
      }
      AdminReports.DeleteRowsKeepsInvariants(dashboards, id);
      dashboards := AdminReports.DeleteRows(dashboards, id);
      r := Json(200, Done("Dashboard deleted successfully"));
    }

    // Permission routes of admin_permissions.py, behind admin_write_required.

    /** grant_dashboard_permission */
    method GrantPermission(s: Session, req: AdminPermissions.GrantRequest, conn: bool, now: Timestamp) returns (r: Reply)
      requires Valid()
      modifies this
      ensures Valid()
      ensures users == old(users) && departments == old(departments) && dashboards == old(dashboards)
      ensures logs == old(logs) && nextDashboardId == old(nextDashboardId)
      ensures AdminWriteRequired(s) != Admit ==> r == AdminWriteRequired(s).AsReply()
      ensures AdminWriteRequired(s) == Admit && AdminPermissions.CheckGrant(old(grants), req, conn).Err? ==>
                r == AdminPermissions.CheckGrant(old(grants), req, conn).error
      ensures grants != old(grants) <==> AdminWriteRequired(s) == Admit && AdminPermissions.CheckGrant(old(grants), req, conn).Ok?
      ensures grants != old(grants) ==>
                var pair := AdminPermissions.CheckGrant(old(grants), req, conn).value;
                r == Json(200, Done("Permission granted successfully"))
                && grants == old(grants) + [AdminPermissions.NewGrant(old(nextGrantId), pair.0, pair.1, departments,
                                                                      dashboards, s.username, now)]
                && nextGrantId == old(nextGrantId) + 1
      ensures grants == old(grants) ==> nextGrantId == old(nextGrantId)
    {
      var gate := AdminWriteRequired(s);
      if gate.Refuse? {
        return gate.AsReply();
      }
      var checked := AdminPermissions.CheckGrant(grants, req, conn);
      if checked.Err? {
        return checked.error;
      }
      var g := AdminPermissions.NewGrant(nextGrantId, checked.value.0, checked.value.1, departments, dashboards, s.username, now);
      InsertGrant(g);
      r := Json(200, Done("Permission granted successfully"));
    }

    /** The INSERT of grant_dashboard_permission: the row takes the next identity. */
    method InsertGrant(g: Grant)
      requires Valid() && g.id == nextGrantId && !HasGrant(grants, g.departmentId, g.dashboardId)
      modifies this
      ensures Valid()
      ensures users == old(users) && departments == old(departments) && dashboards == old(dashboards)
      ensures logs == old(logs) && nextDashboardId == old(nextDashboardId)
      ensures grants == old(grants) + [g] && nextGrantId == old(nextGrantId) + 1
    {
      AdminPermissions.InsertKeepsPairsUnique(grants, g);
      grants := grants + [g];
      nextGrantId := nextGrantId + 1;
    }

    /** revoke_dashboard_permission(permission_id) */
    method RevokePermission(s: Session, id: int, conn: bool) returns (r: Reply)
      requires Valid()
      modifies this
      ensures Valid()
      ensures users == old(users) && departments == old(departments) && dashboards == old(dashboards) && logs == old(logs)
      ensures nextDashboardId == old(nextDashboardId) && nextGrantId == old(nextGrantId)
      ensures AdminWriteRequired(s) != Admit ==> r == AdminWriteRequired(s).AsReply() && grants == old(grants)
      ensures AdminWriteRequired(s) == Admit && !conn ==> r == ConnectionFailed && grants == old(grants)
      ensures AdminWriteRequired(s) == Admit && conn ==>
                r == Json(200, Done("Permission revoked successfully"))
                && grants == AdminPermissions.RemoveGrant(old(grants), id)
    {
      var gate := AdminWriteRequired(s);
      if gate.Refuse? {
        return gate.AsReply();
      }
      if !conn {
        return ConnectionFailed;
      }
      AdminPermissions.RemoveGrantKeepsInvariants(grants, id);
      grants := AdminPermissions.RemoveGrant(grants, id);
      r := Json(200, Done("Permission revoked successfully"));
    }

    // The role route of admin_users.py, behind admin_write_required.

    /** update_user_role: validate, look the user up, write the Role, read it back and compare. */
    method UpdateUserRole(s: Session, req: AdminUsers.RoleRequest, conn: bool) returns (r: Reply)
      requires Valid()
      modifies this
      ensures Valid()
      ensures departments == old(departments) && dashboards == old(dashboards) && grants == old(grants)
      ensures logs == old(logs) && nextDashboardId == old(nextDashboardId) && nextGrantId == old(nextGrantId)
      ensures AdminWriteRequired(s) != Admit ==> r == AdminWriteRequired(s).AsReply() && users == old(users)
      ensures AdminWriteRequired(s) == Admit && AdminUsers.CheckRoleRequest(req).Err? ==>
                r == AdminUsers.CheckRoleRequest(req).error && users == old(users)
      ensures AdminWriteRequired(s) == Admit && AdminUsers.CheckRoleRequest(req).Ok? && !conn ==>
                r == ConnectionFailed && users == old(users)
      ensures AdminWriteRequired(s) == Admit && AdminUsers.CheckRoleRequest(req).Ok? && conn ==>
                var (uid, role) := AdminUsers.CheckRoleRequest(req).value;
                match FindUser(old(users), uid)
                case None => r == Fail(404, "User not found") && users == old(users)
                case Some(u) =>
                  users == AdminUsers.SetRole(old(users), uid, role)
                  && r == AdminUsers.RoleReply(u.role, role, s.userId == Some(uid))
    {
      var gate := AdminWriteRequired(s);
      if gate.Refuse? {
        return gate.AsReply();
      }
      var checked := AdminUsers.CheckRoleRequest(req);
      if checked.Err? {
        return checked.error;
      }
      if !conn {
        return ConnectionFailed;
      }
      var (uid, role) := checked.value;
      var found := FindUser(users, uid);
      if found.None? {
        return Fail(404, "User not found");
      }
      var oldRole := found.value.role;
      var isSelf := s.userId == Some(uid);
      WriteRole(uid, role);
      var reread := FindUser(users, uid);
      r := AdminUsers.Confirm(reread, role, oldRole, isSelf);
    }

    /** The UPDATE of update_user_role; re-reading the user then finds the new role. */
    method WriteRole(uid: int, role: string)
      requires Valid()
      modifies this
      ensures Valid()
      ensures departments == old(departments) && dashboards == old(dashboards) && grants == old(grants)
      ensures logs == old(logs) && nextDashboardId == old(nextDashboardId) && nextGrantId == old(nextGrantId)
      ensures users == AdminUsers.SetRole(old(users), uid, role)
      ensures FindUser(old(users), uid).Some? ==> FindUser(users, uid) == Some(FindUser(old(users), uid).value.(role := role))
    {
      AdminUsers.SetRoleChangesOnlyThatRole(users, uid, role);
      if FindUser(users, uid).Some? {
        AdminUsers.SetRoleThenFindUser(users, uid, role);
      }
      users := AdminUsers.SetRole(users, uid, role);
    }

    // The session routes of login_logout.py. The session goes in and comes back out; the
    // UserLogs rows are appended to `logs`.

    /** auth_callback */
    method AuthCallback(s: Session, cb: LoginLogout.CallbackRequest, exchange: LoginLogout.TokenExchange,
                        profile: LoginLogout.ProfileFetch, db: bool, logConn: bool, now: Timestamp)
      returns (r: Reply, t: Session)
      requires Valid()
      modifies this
      ensures Valid()
      ensures users == old(users) && departments == old(departments) && dashboards == old(dashboards)
      ensures grants == old(grants) && nextDashboardId == old(nextDashboardId) && nextGrantId == old(nextGrantId)
      ensures var o := LoginLogout.AuthCallback(old(users), s, cb, exchange, profile, db, logConn, now);
              r == o.reply && t == o.session && logs == old(logs) + o.appended
    {
      var o := LoginLogout.AuthCallback(users, s, cb, exchange, profile, db, logConn, now);
      logs := logs + o.appended;
      r, t := o.reply, o.session;
    }

    /** logout */
    method Logout(s: Session, logConn: bool, now: Timestamp) returns (r: Reply, t: Session)
      requires Valid()
      modifies this
      ensures Valid()
      ensures users == old(users) && departments == old(departments) && dashboards == old(dashboards)
      ensures grants == old(grants) && nextDashboardId == old(nextDashboardId) && nextGrantId == old(nextGrantId)
      ensures var o := LoginLogout.Logout(s, logConn, now);
              r == o.reply && t == o.session && logs == old(logs) + o.appended
    {
      var o := LoginLogout.Logout(s, logConn, now);
      logs := logs + o.appended;
      r, t := o.reply, o.session;
    }
  }
}
