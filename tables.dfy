/** The rows of the portal's five tables, the lookups the handlers run against them,
    and the invariants the administration routes keep. */
module Tables {
  import opened Common

  datatype User = User(id: int, email: string, name: string, departmentId: int,
                       departmentName: string, role: string, createdAt: Timestamp)

  datatype Department = Department(id: int, name: string, createdAt: Timestamp)

  datatype Dashboard = Dashboard(
    id: int, name: string, reportId: string, groupId: string, coreDatasetId: string,
    proxyDatasetId: Option<string>, createdAt: Timestamp, createdBy: Option<string>,
    updatedAt: Option<Timestamp>, updatedBy: Option<string>, status: string,
    description: Option<string>, owner: Option<string>, alert: Option<string>)

  /** A DepartmentDashboards row; names are denormalised copies taken at grant time. */
  datatype Grant = Grant(id: int, departmentId: int, departmentName: string, dashboardId: int,
                         dashboardName: string, grantedAt: Timestamp, grantedBy: Option<string>)

  datatype Action = Login | Logout

  datatype LogEntry = LogEntry(userId: int, userName: string, userEmail: string, action: Action, at: Timestamp)

  // Identity columns: every table is held in ascending id order, as the identity column hands them out.

  predicate UserIdsAscending(us: seq<User>) {
    forall i, j :: 0 <= i < j < |us| ==> us[i].id < us[j].id
  }

  predicate DepartmentIdsAscending(ds: seq<Department>) {
    forall i, j :: 0 <= i < j < |ds| ==> ds[i].id < ds[j].id
  }

  predicate DashboardIdsAscending(ds: seq<Dashboard>) {
    forall i, j :: 0 <= i < j < |ds| ==> ds[i].id < ds[j].id
  }

  predicate GrantIdsAscending(gs: seq<Grant>) {
    forall i, j :: 0 <= i < j < |gs| ==> gs[i].id < gs[j].id
  }

  /** At most one grant per (DepartmentID, DashboardID) pair. */
  predicate GrantPairsUnique(gs: seq<Grant>) {
    forall i, j :: 0 <= i < j < |gs| ==>
      !(gs[i].departmentId == gs[j].departmentId && gs[i].dashboardId == gs[j].dashboardId)
  }

  /** An Inactive dashboard carries a non-empty alert; an Active one carries none. */
  predicate StatusAlertCoupled(d: Dashboard) {
    (d.status == "Inactive" ==> d.alert.Some? && d.alert.value != "")
    && (d.status == "Active" ==> d.alert.None?)
  }

  predicate AllStatusAlertCoupled(ds: seq<Dashboard>) {
    forall i :: 0 <= i < |ds| ==> StatusAlertCoupled(ds[i])
  }

  // Lookups by key (`SELECT ... WHERE key = ?` followed by fetchone()).

  function FindUser(us: seq<User>, id: int): (r: Option<User>)
    ensures r.Some? ==> r.value in us && r.value.id == id
    ensures r.None? ==> forall u :: u in us ==> u.id != id
  {
    if |us| == 0 then None else if us[0].id == id then Some(us[0]) else FindUser(us[1..], id)
  }

  /** In a table in id order, the user found for an id is the one at its position. */
  lemma FindUserAt(us: seq<User>, k: int)
    requires UserIdsAscending(us) && 0 <= k < |us|
    ensures FindUser(us, us[k].id) == Some(us[k])
  {
    var f := FindUser(us, us[k].id).value;
    var j :| 0 <= j < |us| && us[j] == f;
    assert !(j < k) && !(k < j);
  }

  /** The first row whose UserEmail equals `email` exactly. */
  function FindUserByEmail(us: seq<User>, email: string): (r: Option<User>)
    ensures r.Some? ==> r.value in us && r.value.email == email
    ensures r.None? ==> forall u :: u in us ==> u.email != email
  {
    if |us| == 0 then None else if us[0].email == email then Some(us[0]) else FindUserByEmail(us[1..], email)
  }

  function FindDepartment(ds: seq<Department>, id: int): (r: Option<Department>)
    ensures r.Some? ==> r.value in ds && r.value.id == id
    ensures r.None? ==> forall d :: d in ds ==> d.id != id
  {
    if |ds| == 0 then None else if ds[0].id == id then Some(ds[0]) else FindDepartment(ds[1..], id)
  }

  function FindDashboard(ds: seq<Dashboard>, id: int): (r: Option<Dashboard>)
    ensures r.Some? ==> r.value in ds && r.value.id == id
    ensures r.None? ==> forall d :: d in ds ==> d.id != id
  {
    if |ds| == 0 then None else if ds[0].id == id then Some(ds[0]) else FindDashboard(ds[1..], id)
  }

  /** In a table in id order, the dashboard found for an id is the one at its position. */
  lemma FindDashboardAt(ds: seq<Dashboard>, k: int)
    requires DashboardIdsAscending(ds) && 0 <= k < |ds|
    ensures FindDashboard(ds, ds[k].id) == Some(ds[k])
  {
    var f := FindDashboard(ds, ds[k].id).value;
    var j :| 0 <= j < |ds| && ds[j] == f;
    assert !(j < k) && !(k < j);
  }

  predicate HasGrant(gs: seq<Grant>, dept: int, dash: int) {
    exists g :: g in gs && g.departmentId == dept && g.dashboardId == dash
  }

  /** `SELECT COUNT(*) FROM DepartmentDashboards WHERE DepartmentID = ? AND DashboardID = ?` */
  function GrantCount(gs: seq<Grant>, dept: int, dash: int): (n: nat)
    ensures n == 0 <==> !HasGrant(gs, dept, dash)
    ensures n <= |gs|
  {
    if |gs| == 0 then 0
    else (if gs[0].departmentId == dept && gs[0].dashboardId == dash then 1 else 0) + GrantCount(gs[1..], dept, dash)
  }

  /** Under the uniqueness invariant the duplicate check's count is 0 or 1. */
  lemma {:induction false} GrantCountAtMostOne(gs: seq<Grant>, dept: int, dash: int)
    requires GrantPairsUnique(gs)
    ensures GrantCount(gs, dept, dash) <= 1
  {
    if |gs| > 0 {
      assert GrantPairsUnique(gs[1..]) by {
        forall i, j | 0 <= i < j < |gs[1..]|
          ensures !(gs[1..][i].departmentId == gs[1..][j].departmentId && gs[1..][i].dashboardId == gs[1..][j].dashboardId)
        {
          assert gs[1..][i] == gs[i + 1] && gs[1..][j] == gs[j + 1];
        }
      }
      GrantCountAtMostOne(gs[1..], dept, dash);
      if gs[0].departmentId == dept && gs[0].dashboardId == dash {
        forall g | g in gs[1..] ensures !(g.departmentId == dept && g.dashboardId == dash) {
          var k :| 0 <= k < |gs[1..]| && gs[1..][k] == g;
          assert gs[k + 1] == g;
        }
        assert GrantCount(gs[1..], dept, dash) == 0;
      }
    }
  }
}
