/** The pure parts of the permission routes of admin_permissions.py: the checks before an
    insert into DepartmentDashboards, the row it inserts, and the delete by row id. */
module AdminPermissions {
  import opened Common
  import opened Tables
  import opened Http

  /** The JSON body of a grant request; None is an absent or null member. */
  datatype GrantRequest = GrantRequest(departmentId: Option<int>, dashboardId: Option<int>)

  /** The guards of grant_dashboard_permission, in order; `conn` is whether its connection opened.
      Ok carries the (DepartmentID, DashboardID) pair to insert. */
  function CheckGrant(grants: seq<Grant>, req: GrantRequest, conn: bool): (r: Result<(int, int), Reply>)
    ensures !Truthy(req.departmentId) || !Truthy(req.dashboardId) ==>
              r == Err(Fail(400, "Department and Dashboard are required"))
    ensures Truthy(req.departmentId) && Truthy(req.dashboardId) && !conn ==>
              r == Err(Fail(500, "Database connection failed"))
    ensures Truthy(req.departmentId) && Truthy(req.dashboardId) && conn
            && HasGrant(grants, req.departmentId.value, req.dashboardId.value) ==>
              r == Err(Fail(400, "Permission already exists"))
    ensures r.Ok? <==> Truthy(req.departmentId) && Truthy(req.dashboardId) && conn
                       && !HasGrant(grants, req.departmentId.value, req.dashboardId.value)
    ensures r.Ok? ==> Truthy(req.departmentId) && Truthy(req.dashboardId) && conn
                      && r.value == (req.departmentId.value, req.dashboardId.value)
                      && !HasGrant(grants, r.value.0, r.value.1)
  {
    if !Truthy(req.departmentId) || !Truthy(req.dashboardId) then Err(Fail(400, "Department and Dashboard are required"))
    else if !conn then Err(Fail(500, "Database connection failed"))
    else if GrantCount(grants, req.departmentId.value, req.dashboardId.value) > 0 then Err(Fail(400, "Permission already exists"))
    else Ok((req.departmentId.value, req.dashboardId.value))
  }

  /** The row a grant inserts; the names fall back to 'Unknown' when the referenced row is absent. */
  function NewGrant(id: int, dept: int, dash: int, departments: seq<Department>, dashboards: seq<Dashboard>,
                    grantedBy: Option<string>, now: Timestamp): (g: Grant)
    ensures g.id == id && g.departmentId == dept && g.dashboardId == dash
    ensures g.grantedBy == grantedBy && g.grantedAt == now
    ensures (exists d :: d in departments && d.id == dept) ==> exists d :: d in departments && d.id == dept && g.departmentName == d.name
    ensures (forall d :: d in departments ==> d.id != dept) ==> g.departmentName == "Unknown"
    ensures (exists d :: d in dashboards && d.id == dash) ==> exists d :: d in dashboards && d.id == dash && g.dashboardName == d.name
    ensures (forall d :: d in dashboards ==> d.id != dash) ==> g.dashboardName == "Unknown"
  {
    var deptName := match FindDepartment(departments, dept) case Some(d) => d.name case None => "Unknown";
    var dashName := match FindDashboard(dashboards, dash) case Some(d) => d.name case None => "Unknown";
    Grant(id, dept, deptName, dash, dashName, now, grantedBy)
  }

  /** `DELETE FROM DepartmentDashboards WHERE DepartmentDashboardID = ?` */
  function RemoveGrant(gs: seq<Grant>, id: int): (r: seq<Grant>)
    ensures forall g :: g in r <==> g in gs && g.id != id
    ensures |r| <= |gs|
  {
    if |gs| == 0 then [] else (if gs[0].id == id then [] else [gs[0]]) + RemoveGrant(gs[1..], id)
  }

  /** Deleting rows keeps the table in id order and keeps the pairs unique. */
  lemma {:induction false} RemoveGrantKeepsInvariants(gs: seq<Grant>, id: int)
    requires GrantIdsAscending(gs) && GrantPairsUnique(gs)
    ensures GrantIdsAscending(RemoveGrant(gs, id)) && GrantPairsUnique(RemoveGrant(gs, id))
  {
    if |gs| > 0 {
      var t := gs[1..];
      assert GrantIdsAscending(t) && GrantPairsUnique(t) by {
        forall i | 0 <= i < |t| ensures t[i] == gs[i + 1] { }
      }
      RemoveGrantKeepsInvariants(t, id);
      var rt := RemoveGrant(t, id);
      if gs[0].id != id {
        forall y | y in rt
          ensures gs[0].id < y.id && !(gs[0].departmentId == y.departmentId && gs[0].dashboardId == y.dashboardId)
        {
          var k :| 0 <= k < |t| && t[k] == y;
          assert gs[k + 1] == y;
        }
        ConsKeepsInvariants(gs[0], rt);
      }
    }
  }

  lemma ConsKeepsInvariants(x: Grant, t: seq<Grant>)
    requires GrantIdsAscending(t) && GrantPairsUnique(t)
    requires forall y :: y in t ==> x.id < y.id && !(x.departmentId == y.departmentId && x.dashboardId == y.dashboardId)
    ensures GrantIdsAscending([x] + t) && GrantPairsUnique([x] + t)
  {
    var r := [x] + t;
    forall i, j | 0 <= i < j < |r|
      ensures r[i].id < r[j].id && !(r[i].departmentId == r[j].departmentId && r[i].dashboardId == r[j].dashboardId)
    {
      assert r[j] == t[j - 1];
      if i == 0 {
        assert t[j - 1] in t;
      } else {
        assert r[i] == t[i - 1];
      }
    }
  }

  /** An insert that passed the duplicate check keeps the pairs unique. */
  lemma InsertKeepsPairsUnique(gs: seq<Grant>, g: Grant)
    requires GrantPairsUnique(gs) && !HasGrant(gs, g.departmentId, g.dashboardId)
    ensures GrantPairsUnique(gs + [g])
  {
    var r := gs + [g];
    forall i, j | 0 <= i < j < |r|
      ensures !(r[i].departmentId == r[j].departmentId && r[i].dashboardId == r[j].dashboardId)
    {
      if j == |gs| {
        assert r[i] == gs[i] && gs[i] in gs;
      } else {
        assert r[i] == gs[i] && r[j] == gs[j];
      }
    }
  }

  /** Granting a pair twice is rejected the second time, and the table gains one row only. */
  lemma SecondGrantIsDuplicate(gs: seq<Grant>, req: GrantRequest, g: Grant)
    requires CheckGrant(gs, req, true).Ok?
    requires (g.departmentId, g.dashboardId) == CheckGrant(gs, req, true).value
    ensures GrantPairsUnique(gs) ==> GrantPairsUnique(gs + [g])
    ensures CheckGrant(gs + [g], req, true) == Err(Fail(400, "Permission already exists"))
  {
    assert g in gs + [g];
    if GrantPairsUnique(gs) {
      InsertKeepsPairsUnique(gs, g);
    }
  }
}
