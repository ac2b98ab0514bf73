/** The department listings of admin_departments.py: the join of a department's grants with the
    Dashboards table, ordered by name, and the grouping of every department with its dashboards. */
module AdminDepartments {
  import opened Common
  import opened Tables

  // ORDER BY on a name column. The database collation is not modelled: names are compared
  // code point by code point, a shorter prefix first.

  predicate LexLe(a: string, b: string)
    decreases |a|
  {
    |a| == 0 || (|b| > 0 && (a[0] < b[0] || (a[0] == b[0] && LexLe(a[1..], b[1..]))))
  }

  lemma {:induction false} LexLeTotal(a: string, b: string)
    ensures LexLe(a, b) || LexLe(b, a)
    decreases |a|
  {
    if |a| > 0 && |b| > 0 && a[0] == b[0] {
      LexLeTotal(a[1..], b[1..]);
    }
  }

  lemma {:induction false} LexLeTransitive(a: string, b: string, c: string)
    requires LexLe(a, b) && LexLe(b, c)
    ensures LexLe(a, c)
    decreases |a|
  {
    if |a| > 0 && a[0] == b[0] && b[0] == c[0] {
      LexLeTransitive(a[1..], b[1..], c[1..]);
    }
  }

  predicate SortedBy<T>(s: seq<T>, key: T -> string) {
    forall i, j :: 0 <= i < j < |s| ==> LexLe(key(s[i]), key(s[j]))
  }

  /** No two positions carry the same id. */
  predicate DistinctBy<T>(s: seq<T>, id: T -> int) {
    forall i, j :: 0 <= i < j < |s| ==> id(s[i]) != id(s[j])
  }

  lemma ConsSorted<T>(x: T, s: seq<T>, key: T -> string)
    requires SortedBy(s, key)
    requires forall z :: z in s ==> LexLe(key(x), key(z))
    ensures SortedBy([x] + s, key)
  {
    var r := [x] + s;
    forall i, j | 0 <= i < j < |r| ensures LexLe(key(r[i]), key(r[j])) {
      assert r[j] == s[j - 1];
      if i == 0 {
        assert s[j - 1] in s;
      } else {
        assert r[i] == s[i - 1];
      }
    }
  }

  /** In a sorted sequence every element is at least the first. */
  lemma HeadIsLeast<T>(x: T, s: seq<T>, key: T -> string)
    requires SortedBy(s, key) && |s| > 0 && LexLe(key(x), key(s[0]))
    ensures forall z :: z in s ==> LexLe(key(x), key(z))
  {
    forall z | z in s ensures LexLe(key(x), key(z)) {
      var k :| 0 <= k < |s| && s[k] == z;
      if k > 0 {
        LexLeTransitive(key(x), key(s[0]), key(z));
      }
    }
  }

  /** Every element of a sequence holding x and the tail of a sorted s is at least s's head. */
  lemma TailBound<T>(x: T, s: seq<T>, t: seq<T>, key: T -> string)
    requires SortedBy(s, key) && |s| > 0 && LexLe(key(s[0]), key(x))
    requires multiset(t) == multiset(s[1..]) + multiset{x}
    ensures forall z :: z in t ==> LexLe(key(s[0]), key(z))
  {
    forall z | z in t ensures LexLe(key(s[0]), key(z)) {
      assert z in multiset(t);
      if z != x {
        assert z in multiset(s[1..]);
        var k :| 0 <= k < |s[1..]| && s[1..][k] == z;
        assert s[k + 1] == z;
      }
    }
  }

  /** One step of insertion sort. */
  function InsertBy<T>(x: T, s: seq<T>, key: T -> string): (r: seq<T>)
    requires SortedBy(s, key)
    ensures multiset(r) == multiset(s) + multiset{x}
    ensures SortedBy(r, key)
    decreases |s|
  {
    if |s| == 0 then [x]
    else if LexLe(key(x), key(s[0])) then
      HeadIsLeast(x, s, key);
      ConsSorted(x, s, key);
      [x] + s
    else
      LexLeTotal(key(x), key(s[0]));
      var t := InsertBy(x, s[1..], key);
      TailBound(x, s, t, key);
      ConsSorted(s[0], t, key);
      assert s == [s[0]] + s[1..];
      [s[0]] + t
  }

  /** ORDER BY `key`: the same elements, in name order. Ties keep no particular order. */
  function SortBy<T>(s: seq<T>, key: T -> string): (r: seq<T>)
    ensures multiset(r) == multiset(s) && |r| == |s|
    ensures SortedBy(r, key)
  {
    if |s| == 0 then []
    else
      assert s == [s[0]] + s[1..];
      InsertBy(s[0], SortBy(s[1..], key), key)
  }

  lemma ConsDistinct<T>(x: T, s: seq<T>, id: T -> int)
    requires DistinctBy(s, id)
    requires forall z :: z in s ==> id(z) != id(x)
    ensures DistinctBy([x] + s, id)
  {
    var r := [x] + s;
    forall i, j | 0 <= i < j < |r| ensures id(r[i]) != id(r[j]) {
      assert r[j] == s[j - 1];
      if i == 0 {
        assert s[j - 1] in s;
      } else {
        assert r[i] == s[i - 1];
      }
    }
  }

  /** Sorting keeps ids distinct. */
  lemma {:induction false} SortByKeepsDistinct<T>(s: seq<T>, key: T -> string, id: T -> int)
    requires DistinctBy(s, id)
    ensures DistinctBy(SortBy(s, key), id)
  {
    if |s| > 0 {
      var tail := s[1..];
      assert DistinctBy(tail, id) by {
        forall i, j | 0 <= i < j < |tail| ensures id(tail[i]) != id(tail[j]) {
          assert tail[i] == s[i + 1] && tail[j] == s[j + 1];
        }
      }
      SortByKeepsDistinct(tail, key, id);
      var sorted := SortBy(tail, key);
      forall z | z in sorted ensures id(z) != id(s[0]) {
        assert z in multiset(sorted);
        assert z in multiset(tail);
        var k :| 0 <= k < |tail| && tail[k] == z;
        assert s[k + 1] == z;
      }
      InsertKeepsDistinct(s[0], sorted, key, id);
    }
  }

  lemma {:induction false} InsertKeepsDistinct<T>(x: T, s: seq<T>, key: T -> string, id: T -> int)
    requires SortedBy(s, key) && DistinctBy(s, id)
    requires forall z :: z in s ==> id(z) != id(x)
    ensures DistinctBy(InsertBy(x, s, key), id)
    decreases |s|
  {
    var r := InsertBy(x, s, key);
    if |s| > 0 && !LexLe(key(x), key(s[0])) {
      var tail := s[1..];
      assert SortedBy(tail, key) && DistinctBy(tail, id) by {
        forall i, j | 0 <= i < j < |tail| ensures LexLe(key(tail[i]), key(tail[j])) && id(tail[i]) != id(tail[j]) {
          assert tail[i] == s[i + 1] && tail[j] == s[j + 1];
        }
      }
      forall z | z in tail ensures id(z) != id(x) {
        var k :| 0 <= k < |tail| && tail[k] == z;
        assert s[k + 1] == z;
      }
      InsertKeepsDistinct(x, tail, key, id);
      var t := InsertBy(x, tail, key);
      forall z | z in t ensures id(z) != id(s[0]) {
        assert z in multiset(t);
        if z != x {
          assert z in multiset(tail);
          var k :| 0 <= k < |tail| && tail[k] == z;
          assert s[k + 1] == z;
        }
      }
      assert r == [s[0]] + t;
      ConsDistinct(s[0], t, id);
    } else if |s| > 0 {
      assert r == [x] + s;
      ConsDistinct(x, s, id);
    }
  }

  /** One row of the inner query: dashboard columns and the grant's GrantedAt and GrantedBy. */
  datatype GrantedDashboard = GrantedDashboard(dashboardId: int, dashboardName: string, status: string,
                                               description: Option<string>, createdBy: Option<string>,
                                               createdAt: Timestamp, grantedAt: Timestamp,
                                               grantedBy: Option<string>, owner: Option<string>)

  function Joined(d: Dashboard, g: Grant): GrantedDashboard {
    GrantedDashboard(d.id, d.name, d.status, d.description, d.createdBy, d.createdAt, g.grantedAt, g.grantedBy, d.owner)
  }

  function RowName(x: GrantedDashboard): string {
    x.dashboardName
  }

  function RowId(x: GrantedDashboard): int {
    x.dashboardId
  }

  function DepartmentName(d: Department): string {
    d.name
  }

  function DepartmentId(d: Department): int {
    d.id
  }

  /** Whether x is the joined row of grant g: g's dashboard exists and x combines the two. */
  predicate JoinOf(dashboards: seq<Dashboard>, g: Grant, x: GrantedDashboard) {
    FindDashboard(dashboards, g.dashboardId).Some? && x == Joined(FindDashboard(dashboards, g.dashboardId).value, g)
  }

  /** `Dashboards d INNER JOIN DepartmentDashboards dd ON d.DashboardID = dd.DashboardID WHERE dd.DepartmentID = ?`,
      one row per matching grant row, in grant-row order. */
  function JoinRows(grants: seq<Grant>, dashboards: seq<Dashboard>, deptId: int): (r: seq<GrantedDashboard>)
    ensures forall x :: x in r <==> exists g :: g in grants && g.departmentId == deptId && JoinOf(dashboards, g, x)
  {
    if |grants| == 0 then []
    else
      var g := grants[0];
      var head := if g.departmentId == deptId && FindDashboard(dashboards, g.dashboardId).Some?
                  then [Joined(FindDashboard(dashboards, g.dashboardId).value, g)] else [];
      var tail := JoinRows(grants[1..], dashboards, deptId);
      assert forall h :: h in grants <==> h == g || h in grants[1..];
      head + tail
  }

  /** Under grant-pair uniqueness no dashboard is joined twice, so DISTINCT removes nothing. */
  lemma {:induction false} JoinRowsDistinct(grants: seq<Grant>, dashboards: seq<Dashboard>, deptId: int)
    requires GrantPairsUnique(grants)
    ensures DistinctBy(JoinRows(grants, dashboards, deptId), RowId)
  {
    if |grants| > 0 {
      var g := grants[0];
      var t := grants[1..];
      assert GrantPairsUnique(t) by {
        forall i, j | 0 <= i < j < |t|
          ensures !(t[i].departmentId == t[j].departmentId && t[i].dashboardId == t[j].dashboardId)
        {
          assert t[i] == grants[i + 1] && t[j] == grants[j + 1];
        }
      }
      JoinRowsDistinct(t, dashboards, deptId);
      var tail := JoinRows(t, dashboards, deptId);
      var r := JoinRows(grants, dashboards, deptId);
      if g.departmentId == deptId && FindDashboard(dashboards, g.dashboardId).Some? {
        forall z | z in tail ensures RowId(z) != g.dashboardId {
          var h :| h in t && h.departmentId == deptId && JoinOf(dashboards, h, z);
          var k :| 0 <= k < |t| && t[k] == h;
          assert grants[k + 1] == h;
        }
        ConsDistinct(Joined(FindDashboard(dashboards, g.dashboardId).value, g), tail, RowId);
      } else {
        assert r == tail;
      }
    }
  }

  /** The inner query for one department: its joined rows ORDER BY DashboardName. */
  function DashboardsOf(grants: seq<Grant>, dashboards: seq<Dashboard>, deptId: int): (r: seq<GrantedDashboard>)
    ensures forall x :: x in r <==> exists g :: g in grants && g.departmentId == deptId && JoinOf(dashboards, g, x)
    ensures SortedBy(r, RowName)
  {
    var rows := JoinRows(grants, dashboards, deptId);
    var r := SortBy(rows, RowName);
    assert forall x :: x in r <==> x in rows by {
      forall x ensures x in r <==> x in rows {
        assert x in r <==> x in multiset(r);
        assert x in rows <==> x in multiset(rows);
      }
    }
    r
  }

  /** One element of the grouping: a department, its dashboards and their count. */
  datatype DepartmentGroup = DepartmentGroup(departmentId: int, departmentName: string, createdAt: Timestamp,
                                             dashboardCount: nat, dashboards: seq<GrantedDashboard>)

  /** A department's group: its columns, its rows of the inner query, and their count. */
  function GroupOf(d: Department, grants: seq<Grant>, dashboards: seq<Dashboard>): DepartmentGroup {
    var rows := DashboardsOf(grants, dashboards, d.id);
    DepartmentGroup(d.id, d.name, d.createdAt, |rows|, rows)
  }

  /** One group per department of `byName`, in that order. */
  function GroupsInOrder(byName: seq<Department>, grants: seq<Grant>, dashboards: seq<Dashboard>): (r: seq<DepartmentGroup>)
    ensures |r| == |byName|
    ensures forall k :: 0 <= k < |r| ==> r[k] == GroupOf(byName[k], grants, dashboards)
  {
    seq(|byName|, k requires 0 <= k < |byName| => GroupOf(byName[k], grants, dashboards))
  }

  /** What get_departments_with_dashboards returns on a working connection: a group per department,
      departments by name. */
  function Grouping(departments: seq<Department>, grants: seq<Grant>, dashboards: seq<Dashboard>): seq<DepartmentGroup> {
    GroupsInOrder(SortBy(departments, DepartmentName), grants, dashboards)
  }

  /** Every department has exactly one place in the grouping, holding its own group, and nothing
      else appears. */
  lemma GroupingCoversDepartments(departments: seq<Department>, grants: seq<Grant>, dashboards: seq<Dashboard>)
    ensures var r := Grouping(departments, grants, dashboards);
            |r| == |departments|
            && forall d :: d in departments <==> exists k :: 0 <= k < |r| && r[k] == GroupOf(d, grants, dashboards)
  {
    var r := Grouping(departments, grants, dashboards);
    var byName := SortBy(departments, DepartmentName);
    forall d ensures d in departments <==> exists k :: 0 <= k < |r| && r[k] == GroupOf(d, grants, dashboards) {
      assert d in departments <==> d in multiset(departments);
      assert d in byName <==> d in multiset(byName);
      if d in byName {
        var k :| 0 <= k < |byName| && byName[k] == d;
        assert r[k] == GroupOf(d, grants, dashboards);
      }
      if exists k :: 0 <= k < |r| && r[k] == GroupOf(d, grants, dashboards) {
        var k :| 0 <= k < |r| && r[k] == GroupOf(d, grants, dashboards);
        assert byName[k] == d;
      }
    }
  }

  /** The groups come in department-name order. */
  lemma GroupingInNameOrder(departments: seq<Department>, grants: seq<Grant>, dashboards: seq<Dashboard>)
    ensures var r := Grouping(departments, grants, dashboards);
            forall i, j :: 0 <= i < j < |r| ==> LexLe(r[i].departmentName, r[j].departmentName)
  {
    var r := Grouping(departments, grants, dashboards);
    var byName := SortBy(departments, DepartmentName);
    forall i, j | 0 <= i < j < |r| ensures LexLe(r[i].departmentName, r[j].departmentName) {
      assert r[i].departmentName == DepartmentName(byName[i]);
      assert r[j].departmentName == DepartmentName(byName[j]);
    }
  }

  /** Each group lists exactly the dashboards granted to its department that exist, in name order,
      and counts them. */
  lemma GroupsHoldTheirGrantedDashboards(departments: seq<Department>, grants: seq<Grant>, dashboards: seq<Dashboard>)
    ensures var r := Grouping(departments, grants, dashboards);
            forall k :: 0 <= k < |r| ==>
              r[k].dashboardCount == |r[k].dashboards| && SortedBy(r[k].dashboards, RowName)
              && forall x :: x in r[k].dashboards <==>
                   exists g :: g in grants && g.departmentId == r[k].departmentId && JoinOf(dashboards, g, x)
  {
    var r := Grouping(departments, grants, dashboards);
    var byName := SortBy(departments, DepartmentName);
    forall k | 0 <= k < |r|
      ensures r[k].dashboardCount == |r[k].dashboards| && SortedBy(r[k].dashboards, RowName)
      ensures forall x :: x in r[k].dashboards <==>
                exists g :: g in grants && g.departmentId == r[k].departmentId && JoinOf(dashboards, g, x)
    {
      assert r[k].dashboards == DashboardsOf(grants, dashboards, byName[k].id);
    }
  }

  /** With the tables' invariants no department appears twice and no group lists a dashboard twice. */
  lemma GroupingHasNoDuplicates(departments: seq<Department>, grants: seq<Grant>, dashboards: seq<Dashboard>)
    requires DepartmentIdsAscending(departments) && GrantPairsUnique(grants)
    ensures var r := Grouping(departments, grants, dashboards);
            (forall i, j :: 0 <= i < j < |r| ==> r[i].departmentId != r[j].departmentId)
            && (forall k :: 0 <= k < |r| ==> DistinctBy(r[k].dashboards, RowId))
  {
    var r := Grouping(departments, grants, dashboards);
    assert DistinctBy(departments, DepartmentId);
    SortByKeepsDistinct(departments, DepartmentName, DepartmentId);
    var byName := SortBy(departments, DepartmentName);
    forall i, j | 0 <= i < j < |r| ensures r[i].departmentId != r[j].departmentId {
      assert r[i].departmentId == DepartmentId(byName[i]) && r[j].departmentId == DepartmentId(byName[j]);
    }
    forall k | 0 <= k < |r| ensures DistinctBy(r[k].dashboards, RowId) {
      var id := r[k].departmentId;
      JoinRowsDistinct(grants, dashboards, id);
      SortByKeepsDistinct(JoinRows(grants, dashboards, id), RowName, RowId);
    }
  }
}
