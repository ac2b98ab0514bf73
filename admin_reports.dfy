/** The pure parts of the dashboard routes of admin_reports.py: how the JSON members are
    normalised, the status/alert rule, the required-field check, and the rows the INSERT,
    UPDATE and DELETE statements leave behind. */
module AdminReports {
  import opened Common
  import opened Tables
  import opened Http

  /** The JSON body of add_dashboard and update_dashboard. */
  datatype DashboardRequest = DashboardRequest(name: Field, reportId: Field, groupId: Field, coreDataset: Field,
                                               proxyDataset: Field, description: Field, owner: Field,
                                               status: Field, alert: Field)

  /** The request members after trimming and defaulting, before any check. */
  datatype Normalised = Normalised(name: string, reportId: string, groupId: string, coreDataset: string,
                                   proxyDataset: string, description: string, owner: string,
                                   status: string, alert: string)

  /** The column values an INSERT or UPDATE writes; empty optional members are NULL. */
  datatype DashboardFields = DashboardFields(name: string, reportId: string, groupId: string, coreDataset: string,
                                             proxyDataset: Option<string>, description: Option<string>,
                                             owner: Option<string>, status: string, alert: Option<string>)

  const AlertRequired := Fail(400, "Alert message is required for Inactive dashboards")
  const FieldsRequired := Fail(400, "All required fields must be filled")
  /** What str() of the AttributeError raised by `None.strip()` reads. */
  const NoneHasNoStrip := "'NoneType' object has no attribute 'strip'"

  /** `data.get('status', 'Active') or 'Active'`, then strip(). */
  function AddStatus(f: Field): (r: string)
    ensures !(f.Str? && f.s != "") ==> r == "Active"
    ensures f.Str? && f.s != "" ==> r == Strip(f.s)
  {
    if f.Str? && f.s != "" then Strip(f.s) else "Active"
  }

  /** add_dashboard's normalisation: `data.get(key, '') or ''` then strip() for every member, except the status default. */
  function NormaliseForAdd(req: DashboardRequest): Normalised {
    Normalised(Text(req.name), Text(req.reportId), Text(req.groupId), Text(req.coreDataset),
               Text(req.proxyDataset), Text(req.description), Text(req.owner),
               AddStatus(req.status), Text(req.alert))
  }

  /** update_dashboard's `data.get(key, '').strip()`: None when a member is JSON null (the call raises). */
  function StripMember(f: Field): Option<string> {
    match f
    case Missing => Some("")
    case Null => None
    case Str(s) => Some(Strip(s))
  }

  function NormaliseForUpdate(req: DashboardRequest): Option<Normalised> {
    var name := StripMember(req.name);
    var reportId := StripMember(req.reportId);
    var groupId := StripMember(req.groupId);
    var core := StripMember(req.coreDataset);
    var proxy := StripMember(req.proxyDataset);
    var description := StripMember(req.description);
    var status := StripMember(req.status);
    var owner := StripMember(req.owner);
    var alert := StripMember(req.alert);
    if name.None? || reportId.None? || groupId.None? || core.None? || proxy.None? || description.None?
       || status.None? || owner.None? || alert.None? then None
    else Some(Normalised(name.value, reportId.value, groupId.value, core.value, proxy.value,
                         description.value, owner.value, status.value, alert.value))
  }

  predicate FieldsCoupled(f: DashboardFields) {
    (f.status == "Inactive" ==> f.alert.Some? && f.alert.value != "")
    && (f.status == "Active" ==> f.alert.None?)
  }

  /** The normalised members pass both checks: the alert rule and the required members. */
  predicate Acceptable(n: Normalised, statusRequired: bool) {
    !(n.status == "Inactive" && n.alert == "")
    && n.name != "" && n.reportId != "" && n.groupId != "" && n.coreDataset != ""
    && !(statusRequired && n.status == "")
  }

  /** The checks both routes run on the normalised members: first the alert rule, then the required
      members (the status is required only on update). */
  function Validate(n: Normalised, statusRequired: bool): (r: Result<DashboardFields, Reply>)
    ensures n.status == "Inactive" && n.alert == "" ==> r == Err(AlertRequired)
    ensures (!(n.status == "Inactive" && n.alert == "")
             && (n.name == "" || n.reportId == "" || n.groupId == "" || n.coreDataset == ""
                 || (statusRequired && n.status == ""))) ==> r == Err(FieldsRequired)
    ensures r.Err? ==> r.error == AlertRequired || r.error == FieldsRequired
    ensures r.Ok? <==> Acceptable(n, statusRequired)
    ensures r.Ok? ==> FieldsCoupled(r.value)
    ensures r.Ok? ==> r.value.name == n.name != "" && r.value.reportId == n.reportId != ""
                      && r.value.groupId == n.groupId != "" && r.value.coreDataset == n.coreDataset != ""
                      && r.value.status == n.status
    ensures r.Ok? ==> r.value.proxyDataset == NullIfEmpty(n.proxyDataset)
                      && r.value.description == NullIfEmpty(n.description)
                      && r.value.owner == NullIfEmpty(n.owner)
    ensures r.Ok? && n.status != "Active" ==> r.value.alert == NullIfEmpty(n.alert)
  {
    if n.status == "Inactive" && n.alert == "" then Err(AlertRequired)
    else
      var alert := if n.status == "Active" then "" else n.alert;
      if n.name == "" || n.reportId == "" || n.groupId == "" || n.coreDataset == "" || (statusRequired && n.status == "")
      then Err(FieldsRequired)
      else Ok(DashboardFields(n.name, n.reportId, n.groupId, n.coreDataset, NullIfEmpty(n.proxyDataset),
                              NullIfEmpty(n.description), NullIfEmpty(n.owner), n.status, NullIfEmpty(alert)))
  }

  /** Everything add_dashboard decides before it opens a connection. */
  function CheckAdd(req: DashboardRequest): (r: Result<DashboardFields, Reply>)
    ensures r.Ok? ==> FieldsCoupled(r.value)
    ensures r.Ok? <==> Acceptable(NormaliseForAdd(req), false)
    ensures r.Ok? ==> r.value.status == AddStatus(req.status)
    ensures r.Ok? && !(req.status.Str? && req.status.s != "") ==> r.value.status == "Active" && r.value.alert.None?
    ensures r.Err? ==> r.error == AlertRequired || r.error == FieldsRequired
  {
    Validate(NormaliseForAdd(req), false)
  }

  /** Everything update_dashboard decides before it opens a connection; a JSON null member is a 500. */
  function CheckUpdate(req: DashboardRequest): (r: Result<DashboardFields, Reply>)
    ensures NormaliseForUpdate(req).None? <==> r == Err(Fail(500, NoneHasNoStrip))
    ensures r.Ok? <==> NormaliseForUpdate(req).Some? && Acceptable(NormaliseForUpdate(req).value, true)
    ensures r.Ok? ==> FieldsCoupled(r.value) && r.value.status != ""
  {
    match NormaliseForUpdate(req)
    case None => Err(Fail(500, NoneHasNoStrip))
    case Some(n) => Validate(n, true)
  }

  /** The row an add inserts. */
  function NewDashboard(id: int, f: DashboardFields, createdBy: Option<string>, now: Timestamp): (d: Dashboard)
    ensures FieldsCoupled(f) ==> StatusAlertCoupled(d)
  {
    Dashboard(id, f.name, f.reportId, f.groupId, f.coreDataset, f.proxyDataset, now, createdBy,
              None, None, f.status, f.description, f.owner, f.alert)
  }

  /** An insert with the next identity keeps the table in id order and keeps every row's status/alert coupling. */
  lemma InsertKeepsInvariants(ds: seq<Dashboard>, d: Dashboard)
    requires DashboardIdsAscending(ds) && AllStatusAlertCoupled(ds) && StatusAlertCoupled(d)
    requires forall i :: 0 <= i < |ds| ==> ds[i].id < d.id
    ensures DashboardIdsAscending(ds + [d]) && AllStatusAlertCoupled(ds + [d])
    ensures forall i :: 0 <= i < |ds + [d]| ==> (ds + [d])[i].id < d.id + 1
  {
    var r := ds + [d];
    forall i, j | 0 <= i < j < |r| ensures r[i].id < r[j].id {
      assert r[i] == ds[i];
    }
    forall i | 0 <= i < |r| ensures StatusAlertCoupled(r[i]) {
      if i < |ds| { assert r[i] == ds[i]; }
    }
  }

  /** A row after UPDATE: every written column replaced, the id and the creation columns kept. */
  function Updated(d: Dashboard, f: DashboardFields, updatedBy: Option<string>, now: Timestamp): (e: Dashboard)
    ensures e.id == d.id && e.createdAt == d.createdAt && e.createdBy == d.createdBy
    ensures FieldsCoupled(f) ==> StatusAlertCoupled(e)
  {
    d.(name := f.name, reportId := f.reportId, groupId := f.groupId, coreDatasetId := f.coreDataset,
       proxyDatasetId := f.proxyDataset, description := f.description, status := f.status,
       owner := f.owner, alert := f.alert, updatedBy := updatedBy, updatedAt := Some(now))
  }

  /** `UPDATE Dashboards SET ... WHERE DashboardID = ?` */
  function UpdateRows(ds: seq<Dashboard>, id: int, f: DashboardFields, updatedBy: Option<string>, now: Timestamp): (r: seq<Dashboard>)
    ensures |r| == |ds|
    ensures forall i :: 0 <= i < |ds| ==> r[i] == if ds[i].id == id then Updated(ds[i], f, updatedBy, now) else ds[i]
  {
    seq(|ds|, i requires 0 <= i < |ds| => if ds[i].id == id then Updated(ds[i], f, updatedBy, now) else ds[i])
  }

  /** An update keeps the table in id order, touches no other row, and keeps every row's
      status/alert coupling; when no row has the id the table is unchanged. */
  lemma UpdateRowsKeepsInvariants(ds: seq<Dashboard>, id: int, f: DashboardFields, updatedBy: Option<string>, now: Timestamp)
    requires DashboardIdsAscending(ds) && AllStatusAlertCoupled(ds) && FieldsCoupled(f)
    ensures var r := UpdateRows(ds, id, f, updatedBy, now);
            DashboardIdsAscending(r) && AllStatusAlertCoupled(r)
            && (forall d :: d in r && d.id != id ==> d in ds)
            && ((forall d :: d in ds ==> d.id != id) ==> r == ds)
  {
    var r := UpdateRows(ds, id, f, updatedBy, now);
    forall d | d in r && d.id != id ensures d in ds {
      var k :| 0 <= k < |r| && r[k] == d;
    }
  }

  /** `DELETE FROM Dashboards WHERE DashboardID = ?` */
  function DeleteRows(ds: seq<Dashboard>, id: int): (r: seq<Dashboard>)
    ensures forall d :: d in r <==> d in ds && d.id != id
    ensures |r| <= |ds|
  {
    if |ds| == 0 then [] else (if ds[0].id == id then [] else [ds[0]]) + DeleteRows(ds[1..], id)
  }

  /** A row before a table in id order, with a smaller id than every row of it, keeps the order. */
  lemma ConsKeepsOrder(x: Dashboard, t: seq<Dashboard>)
    requires DashboardIdsAscending(t) && forall y :: y in t ==> x.id < y.id
    ensures DashboardIdsAscending([x] + t)
  {
    var r := [x] + t;
    forall i, j | 0 <= i < j < |r| ensures r[i].id < r[j].id {
      assert r[j] == t[j - 1];
      if i == 0 { assert t[j - 1] in t; } else { assert r[i] == t[i - 1]; }
    }
  }

  /** A delete keeps the table in id order. */
  lemma {:induction false} DeleteRowsKeepsOrder(ds: seq<Dashboard>, id: int)
    requires DashboardIdsAscending(ds)
    ensures DashboardIdsAscending(DeleteRows(ds, id))
  {
    if |ds| > 0 {
      var t := ds[1..];
      assert DashboardIdsAscending(t) by {
        forall i | 0 <= i < |t| ensures t[i] == ds[i + 1] { }
      }
      DeleteRowsKeepsOrder(t, id);
      var rt := DeleteRows(t, id);
      if ds[0].id != id {
        forall y | y in rt ensures ds[0].id < y.id {
          var k :| 0 <= k < |t| && t[k] == y;
          assert ds[k + 1] == y;
        }
        ConsKeepsOrder(ds[0], rt);
      }
    }
  }

  /** A delete keeps the table in id order and keeps every row's status/alert coupling. */
  lemma DeleteRowsKeepsInvariants(ds: seq<Dashboard>, id: int)
    requires DashboardIdsAscending(ds) && AllStatusAlertCoupled(ds)
    ensures DashboardIdsAscending(DeleteRows(ds, id)) && AllStatusAlertCoupled(DeleteRows(ds, id))
  {
    DeleteRowsKeepsOrder(ds, id);
    var r := DeleteRows(ds, id);
    forall i | 0 <= i < |r| ensures StatusAlertCoupled(r[i]) {
      assert r[i] in ds;
      var k :| 0 <= k < |ds| && ds[k] == r[i];
    }
  }
}
