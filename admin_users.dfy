/** The pure parts of update_user_role in admin_users.py: reading and validating the request,
    the UPDATE of one Role column, and the two success messages. */
module AdminUsers {
  import opened Common
  import opened Tables
  import opened Http

  /** The JSON body: `user_id` (None when absent or null) and `new_role`. */
  datatype RoleRequest = RoleRequest(userId: Option<int>, newRole: Field)

  predicate ValidRole(role: string) {
    role == "admin" || role == "superuser" || role == "user"
  }

  /** `data.get('new_role', '').strip().lower()`: None when the member is JSON null, where the call raises. */
  function ReadRole(f: Field): (r: Option<string>)
    ensures r.None? <==> f.Null?
    ensures f.Missing? ==> r == Some("")
    ensures f.Str? ==> r == Some(Lower(Strip(f.s)))
  {
    match f
    case Missing => Some("")
    case Null => None
    case Str(s) => Some(Lower(Strip(s)))
  }

  /** What the exception handler answers when `new_role` is null. */
  const NullRoleFailure := Fail(500, "Error: 'NoneType' object has no attribute 'strip'")

  /** The checks before the connection opens, in source order: new_role is read first (so a null
      new_role fails even without a user id), then user_id must be truthy, then the role valid.
      Ok carries the (user id, role) pair to write. */
  function CheckRoleRequest(req: RoleRequest): (r: Result<(int, string), Reply>)
    ensures req.newRole.Null? ==> r == Err(NullRoleFailure)
    ensures !req.newRole.Null? && !Truthy(req.userId) ==> r == Err(Fail(400, "User ID is required"))
    ensures !req.newRole.Null? && Truthy(req.userId) && !ValidRole(ReadRole(req.newRole).value) ==>
              r == Err(Fail(400, "Invalid role: " + ReadRole(req.newRole).value))
    ensures r.Ok? <==> !req.newRole.Null? && Truthy(req.userId) && ValidRole(ReadRole(req.newRole).value)
    ensures r.Ok? ==> r.value == (req.userId.value, ReadRole(req.newRole).value)
  {
    match ReadRole(req.newRole)
    case None => Err(NullRoleFailure)
    case Some(role) =>
      if !Truthy(req.userId) then Err(Fail(400, "User ID is required"))
      else if !ValidRole(role) then Err(Fail(400, "Invalid role: " + role))
      else Ok((req.userId.value, role))
  }

  /** `UPDATE Users SET Role = ? WHERE UserID = ?` */
  function SetRole(us: seq<User>, id: int, role: string): (r: seq<User>)
    ensures |r| == |us|
    ensures forall i :: 0 <= i < |us| ==> r[i] == if us[i].id == id then us[i].(role := role) else us[i]
  {
    seq(|us|, i requires 0 <= i < |us| => if us[i].id == id then us[i].(role := role) else us[i])
  }

  /** The update changes the Role of that user and nothing else: every other row stays, the id
      order stays, and an id no user has leaves the table as it was. */
  lemma SetRoleChangesOnlyThatRole(us: seq<User>, id: int, role: string)
    requires UserIdsAscending(us)
    ensures var r := SetRole(us, id, role);
            UserIdsAscending(r)
            && (forall u :: u in r && u.id != id ==> u in us)
            && (FindUser(us, id).None? ==> r == us)
  {
    var r := SetRole(us, id, role);
    forall u | u in r && u.id != id ensures u in us {
      var k :| 0 <= k < |r| && r[k] == u;
    }
  }

  /** Re-reading the user after the update finds the row as it was, with the new role. */
  lemma SetRoleThenFindUser(us: seq<User>, id: int, role: string)
    requires UserIdsAscending(us) && FindUser(us, id).Some?
    ensures FindUser(SetRole(us, id, role), id) == Some(FindUser(us, id).value.(role := role))
  {
    var r := SetRole(us, id, role);
    var u := FindUser(us, id).value;
    var k :| 0 <= k < |us| && us[k] == u;
    assert r[k] == u.(role := role);
    assert UserIdsAscending(r);
    FindUserAt(r, k);
  }

  /** The success reply; only a self-update carries the new and the old role. */
  function RoleReply(oldRole: string, newRole: string, isSelf: bool): (r: Reply)
    ensures Succeeded(r) && r.body.RoleUpdated? && r.body.isSelfUpdate == isSelf
    ensures r.body.newAndOldRole.Some? <==> isSelf
    ensures isSelf ==> r.body.newAndOldRole == Some((newRole, oldRole))
  {
    if isSelf then
      Json(200, RoleUpdated("Your role has been updated successfully from " + Upper(oldRole) + " to "
                            + Upper(newRole) + ". Redirecting...", true, Some((newRole, oldRole))))
    else
      Json(200, RoleUpdated("User role updated successfully from " + Upper(oldRole) + " to " + Upper(newRole),
                            false, None))
  }

  /** The verification step after the commit: the role read back must be the one written. */
  function Confirm(reread: Option<User>, newRole: string, oldRole: string, isSelf: bool): (r: Reply)
    ensures Succeeded(r) <==> reread.Some? && reread.value.role == newRole
    ensures !Succeeded(r) ==> r == Fail(500, "Role update failed - please try again")
  {
    if reread.None? || reread.value.role != newRole then Fail(500, "Role update failed - please try again")
    else RoleReply(oldRole, newRole, isSelf)
  }
}
