# BI insights portal — a Dafny model of its access policy and administration routes

The portal is a Flask web application in front of a reporting database and the Power BI
service. Users sign in through the organisation's identity provider. Their email is looked up
in the `Users` table, and the row's role (`admin`, `superuser` or `user`) and department are
written into the session. The portal then shows each user the dashboards they may open and
issues embed tokens for them. A non-privileged user sees the dashboards granted to their
department in `DepartmentDashboards`, and may open only the `Active` ones. An admin
maintains the `Dashboards` table, the grants and users' roles; a superuser may see all of this
but change none of it.

The model keeps the portal's own structure:

- `Common`: option and result values, a JSON member (`Field`: absent, null or a string), and
  Python's `strip`, `lower` and `upper`.
- `Tables`: the rows of `Users`, `Departments`, `Dashboards`, `DepartmentDashboards` and
  `UserLogs`, the key lookups (`SELECT ... WHERE key = ?` followed by `fetchone()`) and the
  tables' invariants.
- `Http`: the replies: a redirect with a flashed message, or a JSON body with its status code.
- `Access`: the session and the three decorators `login_required`, `admin_required` and
  `admin_write_required`.
- `Embed`: `get_embed_token`. The answers of the identity provider and of the Power BI service
  are inputs.
- `AdminConfiguration`: `configuration_token`.
- `AdminReports`, `AdminPermissions`, `AdminUsers`, `AdminDepartments`, `LoginLogout` and
  `UserInterface`: the pure decisions of each route, one module per source file.
- `Store`: class `Portal`, which holds the tables as sequences in identity order. Its listing
  methods copy query results in loops, as the handlers do. Its mutating methods run a route's
  decorator, then its checks, then its statement, and they keep the tables' invariant `Valid()`.

Whether a database connection opens is a boolean argument of each operation that opens one.
`GETDATE()` is a `Timestamp` argument. Identity columns are counters in `Portal`.

## Model

| member | source | states |
|---|---|---|
| Common.StripEmptyIffBlank | admin_reports.py:113-114 | a trimmed member is empty exactly when the input was all whitespace, so the required-field check rejects blank members |
| Common.TextEmptyIffBlank | admin_reports.py:67-95 | a member read with `or ''` and trimmed is empty exactly when it is absent, null or all whitespace |
| Common.StripIdempotent | embed_token_url.py:67 | trimming an already trimmed value changes nothing |
| Access.LoginRequired | login_logout.py:80-90 | the handler runs iff `user_id` is in the session; otherwise a redirect to the login page with "Please login first" |
| Access.AdminRequired | login_logout.py:93-106 | admits exactly logged-in admin and superuser sessions; others go to the login page or to the user dashboard with their messages |
| Access.AdminWriteRequired | login_logout.py:109-123 | admits only logged-in admin sessions; a superuser goes to the admin dashboard, anyone else to the user dashboard |
| Access.GatesFollowCapabilities | login_logout.py:86-121 | each decorator admits exactly the logged-in sessions whose role holds its capability (view granted, view all, administer) |
| Access.WriteImpliesRead | login_logout.py:99-121 | write admission implies admin admission, which implies login; a superuser is never admitted to a write but is admitted to reads |
| Tables.FindUser | user_interface.py:103-109 | the row found has the id and is in the table; None means no row has the id |
| Tables.FindUserAt | Backend/admin_backend/admin_users.py:89-91 | in a table in id order, looking up a row's id finds that row |
| Tables.FindUserByEmail | login_logout.py:53-60 | the row found has exactly that email; None means no row has it |
| Tables.FindDepartment | Backend/admin_backend/admin_permissions.py:80-82 | the row found has the id; None means no row has it |
| Tables.FindDashboard | user_interface.py:172-180 | the row found has the id; None means no row has it |
| Tables.FindDashboardAt | user_interface.py:172-180 | in a table in id order, looking up a row's id finds that row |
| Tables.GrantCount | Backend/admin_backend/admin_permissions.py:72-74 | the COUNT(*) is 0 exactly when no grant row joins the department to the dashboard |
| Tables.GrantCountAtMostOne | Backend/admin_backend/admin_permissions.py:72-78 | while grant pairs are unique the count is 0 or 1 |
| Embed.DatasetsFor | embed_token_url.py:66-68 | the core dataset comes first; the proxy dataset is second exactly when it is non-blank after trimming; every entry is ReadOnly |
| Embed.TokenPayload | embed_token_url.py:70-84 | reports [report_id], targetWorkspaces [group_id], accessLevel View, and one identity with the username, roles defaulting to ['RM'] and datasets [core] |
| Embed.GetEmbedToken | embed_token_url.py:18-99 | no error exactly when the credential, the report lookup and GenerateToken all succeed; every failure has a non-empty error and no other values; the exact message of each failure: "Error acquiring access token: …" for a refused credential, "Report not found: <status>" for a non-200 report lookup, "Token generation failed: <text>" for a non-200 GenerateToken, and "Error: <exception>" for a raised credential, report or token call; a payload is posted exactly after a successful report lookup |
| Embed.WorkspaceLookupIsBestEffort | embed_token_url.py:48-56 | whatever the workspace lookup answers, the error, the token, the report name and the posted payload do not change |
| Embed.PayloadIsReadOnlyAndScoped | embed_token_url.py:66-84 | every posted dataset is ReadOnly; the one identity carries the username and at least one role, and its datasets are listed in the payload |
| AdminConfiguration.UsernameToUse | admin_configuration_test.py:61 | the form's trimmed username when non-empty, otherwise the session email |
| AdminConfiguration.RolesToUse | admin_configuration_test.py:63 | exactly one non-empty role: the form's when given, otherwise 'RM' |
| AdminConfiguration.ConfigurationToken | admin_configuration_test.py:11-92 | the decorator's redirect; 400 and no call when a required member is blank; otherwise one call with the trimmed members, the chosen username and roles; an upstream error becomes 400 with its text; success is 200 with the upstream token, embed URL, workspace and report names and the username and first role used |
| AdminConfiguration.ConfigurationPayload | admin_configuration_test.py:44-75 | the posted identity names the chosen username and exactly the chosen role; the proxy dataset is posted exactly when the form gave a non-blank one |
| AdminPermissions.CheckGrant | Backend/admin_backend/admin_permissions.py:60-78 | in order: 400 when either id is falsy, 500 without a connection, 400 "Permission already exists" for an existing pair; Ok exactly when both ids are truthy, the connection opens and the pair is new |
| AdminPermissions.NewGrant | Backend/admin_backend/admin_permissions.py:80-102 | the inserted row has the ids, GrantedBy and GrantedAt; each name is the referenced row's, or 'Unknown' when that row is absent |
| AdminPermissions.RemoveGrant | Backend/admin_backend/admin_permissions.py:126-127 | the rows left are exactly those with another DepartmentDashboardID |
| AdminPermissions.RemoveGrantKeepsInvariants | Backend/admin_backend/admin_permissions.py:126-129 | a revoke keeps the id order and the pair uniqueness |
| AdminPermissions.InsertKeepsPairsUnique | Backend/admin_backend/admin_permissions.py:72-102 | an insert that passed the duplicate check keeps (DepartmentID, DashboardID) unique |
| AdminPermissions.SecondGrantIsDuplicate | Backend/admin_backend/admin_permissions.py:72-78 | after a grant, the same request is rejected as a duplicate |
| AdminReports.AddStatus | admin_reports.py:97-99 | an absent, null or empty status becomes 'Active'; otherwise the trimmed status |
| AdminReports.Validate | admin_reports.py:105-114 | Inactive with an empty alert is 400 before the required-field 400; Ok exactly when both checks pass; on success the fields are coupled, optional empties are NULL and Active clears the alert |
| AdminReports.CheckAdd | admin_reports.py:67-114 | Ok exactly when the normalised request passes the alert rule and the required members; on success status and alert are coupled and the status is the defaulted one; a missing status gives Active with no alert; errors are the two 400s |
| AdminReports.CheckUpdate | admin_reports.py:159-177 | a JSON null member gives the 500 of the failed strip(); Ok exactly when no member is null and the stripped members pass the alert rule and the required members, status included; on success the fields are coupled and the status is non-empty |
| AdminReports.NewDashboard | admin_reports.py:122-139 | the inserted row keeps the status/alert coupling of the checked fields |
| AdminReports.InsertKeepsInvariants | admin_reports.py:122-141 | inserting with the next identity keeps id order and every row's coupling, and all ids stay below the next |
| AdminReports.Updated | admin_reports.py:185-204 | the updated row keeps its id and creation columns and is coupled when the fields are |
| AdminReports.UpdateRows | admin_reports.py:185-204 | the row with the id is replaced by its updated form; every other row stays |
| AdminReports.UpdateRowsKeepsInvariants | admin_reports.py:185-209 | an update keeps id order and coupling, adds no row with another id, and leaves the table unchanged when no row matches |
| AdminReports.DeleteRows | admin_reports.py:228-229 | the rows left are exactly those with another DashboardID |
| AdminReports.DeleteRowsKeepsOrder | admin_reports.py:228-229 | a delete keeps the id order |
| AdminReports.DeleteRowsKeepsInvariants | admin_reports.py:228-232 | a delete keeps the id order and every row's coupling |
| AdminUsers.ReadRole | Backend/admin_backend/admin_users.py:74 | a null new_role fails; an absent one reads ''; a string is trimmed and lower-cased |
| AdminUsers.CheckRoleRequest | Backend/admin_backend/admin_users.py:71-81 | a null new_role is the 500 first; then a falsy user_id is 400; then a role outside {admin, superuser, user} is 400 naming it; Ok iff all pass |
| AdminUsers.SetRole | Backend/admin_backend/admin_users.py:101-102 | the row with the id gets the new Role; every other row stays |
| AdminUsers.SetRoleChangesOnlyThatRole | Backend/admin_backend/admin_users.py:101-104 | the update keeps id order, adds no other row, and changes nothing when no user has the id |
| AdminUsers.SetRoleThenFindUser | Backend/admin_backend/admin_users.py:106-108 | re-reading the user finds the same row with the new role |
| AdminUsers.RoleReply | Backend/admin_backend/admin_users.py:118-131 | a success whose self flag is the given one; only the self reply carries the new and old role |
| AdminUsers.Confirm | Backend/admin_backend/admin_users.py:106-114 | success iff the re-read row exists with the new role; otherwise 500 "Role update failed - please try again" |
| LoginLogout.ProfileEmail | login_logout.py:193 | `mail` when truthy; otherwise `userPrincipalName`, '' when absent, None when null |
| LoginLogout.AuthenticateUser | login_logout.py:39-77 | the user found has exactly that email; None when none has it, when the email is None or without a connection |
| LoginLogout.Identify | login_logout.py:149-221 | the flashed message of each early exit in source order: the provider's error, a missing code, the exchange's error, no access token, a raised exchange or profile request, a timeout, a non-200 profile; the flow reaches the lookup iff none applies, with the profile email |
| LoginLogout.SessionFor | login_logout.py:198-203 | the six session entries are the user row's columns |
| LoginLogout.LogRow | Backend/DB_backend/db_connection.py:42-68 | one UserLogs row with the given values when the log connection opens, none otherwise |
| LoginLogout.AuthCallback | login_logout.py:145-221 | an early exit keeps the session; an unregistered email flashes "Email ... is not registered in the system." and keeps the session; a found user gets the six entries, one Login row when the log connection opens and the welcome redirect |
| LoginLogout.Logout | login_logout.py:224-233 | always clears the session and redirects with "You have been logged out"; a Logout row exactly when `user_id`, `username` and `email` are present and the log connection opens |
| LoginLogout.SignInOnlyForRegisteredUser | login_logout.py:195-213 | the session changes or a row is logged only when the email belongs to a user, and then both are that user's |
| LoginLogout.LoginSessionGates | login_logout.py:198-203 | the session of a login passes each decorator exactly as the user's Role allows |
| LoginLogout.LogoutEndsAccess | login_logout.py:231 | after a logout no decorator admits the session |
| AdminDepartments.SortBy | Backend/admin_backend/admin_departments.py:52-56 | ORDER BY a name gives a permutation of the rows in name order |
| AdminDepartments.JoinRows | Backend/admin_backend/admin_departments.py:68-75 | a row is in the join iff a grant row of the department names an existing dashboard and the row combines the two |
| AdminDepartments.JoinRowsDistinct | Backend/admin_backend/admin_departments.py:69 | while grant pairs are unique no dashboard appears twice, so DISTINCT drops nothing |
| AdminDepartments.DashboardsOf | Backend/admin_backend/admin_departments.py:68-78 | exactly the joined rows of the department, in name order |
| AdminDepartments.GroupingCoversDepartments | Backend/admin_backend/admin_departments.py:52-100 | one group per department, including those without grants; each department's group appears and nothing else |
| AdminDepartments.GroupingInNameOrder | Backend/admin_backend/admin_departments.py:52-59 | the groups are in DepartmentName order |
| AdminDepartments.GroupsHoldTheirGrantedDashboards | Backend/admin_backend/admin_departments.py:68-100 | each group lists exactly its department's granted dashboards in name order, and DashboardCount is their number |
| AdminDepartments.GroupingHasNoDuplicates | Backend/admin_backend/admin_departments.py:61-100 | no department appears twice and no group lists a dashboard twice |
| UserInterface.DashboardById | user_interface.py:161-204 | the row with the id when the connection opens; None without a connection or when no row has it |
| UserInterface.SessionGrantCount | user_interface.py:252-264 | the count is non-zero iff the session's department holds a grant for the dashboard |
| UserInterface.UserReportToken | user_interface.py:234-310 | in order: login redirect, 404 for a missing dashboard or a failed lookup connection, 400 for a non-Active one and 500 without the grant connection (non-privileged), 403 without a grant (non-privileged), 400 "Invalid dashboard configuration"; past the guards the call is made exactly when the configuration is filled, with the row's ids, '' for a NULL proxy, the session email and ['RM']; an upstream error is 400 with its text; success is 200 with the upstream token and embed URL, the workspace and report names, the row's report id and name, and implies the access policy held |
| UserInterface.AllowedAndDeliveredSucceeds | user_interface.py:243-306 | when the policy allows the session, the dashboard is configured and upstream succeeds, a token is issued |
| UserInterface.PrivilegedIgnoresGrantsAndStatus | user_interface.py:248-268 | a privileged session reaches the call for any found, configured dashboard; the grants and their connection make no difference |
| UserInterface.RevocationTakesEffect | user_interface.py:252-268 | after the department's grant row is deleted, a non-privileged session gets no credential, and 403 for an Active dashboard |
| UserInterface.GrantOpensAccessForThatDepartmentOnly | user_interface.py:252-268 | after a grant, a user of that department gets a token and a user of another department without a grant gets 403 |
| UserInterface.ListingMatchesTokenPolicy | user_interface.py:103-131 | with a session written from the user's row, a token may be issued for exactly the listed dashboards, less the inactive ones for a non-privileged user |
| UserInterface.StaleSessionKeepsPrivilege | user_interface.py:248-253 | after an admin is demoted, the listing drops an ungranted dashboard at once, while the old session still reaches the token call |
| Store.CollectRows | Backend/admin_backend/admin_departments.py:80-92 | the loop appends every fetched row, in order |
| Store.GroupDepartments | Backend/admin_backend/admin_departments.py:61-100 | the outer loop builds one group per department, in the order given |
| Store.Portal.GetAllDashboards | admin_reports.py:8-52 | [] without a connection; otherwise exactly the table's rows, by DashboardID descending |
| Store.Portal.GetDepartmentPermissions | Backend/admin_backend/admin_permissions.py:8-45 | [] without a connection; otherwise exactly the grant rows, by DepartmentDashboardID descending |
| Store.Portal.GetAllUsers | Backend/admin_backend/admin_users.py:8-44 | [] without a connection; otherwise exactly the users, by UserID descending |
| Store.Portal.GetAllDepartments | Backend/admin_backend/admin_departments.py:5-37 | [] without a connection; otherwise exactly the departments, by DepartmentID descending |
| Store.Portal.GetUserAccessibleDashboards | user_interface.py:92-158 | [] without a connection or for an unknown user; otherwise exactly the rows the DB role and department allow, each once, by DashboardID descending |
| Store.Portal.GetDepartmentsWithDashboards | Backend/admin_backend/admin_departments.py:40-107 | [] without a connection; otherwise the grouping of departments with their granted dashboards |
| Store.Portal.AddDashboard | admin_reports.py:58-148 | the decorator's redirect, a check's 400 or the connection 500 leave the table unchanged; success appends exactly one row with the next id, the checked fields and CreatedBy the session username |
| Store.Portal.InsertDashboard | admin_reports.py:122-141 | the INSERT appends the row and advances the identity, keeping `Valid()` |
| Store.Portal.UpdateDashboard | admin_reports.py:150-213 | the redirect, a check's error or the connection 500 leave the table unchanged; otherwise the UPDATE's table and success, even when no row matches |
| Store.Portal.DeleteDashboard | admin_reports.py:215-238 | the redirect or the connection 500 leave the table unchanged; otherwise the DELETE's table and success, even when no row matches |
| Store.Portal.GrantPermission | Backend/admin_backend/admin_permissions.py:51-111 | the table changes iff the write is admitted and the checks pass, and then gains exactly the new row with the next id; otherwise the check's error |
| Store.Portal.InsertGrant | Backend/admin_backend/admin_permissions.py:90-104 | the INSERT appends the row and advances the identity, keeping `Valid()` |
| Store.Portal.RevokePermission | Backend/admin_backend/admin_permissions.py:113-136 | the redirect or the connection 500 leave the table unchanged; otherwise the DELETE's table and success, even when no row matches |
| Store.Portal.UpdateUserRole | Backend/admin_backend/admin_users.py:64-137 | each early error leaves Users unchanged, including 404 "User not found"; otherwise only that user's Role changes and the reply is the role message with the self flag |
| Store.Portal.WriteRole | Backend/admin_backend/admin_users.py:101-108 | the UPDATE sets the Role, and re-reading the user finds the row with the new role |
| Store.Portal.AuthCallback | login_logout.py:144-221 | the reply and session of the callback; UserLogs gains exactly the rows it logs; no other table changes |
| Store.Portal.Logout | login_logout.py:223-233 | the reply and the cleared session; UserLogs gains exactly the Logout row, if any |

## Left out

- Flask plumbing is not modelled: routing, templates, `flash` categories, `url_for` and JSON serialisation. A reply is a page with its message, or a status code with a body.
- The identity provider, the Graph profile request and the Power BI REST calls are inputs with their possible answers (`TokenExchange`, `ProfileFetch`, `Upstream`), not network behaviour.
- JSON members that are neither absent, null nor strings (numbers, lists) are not modelled; the `isinstance` checks then have nothing to decide. A null or absent request body, where `request.get_json()` yields None, is also left out.
- Exceptions raised inside SQL statements (constraint violations, lost connections mid-route) are left out; only a connection that does not open is modelled.
- Common.Lower, Common.Upper: ASCII letters only; Python's Unicode case mapping is not modelled.
- AdminDepartments.SortBy: names are compared code point by code point, not by the database collation; the order of equal names is not specified.
- LoginLogout.AuthenticateUser: the email comparison is exact equality; a case-insensitive collation is not modelled.
- NULL values in the Users and Departments columns are not modelled; for the one nullable column the callback reads, `userPrincipalName`, None is kept.
- Store.Portal.UpdateUserRole: the re-read runs in the same sequential model, so it always confirms the write; the 500 "Role update failed" branch is reachable only through `AdminUsers.Confirm`, with a row that another writer changed in between.
- `session.permanent` and cookie lifetime are not modelled.
- The `login()` route is left out: it only redirects to the provider's sign-in URL.
- `get_user_department_info`, `get_users_by_department` and `api_department_users` are left out: they are not part of this model's core.
- `get_db_connection`, `close_db_connection` and the connection string are left out; each opened connection is a boolean input.
- `app.py` (its `admin_report_token` repeats the privileged branch of the token route) and `admin_overview.py` (plain counts and a log listing) are not part of this model.
- Store.Portal.DeleteDashboard: grant rows that refer to the deleted dashboard stay; the foreign-key behaviour of the database is not visible in the code.
- Embed.GetEmbedToken: a `name` member that is JSON null, for which `.get('name', 'Unknown Report')` yields None, reads like an absent one, as 'Unknown Report' (and 'Unknown Workspace'); `Lookup.name` does not tell the two apart.
- LoginLogout.Identify, Embed.GetEmbedToken: an `error_description` that is JSON null, which Python prints as "None", reads like an absent one, as "Unknown" or "Unknown error"; the optional description does not tell the two apart.
- The id members `user_id`, `department_id` and `dashboard_id` are integers or absent/null only; a string id, which the database driver would convert or reject, is not modelled.
