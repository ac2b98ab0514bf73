/** configuration_token of admin_configuration_test.py: an admin-page form that tries an embed
    configuration typed in by hand. */
module AdminConfiguration {
  import opened Common
  import opened Http
  import opened Access
  import opened Embed

  /** The JSON body of the configuration form. */
  datatype ConfigRequest = ConfigRequest(clientId: Field, tenantId: Field, clientSecret: Field,
                                         reportId: Field, groupId: Field, coreDataset: Field,
                                         proxyDataset: Field, username: Field, role: Field)

  /** The six members the form must fill, after trimming. */
  predicate Complete(req: ConfigRequest) {
    Text(req.clientId) != "" && Text(req.tenantId) != "" && Text(req.clientSecret) != ""
    && Text(req.reportId) != "" && Text(req.groupId) != "" && Text(req.coreDataset) != ""
  }

  /** The username placed in the identity block: the form's, else the session's email. */
  function UsernameToUse(req: ConfigRequest, s: Session): (u: Option<string>)
    ensures Text(req.username) != "" ==> u == Some(Text(req.username))
    ensures Text(req.username) == "" ==> u == s.email
  {
    if Text(req.username) != "" then Some(Text(req.username)) else s.email
  }

  /** The roles placed in the identity block: the form's one role, else 'RM'. */
  function RolesToUse(req: ConfigRequest): (roles: seq<string>)
    ensures |roles| == 1 && roles[0] != ""
    ensures Text(req.role) != "" ==> roles == [Text(req.role)]
    ensures Text(req.role) == "" ==> roles == DefaultRoles
  {
    if Text(req.role) != "" then [Text(req.role)] else DefaultRoles
  }

  /** `configuration_token()`, behind `admin_required`. */
  function ConfigurationToken(s: Session, req: ConfigRequest, up: Upstream): (r: Attempt)
    ensures AdminRequired(s) != Admit ==> r == Attempt(AdminRequired(s).AsReply(), None)
    ensures AdminRequired(s) == Admit && !Complete(req) ==>
              r == Attempt(Fail(400, "All required fields must be filled"), None)
    ensures r.call.Some? ==>
              AdminRequired(s) == Admit && Complete(req)
              && r.call.value == EmbedArgs(Text(req.clientId), Text(req.tenantId), Text(req.clientSecret),
                                           Text(req.reportId), Text(req.groupId), Text(req.coreDataset),
                                           Text(req.proxyDataset), UsernameToUse(req, s), RolesToUse(req))
    ensures AdminRequired(s) == Admit && Complete(req) ==> r.call.Some?
    ensures r.call.Some? && !Delivers(up) ==>
              r.reply == Fail(400, GetEmbedToken(r.call.value, up).error.value)
    ensures r.call.Some? && Delivers(up) ==>
              r.reply == Json(200, ConfigIssued(up.issue.token, up.report.embedUrl, Some(WorkspaceName(up.workspace)),
                                                Some(up.report.name.GetOr("Unknown Report")), UsernameToUse(req, s),
                                                RolesToUse(req)[0], "Embed token generated successfully!"))
    ensures Succeeded(r.reply) ==>
              r.call.Some? && Delivers(up) && r.reply.body.ConfigIssued?
              && r.reply.body.usernameUsed == UsernameToUse(req, s)
              && r.reply.body.roleUsed == RolesToUse(req)[0]
  {
    var gate := AdminRequired(s);
    if gate.Refuse? then Attempt(gate.AsReply(), None)
    else if !Complete(req) then Attempt(Fail(400, "All required fields must be filled"), None)
    else
      var username := UsernameToUse(req, s);
      var roles := RolesToUse(req);
      var args := EmbedArgs(Text(req.clientId), Text(req.tenantId), Text(req.clientSecret),
                            Text(req.reportId), Text(req.groupId), Text(req.coreDataset),
                            Text(req.proxyDataset), username, roles);
      var e := GetEmbedToken(args, up);
      if e.error.Some? then Attempt(Fail(400, e.error.value), Some(args))
      else Attempt(Json(200, ConfigIssued(e.token, e.embedUrl, e.workspaceName, e.reportName, username, roles[0],
                                          "Embed token generated successfully!")), Some(args))
  }

  /** The identity block of what the form posts names the chosen username and exactly the chosen role,
      and a proxy dataset is listed only when the form gave one that is not blank. */
  lemma ConfigurationPayload(s: Session, req: ConfigRequest, up: Upstream)
    requires ConfigurationToken(s, req, up).call.Some?
    ensures var p := TokenPayload(ConfigurationToken(s, req, up).call.value);
            p.identities == [EffectiveIdentity(UsernameToUse(req, s), RolesToUse(req), [Text(req.coreDataset)])]
            && (|p.datasets| == 2 <==> Text(req.proxyDataset) != "")
  {
    var args := ConfigurationToken(s, req, up).call.value;
    assert args.proxyDataset == Text(req.proxyDataset) && args.roles == RolesToUse(req);
    var p := TokenPayload(args);
    assert p.identities[0] == EffectiveIdentity(UsernameToUse(req, s), RolesToUse(req), [Text(req.coreDataset)]);
    if req.proxyDataset.Str? {
      StripIdempotent(req.proxyDataset.s);
    } else {
      assert Strip("") == "";
    }
  }
}
