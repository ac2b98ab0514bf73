/** get_embed_token: the client-credential exchange, the two lookups and the GenerateToken
    call against the BI service, with the upstream answers given as inputs. */
module Embed {
  import opened Common
  import opened Http

  /** What acquire_token_for_client answers. */
  datatype Credential =
    | Granted(accessToken: string)
    | Refused(errorDescription: Option<string>)
    | CredentialRaised(message: string)

  /** A GET against the BI service: a reply with its status and the JSON fields read from it, or an exception. */
  datatype Lookup = Fetched(status: nat, name: Option<string>, embedUrl: Option<string>) | LookupRaised(message: string)

  /** The POST to GenerateToken. */
  datatype Issue = Issued(status: nat, text: string, token: Option<string>) | IssueRaised(message: string)

  /** The answers one call receives, in the order it asks. */
  datatype Upstream = Upstream(credential: Credential, workspace: Lookup, report: Lookup, issue: Issue)

  /** The arguments of get_embed_token; `roles == []` stands for both None and the empty list. */
  datatype EmbedArgs = EmbedArgs(clientId: string, tenantId: string, clientSecret: string,
                                 reportId: string, groupId: string, coreDataset: string,
                                 proxyDataset: string, username: Option<string>, roles: seq<string>)

  datatype DatasetGrant = DatasetGrant(id: string, xmlaPermissions: string)

  datatype EffectiveIdentity = EffectiveIdentity(username: Option<string>, roles: seq<string>, datasets: seq<string>)

  /** The GenerateToken payload; `reports` and `targetWorkspaces` hold the `id` members of their objects. */
  datatype TokenRequest = TokenRequest(datasets: seq<DatasetGrant>, reports: seq<string>,
                                       targetWorkspaces: seq<string>, accessLevel: string,
                                       identities: seq<EffectiveIdentity>)

  /** The five returned values, plus the payload that was posted, if one was. */
  datatype EmbedResult = EmbedResult(token: Option<string>, embedUrl: Option<string>,
                                     workspaceName: Option<string>, reportName: Option<string>,
                                     error: Option<string>, sent: Option<TokenRequest>)

  /** A token route's reply, and the get_embed_token call it made, if it made one. */
  datatype Attempt = Attempt(reply: Reply, call: Option<EmbedArgs>)

  const DefaultRoles: seq<string> := ["RM"]

  /** The datasets of the payload: the core dataset, then the proxy dataset when it is not blank. */
  function DatasetsFor(core: string, proxy: string): (r: seq<DatasetGrant>)
    ensures 1 <= |r| <= 2 && r[0].id == core
    ensures |r| == 2 <==> Strip(proxy) != ""
    ensures |r| == 2 ==> r[1].id == proxy
    ensures forall d :: d in r ==> d.xmlaPermissions == "ReadOnly"
  {
    if proxy != "" && Strip(proxy) != "" then [DatasetGrant(core, "ReadOnly"), DatasetGrant(proxy, "ReadOnly")]
    else [DatasetGrant(core, "ReadOnly")]
  }

  /** The GenerateToken payload for `args`. */
  function TokenPayload(args: EmbedArgs): (p: TokenRequest)
    ensures p.datasets == DatasetsFor(args.coreDataset, args.proxyDataset)
    ensures p.reports == [args.reportId] && p.targetWorkspaces == [args.groupId] && p.accessLevel == "View"
    ensures |p.identities| == 1
    ensures p.identities[0].username == args.username
    ensures p.identities[0].datasets == [args.coreDataset]
    ensures p.identities[0].roles == (if args.roles == [] then DefaultRoles else args.roles)
  {
    TokenRequest(DatasetsFor(args.coreDataset, args.proxyDataset), [args.reportId], [args.groupId], "View",
                 [EffectiveIdentity(args.username, if args.roles != [] then args.roles else DefaultRoles, [args.coreDataset])])
  }

  /** The workspace name: best effort, never a failure. */
  function WorkspaceName(w: Lookup): string {
    if w.Fetched? && w.status == 200 then w.name.GetOr("Unknown Workspace") else "Unknown Workspace"
  }

  function Failure(msg: string, sent: Option<TokenRequest>): EmbedResult {
    EmbedResult(None, None, None, None, Some(msg), sent)
  }

  /** Whether every call that can abort the flow succeeded. */
  predicate Delivers(up: Upstream) {
    up.credential.Granted? && up.report.Fetched? && up.report.status == 200
    && up.issue.Issued? && up.issue.status == 200
  }

  function GetEmbedToken(args: EmbedArgs, up: Upstream): (r: EmbedResult)
    ensures r.error.None? <==> Delivers(up)
    ensures r.error.Some? ==> r.error.value != "" && r.token.None? && r.embedUrl.None?
                              && r.workspaceName.None? && r.reportName.None?
    ensures up.credential.Refused? ==>
              r.error == Some("Error acquiring access token: " + up.credential.errorDescription.GetOr("Unknown error"))
    ensures up.credential.CredentialRaised? ==> r.error == Some("Error: " + up.credential.message)
    ensures up.credential.Granted? && up.report.LookupRaised? ==> r.error == Some("Error: " + up.report.message)
    ensures up.credential.Granted? && up.report.Fetched? && up.report.status != 200 ==>
              r.error == Some("Report not found: " + NatToString(up.report.status))
    ensures up.credential.Granted? && up.report.Fetched? && up.report.status == 200 && up.issue.IssueRaised? ==>
              r.error == Some("Error: " + up.issue.message)
    ensures up.credential.Granted? && up.report.Fetched? && up.report.status == 200 && up.issue.Issued?
            && up.issue.status != 200 ==>
              r.error == Some("Token generation failed: " + up.issue.text)
    ensures r.sent.Some? <==> up.credential.Granted? && up.report.Fetched? && up.report.status == 200
    ensures r.sent.Some? ==> r.sent.value == TokenPayload(args)
    ensures r.error.None? ==> r.workspaceName == Some(WorkspaceName(up.workspace))
                              && r.reportName == Some(up.report.name.GetOr("Unknown Report"))
                              && r.token == up.issue.token && r.embedUrl == up.report.embedUrl
  {
    match up.credential
    case CredentialRaised(m) => Failure("Error: " + m, None)
    case Refused(desc) => Failure("Error acquiring access token: " + desc.GetOr("Unknown error"), None)
    case Granted(_) =>
      match up.report
      case LookupRaised(m) => Failure("Error: " + m, None)
      case Fetched(status, reportName, embedUrl) =>
        if status != 200 then Failure("Report not found: " + NatToString(status), None)
        else
          var payload := TokenPayload(args);
          match up.issue
          case IssueRaised(m) => Failure("Error: " + m, Some(payload))
          case Issued(tokenStatus, text, token) =>
            if tokenStatus != 200 then Failure("Token generation failed: " + text, Some(payload))
            else EmbedResult(token, embedUrl, Some(WorkspaceName(up.workspace)),
                             Some(reportName.GetOr("Unknown Report")), None, Some(payload))
  }

  /** The workspace lookup never decides the outcome: whatever it answers, the error,
      the token, the report name and what is posted stay the same. */
  lemma WorkspaceLookupIsBestEffort(args: EmbedArgs, up: Upstream, w: Lookup)
    ensures var a, b := GetEmbedToken(args, up), GetEmbedToken(args, up.(workspace := w));
            a.error == b.error && a.token == b.token && a.reportName == b.reportName && a.sent == b.sent
  {
  }

  /** Every dataset named in a posted payload is read-only, the single identity is scoped to
      the core dataset, which the payload lists, and it always carries at least one role. */
  lemma PayloadIsReadOnlyAndScoped(args: EmbedArgs, up: Upstream)
    ensures var r := GetEmbedToken(args, up);
            r.sent.Some? ==>
              (forall d :: d in r.sent.value.datasets ==> d.xmlaPermissions == "ReadOnly")
              && |r.sent.value.identities| == 1
              && r.sent.value.identities[0].username == args.username
              && r.sent.value.identities[0].roles != []
              && (forall id :: id in r.sent.value.identities[0].datasets ==>
                    exists d :: d in r.sent.value.datasets && d.id == id)
  {
    var r := GetEmbedToken(args, up);
    if r.sent.Some? {
      var p := r.sent.value;
      assert p.datasets[0].id == args.coreDataset;
      assert p.datasets[0] in p.datasets;
    }
  }
}
