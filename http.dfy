/** What a route hands back to the browser: a redirect with a flashed message, or a JSON
    object with its HTTP status code. */
module Http {
  import opened Common

  datatype Page = LoginPage | UserDashboardPage | AdminDashboardPage

  /** The JSON bodies the routes produce; every body but `Failed` has `'success': True`. */
  datatype Body =
    | Failed(error: string)
    | Done(message: string)
    | ReportIssued(token: Option<string>, embedUrl: Option<string>, reportId: string,
                   workspaceName: Option<string>, reportName: Option<string>,
                   dashboardName: string, message: string)
    | ConfigIssued(token: Option<string>, embedUrl: Option<string>, workspaceName: Option<string>,
                   reportName: Option<string>, usernameUsed: Option<string>, roleUsed: string,
                   message: string)
      /** `newAndOldRole` is present exactly on a self-update. */
    | RoleUpdated(message: string, isSelfUpdate: bool, newAndOldRole: Option<(string, string)>)

  datatype Reply = Redirect(to: Page, flash: string) | Json(code: nat, body: Body)

  function Fail(code: nat, error: string): Reply {
    Json(code, Failed(error))
  }

  predicate Succeeded(r: Reply) {
    r.Json? && r.code == 200 && !r.body.Failed?
  }
}
