/** The sign-in callback and the logout of login_logout.py: which answer of the identity provider
    stops the flow with which flashed message, the user lookup by email, the session a login
    writes and the UserLogs rows both routes append. */
module LoginLogout {
  import opened Common
  import opened Tables
  import opened Http
  import opened Access

  /** The query string of /auth/callback; None is an absent parameter. */
  datatype CallbackRequest = CallbackRequest(code: Option<string>, error: Option<string>, errorDescription: Option<string>)

  /** What acquire_token_by_authorization_code answers: a reply, a timeout, or another exception. */
  datatype TokenExchange =
    | ExchangeError(description: Option<string>)
    | NoAccessToken
    | AccessGranted(accessToken: string)
    | ExchangeTimeout
    | ExchangeRaised

  /** The GET of the signed-in user's profile: the status and the `mail` and `userPrincipalName`
      members, a timeout, or another exception. */
  datatype ProfileFetch =
    | Profile(status: nat, mail: Option<string>, userPrincipalName: Field)
    | ProfileTimeout
    | ProfileRaised

  /** Python truthiness of an optional string. */
  predicate Given(v: Option<string>) {
    v.Some? && v.value != ""
  }

  /** How Python formats an optional string into an f-string. */
  function Shown(v: Option<string>): string {
    v.GetOr("None")
  }

  /** `user_data.get('mail') or user_data.get('userPrincipalName', '')`; None is Python's None,
      which a null userPrincipalName gives. */
  function ProfileEmail(mail: Option<string>, upn: Field): (e: Option<string>)
    ensures Given(mail) ==> e == mail
    ensures !Given(mail) ==> (e.None? <==> upn.Null?)
    ensures !Given(mail) && upn.Str? ==> e == Some(upn.s)
    ensures !Given(mail) && upn.Missing? ==> e == Some("")
  {
    if Given(mail) then mail
    else match upn
      case Missing => Some("")
      case Null => None
      case Str(s) => Some(s)
  }

  /** `authenticate_user(email)`: the row whose UserEmail equals the email, or None when there is
      none, when the email is None (NULL matches nothing) or when the connection fails. */
  function AuthenticateUser(users: seq<User>, email: Option<string>, db: bool): (r: Option<User>)
    ensures r.Some? ==> db && email.Some? && r.value in users && r.value.email == email.value
    ensures r.None? && db && email.Some? ==> forall u :: u in users ==> u.email != email.value
    ensures !db || email.None? ==> r.None?
  {
    if !db || email.None? then None else FindUserByEmail(users, email.value)
  }

  /** The steps of the callback before the user lookup, in source order: Err is the flashed
      message of the redirect back to the login page, Ok the email to look up. */
  function Identify(cb: CallbackRequest, exchange: TokenExchange, profile: ProfileFetch): (r: Result<Option<string>, string>)
    ensures Given(cb.error) ==> r == Err("Azure AD Error: " + Shown(cb.errorDescription))
    ensures !Given(cb.error) && !Given(cb.code) ==> r == Err("No authorization code received")
    ensures !Given(cb.error) && Given(cb.code) && exchange.ExchangeError? ==>
              r == Err("Authentication Error: " + exchange.description.GetOr("Unknown"))
    ensures !Given(cb.error) && Given(cb.code) && exchange.NoAccessToken? ==> r == Err("No access token received")
    ensures !Given(cb.error) && Given(cb.code) && exchange.ExchangeTimeout? ==> r == Err("Request timeout - please try again")
    ensures !Given(cb.error) && Given(cb.code) && exchange.ExchangeRaised? ==> r == Err("Authentication failed")
    ensures !Given(cb.error) && Given(cb.code) && exchange.AccessGranted? ==>
              (profile.ProfileTimeout? ==> r == Err("Request timeout - please try again"))
              && (profile.ProfileRaised? ==> r == Err("Authentication failed"))
              && (profile.Profile? && profile.status != 200 ==> r == Err("Failed to fetch user information"))
    ensures r.Ok? <==> !Given(cb.error) && Given(cb.code) && exchange.AccessGranted?
                       && profile.Profile? && profile.status == 200
    ensures r.Ok? ==> r.value == ProfileEmail(profile.mail, profile.userPrincipalName)
  {
    if Given(cb.error) then Err("Azure AD Error: " + Shown(cb.errorDescription))
    else if !Given(cb.code) then Err("No authorization code received")
    else match exchange
      case ExchangeError(desc) => Err("Authentication Error: " + desc.GetOr("Unknown"))
      case NoAccessToken => Err("No access token received")
      case ExchangeTimeout => Err("Request timeout - please try again")
      case ExchangeRaised => Err("Authentication failed")
      case AccessGranted(_) =>
        match profile
        case ProfileTimeout => Err("Request timeout - please try again")
        case ProfileRaised => Err("Authentication failed")
        case Profile(status, mail, upn) =>
          if status != 200 then Err("Failed to fetch user information") else Ok(ProfileEmail(mail, upn))
  }

  /** The six session entries a login writes from the user row. */
  function SessionFor(u: User): (s: Session)
    ensures s.userId == Some(u.id) && s.email == Some(u.email) && s.username == Some(u.name)
    ensures s.role == Some(u.role) && s.departmentId == Some(u.departmentId)
    ensures s.departmentName == Some(u.departmentName)
  {
    Session(Some(u.id), Some(u.email), Some(u.name), Some(u.role), Some(u.departmentId), Some(u.departmentName))
  }

  /** A route's effect on the client: its reply, the session afterwards, and the UserLogs rows it appends. */
  datatype Outcome = Outcome(reply: Reply, session: Session, appended: seq<LogEntry>)

  /** `insert_user_log`: one row when its own connection opens, none otherwise. */
  function LogRow(userId: int, userName: string, userEmail: string, action: Action, logConn: bool, now: Timestamp): (r: seq<LogEntry>)
    ensures |r| <= 1 && (|r| == 1 <==> logConn)
    ensures logConn ==> r == [LogEntry(userId, userName, userEmail, action, now)]
  {
    if logConn then [LogEntry(userId, userName, userEmail, action, now)] else []
  }

  /** `auth_callback()`: `db` is whether authenticate_user's connection opens, `logConn` whether
      insert_user_log's does. */
  function AuthCallback(users: seq<User>, s: Session, cb: CallbackRequest, exchange: TokenExchange,
                        profile: ProfileFetch, db: bool, logConn: bool, now: Timestamp): (r: Outcome)
    ensures Identify(cb, exchange, profile).Err? ==>
              r == Outcome(Redirect(LoginPage, Identify(cb, exchange, profile).error), s, [])
    ensures Identify(cb, exchange, profile).Ok? ==>
              var email := Identify(cb, exchange, profile).value;
              match AuthenticateUser(users, email, db)
              case None =>
                r == Outcome(Redirect(LoginPage, "Email " + Shown(email) + " is not registered in the system."), s, [])
              case Some(u) =>
                r == Outcome(Redirect(UserDashboardPage, "Welcome " + u.name + "!"), SessionFor(u),
                             LogRow(u.id, u.name, u.email, Login, logConn, now))
  {
    match Identify(cb, exchange, profile)
    case Err(msg) => Outcome(Redirect(LoginPage, msg), s, [])
    case Ok(email) =>
      match AuthenticateUser(users, email, db)
      case None => Outcome(Redirect(LoginPage, "Email " + Shown(email) + " is not registered in the system."), s, [])
      case Some(u) =>
        Outcome(Redirect(UserDashboardPage, "Welcome " + u.name + "!"), SessionFor(u),
                LogRow(u.id, u.name, u.email, Login, logConn, now))
  }

  /** `logout()`: a Logout row when the session names the user, then the session is cleared. */
  function Logout(s: Session, logConn: bool, now: Timestamp): (r: Outcome)
    ensures r.session == Anonymous && r.reply == Redirect(LoginPage, "You have been logged out")
    ensures r.appended != [] <==> s.userId.Some? && s.username.Some? && s.email.Some? && logConn
    ensures r.appended != [] ==> r.appended == [LogEntry(s.userId.value, s.username.value, s.email.value, Tables.Logout, now)]
  {
    var appended := if s.userId.Some? && s.username.Some? && s.email.Some?
                    then LogRow(s.userId.value, s.username.value, s.email.value, Tables.Logout, logConn, now)
                    else [];
    Outcome(Redirect(LoginPage, "You have been logged out"), Anonymous, appended)
  }

  /** Only a registered email signs in: the callback changes the session or logs a row only when it
      found that user, and then the session names that user and the row is that user's Login. */
  lemma SignInOnlyForRegisteredUser(users: seq<User>, s: Session, cb: CallbackRequest, exchange: TokenExchange,
                                    profile: ProfileFetch, db: bool, logConn: bool, now: Timestamp)
    ensures var r := AuthCallback(users, s, cb, exchange, profile, db, logConn, now);
            (r.session != s || r.appended != []) ==>
              exists u :: u in users && r.session == SessionFor(u)
                          && Identify(cb, exchange, profile) == Ok(Some(u.email))
                          && (r.appended == [] || r.appended == [LogEntry(u.id, u.name, u.email, Login, now)])
  {
    var r := AuthCallback(users, s, cb, exchange, profile, db, logConn, now);
    if r.session != s || r.appended != [] {
      var u := AuthenticateUser(users, Identify(cb, exchange, profile).value, db).value;
      assert u in users && r.session == SessionFor(u);
    }
  }

  /** The session a login writes passes the three gates exactly as the user's Role says: any
      user is logged in, admin and superuser reach the admin pages, only admin reaches a write. */
  lemma LoginSessionGates(u: User)
    ensures LoginRequired(SessionFor(u)) == Admit
    ensures AdminRequired(SessionFor(u)) == Admit <==> u.role == "admin" || u.role == "superuser"
    ensures AdminWriteRequired(SessionFor(u)) == Admit <==> u.role == "admin"
  {
  }

  /** After a logout no route behind a decorator runs, whatever the session was. */
  lemma LogoutEndsAccess(s: Session, logConn: bool, now: Timestamp)
    ensures var t := Logout(s, logConn, now).session;
            LoginRequired(t) != Admit && AdminRequired(t) != Admit && AdminWriteRequired(t) != Admit
  {
  }
}
