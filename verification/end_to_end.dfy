/** The browser components talking to the server, through the model of axios below. Two facts
    here are mismatches between the files: the register form only submits for admins but posts to
    the employee-only route, and it offers a role that route refuses. */
module EndToEnd {
  import opened Wrappers
  import opened Libraries
  import opened Accounts
  import opened Http
  import opened Auth
  import opened Server
  import opened ServerProps
  import opened RegisterForm
  import opened LoginPage
  import opened Bearer

  /** The JSON `message` of a response, if it has one. */
  function MessageOf(resp: Response): Option<string>
  {
    if resp.payload.Message? then Some(resp.payload.text) else None
  }

  /** axios for the register component: a 2xx status resolves, anything else rejects with the
      response attached. */
  function DeliverToRegister(resp: Response): PostResult
  {
    if 200 <= resp.status < 300 then Answered(resp.status)
    else Rejected(Some(ErrorResponse(Some(ErrorData(MessageOf(resp))))))
  }

  /** axios for the login component. */
  function DeliverToLogin(resp: Response): LoginResult
  {
    if 200 <= resp.status < 300 then
      if resp.payload.LoggedIn? then Resolved(LoginData(Some(resp.payload.token), Some(resp.payload.role)))
      else Resolved(LoginData(None, None))
    else ServerError(MessageOf(resp))
  }

  /** The page each stored role lands on after logging in. */
  function Dashboard(r: Role): string
  {
    match r
    case Admin => "/admin-dashboard"
    case Employee => "/employee-dashboard"
    case User => "/create"
  }

  /** The register form submits only for a token that decodes to role "admin", and then posts to
      the route only employees may use: the server answers 403 (or 401 when the token does not
      verify), stores nothing, and the form shows the server's message. A token the server
      verifies is assumed to carry the claims the browser decodes from it, and the starting form
      has no admin flag, so the flag can only come from decoding the token. */
  lemma AdminSubmissionIsRejected(libs: Libs, db: Db, form0: Form, t: string)
    requires WellFormed(db)
    requires !form0.isAdmin
    requires ' ' !in t
    requires libs.verify(t).None? || libs.verify(t) == libs.decode(t)
    requires HandleSubmit(CheckSession(libs, Some(t), form0), Some(t)).Posted?
    ensures var sub := HandleSubmit(CheckSession(libs, Some(t), form0), Some(t));
      var out := EmployeeCreateUser(libs, db, Request(Some(sub.authorization), sub.body));
      && sub.path == CreateUserPath
      && out.db == db
      && (libs.verify(t).None? ==> out.resp == InvalidToken)
      && (libs.verify(t).Some? ==> out.resp == PermissionDenied)
      && OnResponse(sub.form, DeliverToRegister(out.resp)).error in {"Invalid token.", "Permission denied"}
      && OnResponse(sub.form, DeliverToRegister(out.resp)).success == ""
  {
    var form := CheckSession(libs, Some(t), form0);
    var sub := HandleSubmit(form, Some(t));
    assert form.isAdmin;
    assert libs.decode(t).Some? && libs.decode(t).value.role == Some("admin");
    assert sub.authorization == BearerHeader(t);
    AuthorizationCarriesToken(t);
  }

  /** The header the register form sends carries its stored token to the server unchanged, as
      long as the token has no space (a JWT has none); with no token stored, the server reads
      the word "null". */
  lemma AuthorizationCarriesToken(t: string)
    requires ' ' !in t
    ensures IsBearer(Some(AuthorizationFor(Some(t)))) && TokenOf(AuthorizationFor(Some(t))) == t
    ensures IsBearer(Some(AuthorizationFor(None))) && TokenOf(AuthorizationFor(None)) == "null"
  {
    assert AuthorizationFor(Some(t))[|BearerPrefix|..] == t;
    assert AuthorizationFor(None)[|BearerPrefix|..] == "null";
  }

  /** The register form offers the role "employee", which the route it posts to never grants:
      whoever sends it, no account is created, and an employee gets 400 naming the role field. */
  lemma EmployeeOptionIsRefused(libs: Libs, db: Db, req: Request)
    requires WellFormed(db)
    requires Sanitize(libs, RoleOptions[1]) == RoleOptions[1]
    requires "role" in req.body && req.body["role"] == Str(RoleOptions[1])
    ensures var out := EmployeeCreateUser(libs, db, req);
      && out.resp.status != 201
      && out.db == db
      && (Guard(libs, req, {Employee}).Success? ==>
            out.resp.status == 400 && out.resp.payload.Invalid? && "role" in out.resp.payload.fields)
  {
  }

  /** A successful server login lands the browser on the page of the stored account's role, with
      that role and the issued token stored. */
  lemma LoginLandsOnRolePage(libs: Libs, db: Db, req: Request, browser: Browser)
    requires Sound(libs) && WellFormed(db)
    requires Login(libs, db, req).resp.status == 200
    ensures NonStrings(req.body, LoginFields) == {}
    ensures var u := db.users[Field(libs, req.body, "accountNumber")];
      var e := OnLogin(browser, DeliverToLogin(Login(libs, db, req).resp));
      && e.navigate == Some(Dashboard(u.role))
      && e.browser.storage["role"] == RoleName(u.role)
      && e.browser.storage["jwtToken"] == libs.sign(ClaimsOf(u))
      && e.errorMessage == ""
  {
  }

  /** A failed server login shows "Invalid credentials" and stores nothing. */
  lemma FailedLoginShowsMessage(libs: Libs, db: Db, req: Request, browser: Browser)
    requires WellFormed(db)
    requires Login(libs, db, req).resp.status == 401
    ensures var e := OnLogin(browser, DeliverToLogin(Login(libs, db, req).resp));
      && e.errorMessage == "Invalid credentials"
      && e.browser == browser
      && e.navigate.None?
  {
  }

  /** An account an employee creates logs in and lands on the page for users. */
  lemma CreatedUserLandsOnCreatePage(libs: Libs, db: Db, create: Request, login: Request, browser: Browser)
    requires Sound(libs) && WellFormed(db)
    requires EmployeeCreateUser(libs, db, create).resp.status == 201
    requires LoginFor(create, login)
    ensures var after := EmployeeCreateUser(libs, db, create).db;
      OnLogin(browser, DeliverToLogin(Login(libs, after, login).resp)).navigate == Some("/create")
  {
  }
}
