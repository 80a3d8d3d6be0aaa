/** The route handlers of the Express server and the admin seed run at start-up. Each request is
    one atomic step from a store to a response and a new store. */
module Server {
  import opened Wrappers
  import opened Libraries
  import opened Accounts
  import opened Http
  import opened Auth

  datatype Outcome = Outcome(resp: Response, db: Db)

  /** `authenticateToken, validateUserRole(allowed)`, in that order. */
  function Guard(libs: Libs, req: Request, allowed: set<Role>): (r: Result<AuthUser, Response>)
    ensures r.Failure? && r.error.status == 401 <==> Authenticate(libs, req.authorization).Failure?
    ensures r.Failure? && r.error.status == 403 <==>
      && Authenticate(libs, req.authorization).Success?
      && ValidateUserRole(allowed, Some(Authenticate(libs, req.authorization).value)).Some?
    ensures r.Failure? ==> r.error.status in {401, 403}
    // the failure is authenticateToken's own answer, or the gate's "Permission denied"
    ensures r.Failure? && r.error.status == 401 ==> Authenticate(libs, req.authorization) == Failure(r.error)
    ensures r.Failure? && r.error.status == 403 ==> r.error == PermissionDenied
    ensures r.Success? ==>
      && Authenticate(libs, req.authorization) == Success(r.value)
      && exists ro | ro in allowed :: r.value.role == Some(RoleName(ro))
  {
    match Authenticate(libs, req.authorization)
    case Failure(resp) => Failure(resp)
    case Success(u) =>
      match ValidateUserRole(allowed, Some(u))
      case Some(resp) => Failure(resp)
      case None => Success(u)
  }

  // ---------------------------------------------------------------- account creation

  const AccountFields: set<string> := {"fullName", "idNumber", "accountNumber", "password", "role"}

  /** `body('role').isString().trim().escape().isIn(names)` passes on a string `role`. */
  predicate Grants(libs: Libs, grantable: set<Role>, role: string)
  {
    ParseRole(Sanitize(libs, role)).Some? && ParseRole(Sanitize(libs, role)).value in grantable
  }

  /** The body a creation route accepts: five strings, the role one of the grantable names. */
  predicate ValidAccountBody(libs: Libs, body: map<string, Json>, grantable: set<Role>)
  {
    && IsString(body, "fullName") && IsString(body, "idNumber") && IsString(body, "accountNumber")
    && IsString(body, "password") && IsString(body, "role")
    && Grants(libs, grantable, body["role"].s)
  }

  /** `validationResult(req)` for the creation routes. */
  function AccountErrors(libs: Libs, body: map<string, Json>, grantable: set<Role>): (r: set<string>)
    ensures r <= AccountFields
    ensures r == {} <==> ValidAccountBody(libs, body, grantable)
    ensures "role" in r <==> !IsString(body, "role") || !Grants(libs, grantable, body["role"].s)
    ensures forall f | f in AccountFields - {"role"} :: f in r <==> !IsString(body, f)
  {
    NonStrings(body, AccountFields)
    + (if IsString(body, "role") && !Grants(libs, grantable, body["role"].s) then {"role"} else {})
  }

  /** The sanitised value of a string field of the body. */
  function Field(libs: Libs, body: map<string, Json>, f: string): string
    requires IsString(body, f)
  {
    Sanitize(libs, body[f].s)
  }

  const AccountExists := Response(400, Message("Account number already exists"))

  /** The shared handler of `/api/admin/create-account` and `/api/employee/create-user`: `callers`
      may use the route, and it can create accounts with a role in `grantable` only. */
  function CreateAccount(libs: Libs, db: Db, req: Request, callers: set<Role>, grantable: set<Role>,
                         created: string, failed: string): (r: Outcome)
    requires WellFormed(db)
    // guard precedence: 401, then 403, then 400
    ensures r.resp.status == 401 <==> Authenticate(libs, req.authorization).Failure?
    ensures r.resp.status == 403 <==> Guard(libs, req, callers).Failure? && !(r.resp.status == 401)
    ensures r.resp.status == 400 ==> Guard(libs, req, callers).Success?
    // a failed guard ends the request with the middleware's own answer
    ensures Guard(libs, req, callers).Failure? ==> r == Outcome(Guard(libs, req, callers).error, db)
    ensures Guard(libs, req, callers).Success? && !ValidAccountBody(libs, req.body, grantable) ==>
      r.resp == Response(400, Invalid(AccountErrors(libs, req.body, grantable)))
    // a taken account number
    ensures Guard(libs, req, callers).Success? && ValidAccountBody(libs, req.body, grantable)
            && FindByAccountNumber(db, Field(libs, req.body, "accountNumber")).Some? ==>
      r == Outcome(AccountExists, db)
    // every error leaves the store as it was
    ensures r.resp.status != 201 ==> r.db == db
    // success adds exactly the requested account
    ensures r.resp.status == 201 <==>
      && Guard(libs, req, callers).Success?
      && ValidAccountBody(libs, req.body, grantable)
      && Field(libs, req.body, "accountNumber") !in db.users
      && Present(Field(libs, req.body, "fullName")) && Present(Field(libs, req.body, "idNumber"))
      && Present(Field(libs, req.body, "accountNumber"))
      && Present(libs.hash(Field(libs, req.body, "password")))
    ensures r.resp.status == 201 ==>
      var acc := Field(libs, req.body, "accountNumber");
      && acc in r.db.users
      && Inserted(db, r.db, r.db.users[acc])
      && r.db.users[acc].accountNumber == acc
      && r.db.users[acc].role in grantable
      && RoleName(r.db.users[acc].role) == Field(libs, req.body, "role")
      && r.db.users[acc].fullName == Field(libs, req.body, "fullName")
      && r.db.users[acc].idNumber == Field(libs, req.body, "idNumber")
      && r.db.users[acc].passwordHash == libs.hash(Field(libs, req.body, "password"))
      && r.resp == Response(201, Message(created))
    // a valid request for a free account number that is not saved gets the route's 500
    ensures Guard(libs, req, callers).Success? && ValidAccountBody(libs, req.body, grantable)
            && Field(libs, req.body, "accountNumber") !in db.users && r.resp.status != 201 ==>
      r == Outcome(Response(500, Message(failed)), db)
    ensures WellFormed(r.db)
  {
    match Guard(libs, req, callers)
    case Failure(resp) => Outcome(resp, db)
    case Success(_) =>
      var errors := AccountErrors(libs, req.body, grantable);
      if errors != {} then Outcome(Response(400, Invalid(errors)), db)
      else
        var accountNumber := Field(libs, req.body, "accountNumber");
        if FindByAccountNumber(db, accountNumber).Some? then Outcome(AccountExists, db)
        else
          var role := ParseRole(Field(libs, req.body, "role")).value;
          var saved := SaveUser(db, Field(libs, req.body, "fullName"), Field(libs, req.body, "idNumber"),
                                accountNumber, libs.hash(Field(libs, req.body, "password")), role);
          match saved
          case None => Outcome(Response(500, Message(failed)), db)
          case Some(db') => Outcome(Response(201, Message(created)), db')
  }

  /** `POST /api/admin/create-account`: admins only; creates employees and users. */
  function AdminCreateAccount(libs: Libs, db: Db, req: Request): (r: Outcome)
    requires WellFormed(db)
    ensures r.resp.status == 201 ==>
      && IsString(req.body, "accountNumber")
      && var acc := Field(libs, req.body, "accountNumber");
      && acc in r.db.users
      && Authenticate(libs, req.authorization).Success?
      && Authenticate(libs, req.authorization).value.role == Some("admin")
      && Inserted(db, r.db, r.db.users[acc])
      && r.db.users[acc].role in {Employee, User}
    ensures r.resp.status != 201 ==> r.db == db
    ensures AdminAccounts(r.db) == AdminAccounts(db)
    ensures WellFormed(r.db)
  {
    CreateAccount(libs, db, req, {Admin}, {Employee, User},
                  "Admin account successfully created", "Error during admin account creation.")
  }

  /** `POST /api/employee/create-user`: employees only; creates users. */
  function EmployeeCreateUser(libs: Libs, db: Db, req: Request): (r: Outcome)
    requires WellFormed(db)
    ensures r.resp.status == 201 ==>
      && IsString(req.body, "accountNumber")
      && var acc := Field(libs, req.body, "accountNumber");
      && acc in r.db.users
      && Authenticate(libs, req.authorization).Success?
      && Authenticate(libs, req.authorization).value.role == Some("employee")
      && Inserted(db, r.db, r.db.users[acc])
      && r.db.users[acc].role == User
    ensures r.resp.status != 201 ==> r.db == db
    ensures AdminAccounts(r.db) == AdminAccounts(db)
    ensures WellFormed(r.db)
  {
    CreateAccount(libs, db, req, {Employee}, {User},
                  "User account successfully created", "Error during user account creation.")
  }

  // ---------------------------------------------------------------- login

  const LoginFields: set<string> := {"accountNumber", "password"}
  const InvalidCredentials := Response(401, Message("Invalid credentials"))

  /** The claims `jwt.sign` is given for a stored account. */
  function ClaimsOf(u: Account): Claims
  {
    Claims(Some(u.id), Some(u.accountNumber), Some(RoleName(u.role)), None)
  }

  /** `POST /api/login`: never changes the store; unknown account and wrong password give the
      same answer; a match answers with a token for the stored account and its stored role. */
  function Login(libs: Libs, db: Db, req: Request): (r: Outcome)
    requires WellFormed(db)
    ensures r.db == db
    ensures r.resp.status == 400 <==> NonStrings(req.body, LoginFields) != {}
    ensures r.resp.status == 400 ==> r.resp.payload == Invalid(NonStrings(req.body, LoginFields))
    ensures NonStrings(req.body, LoginFields) == {} ==>
      var acc := Field(libs, req.body, "accountNumber");
      var pw := Field(libs, req.body, "password");
      && (r.resp.status == 200 <==> acc in db.users && libs.compare(pw, db.users[acc].passwordHash))
      && (r.resp.status == 200 ==>
            r.resp.payload == LoggedIn(libs.sign(ClaimsOf(db.users[acc])), RoleName(db.users[acc].role)))
      && (r.resp.status != 200 ==> r.resp == InvalidCredentials)
  {
    var errors := NonStrings(req.body, LoginFields);
    if errors != {} then Outcome(Response(400, Invalid(errors)), db)
    else
      match FindByAccountNumber(db, Field(libs, req.body, "accountNumber"))
      case None => Outcome(InvalidCredentials, db)
      case Some(u) =>
        if !libs.compare(Field(libs, req.body, "password"), u.passwordHash) then Outcome(InvalidCredentials, db)
        else Outcome(Response(200, LoggedIn(libs.sign(ClaimsOf(u)), RoleName(u.role))), db)
  }

  // ---------------------------------------------------------------- payments

  const PaymentFields: set<string> := {"currency", "accountInfo", "swiftCode"}

  /** `validationResult(req)` for the payment route. */
  function PaymentErrors(libs: Libs, body: map<string, Json>): (r: set<string>)
    ensures r == {} <==> IsNumeric(libs, body, "amount") && IsString(body, "currency")
                         && IsString(body, "accountInfo") && IsString(body, "swiftCode")
    ensures "amount" in r <==> !IsNumeric(libs, body, "amount")
    ensures forall f | f in PaymentFields :: f in r <==> !IsString(body, f)
    ensures r <= PaymentFields + {"amount"}
  {
    NonStrings(body, PaymentFields) + (if IsNumeric(libs, body, "amount") then {} else {"amount"})
  }

  const PaymentAccepted := "Payment successfully submitted"

  /** `POST /api/payment`: callers with role `user` only; the stored payment is `'pending'` and
      belongs to the id in the token, whatever the body says. */
  function SubmitPayment(libs: Libs, db: Db, req: Request): (r: Outcome)
    requires WellFormed(db)
    ensures r.resp.status == 401 <==> Authenticate(libs, req.authorization).Failure?
    ensures r.resp.status == 403 <==> Guard(libs, req, {User}).Failure? && !(r.resp.status == 401)
    ensures r.resp.status == 400 <==>
      Guard(libs, req, {User}).Success? && PaymentErrors(libs, req.body) != {}
    ensures r.resp.status == 400 ==> r.resp.payload == Invalid(PaymentErrors(libs, req.body))
    ensures Guard(libs, req, {User}).Failure? ==> r == Outcome(Guard(libs, req, {User}).error, db)
    ensures r.resp.status != 201 ==> r.db == db
    // an accepted request is saved exactly when the token names an account and the trimmed
    // text fields are not empty; otherwise the save fails with 500
    ensures r.resp.status == 201 <==>
      && Guard(libs, req, {User}).Success?
      && PaymentErrors(libs, req.body) == {}
      && Guard(libs, req, {User}).value.id.Some?
      && Present(libs.trim(req.body["currency"].s))
      && Present(libs.trim(req.body["accountInfo"].s))
      && Present(libs.trim(req.body["swiftCode"].s))
    ensures Guard(libs, req, {User}).Success? && PaymentErrors(libs, req.body) == {} && r.resp.status != 201 ==>
      r.resp == Response(500, Message("Error during payment submission."))
    ensures r.resp.status == 201 ==>
      && Authenticate(libs, req.authorization).Success?
      && Authenticate(libs, req.authorization).value.role == Some("user")
      && r.db.users == db.users
      && |r.db.payments| == |db.payments| + 1
      && r.db.payments[..|db.payments|] == db.payments
      && var p := r.db.payments[|db.payments|];
         && r.resp.payload == PaymentSubmitted(PaymentAccepted, p)
         && p.status == "pending"
         && p.userId == Authenticate(libs, req.authorization).value.id
         && p.amount == req.body["amount"]
         && IsString(req.body, "currency") && p.currency == libs.trim(req.body["currency"].s)
         && IsString(req.body, "accountInfo") && p.accountInfo == libs.trim(req.body["accountInfo"].s)
         && IsString(req.body, "swiftCode") && p.swiftCode == libs.trim(req.body["swiftCode"].s)
    ensures WellFormed(r.db)
  {
    match Guard(libs, req, {User})
    case Failure(resp) => Outcome(resp, db)
    case Success(u) =>
      var errors := PaymentErrors(libs, req.body);
      if errors != {} then Outcome(Response(400, Invalid(errors)), db)
      else
        var saved := SavePayment(db, u.id, req.body["amount"], libs.trim(req.body["currency"].s),
                                 libs.trim(req.body["accountInfo"].s), libs.trim(req.body["swiftCode"].s));
        match saved
        case None => Outcome(Response(500, Message("Error during payment submission.")), db)
        case Some(db') => Outcome(Response(201, PaymentSubmitted(PaymentAccepted, db'.payments[|db.payments|])), db')
  }

  // ---------------------------------------------------------------- dispatch

  datatype Route = PaymentRoute | AdminCreateAccountRoute | EmployeeCreateUserRoute | LoginRoute

  /** One request against the store. Whatever the route and the request, the store stays
      well-formed, an error changes nothing, no existing account changes and no admin appears. */
  function Handle(libs: Libs, db: Db, route: Route, req: Request): (r: Outcome)
    requires WellFormed(db)
    ensures WellFormed(r.db)
    ensures r.resp.status >= 400 ==> r.db == db
    ensures forall a | a in db.users :: a in r.db.users && r.db.users[a] == db.users[a]
    ensures AdminAccounts(r.db) == AdminAccounts(db)
  {
    match route
    case PaymentRoute => SubmitPayment(libs, db, req)
    case AdminCreateAccountRoute => AdminCreateAccount(libs, db, req)
    case EmployeeCreateUserRoute => EmployeeCreateUser(libs, db, req)
    case LoginRoute => Login(libs, db, req)
  }

  // ---------------------------------------------------------------- admin seed

  /** `ADMIN_ACCOUNT_NUMBER` and `ADMIN_PASSWORD`, each possibly unset. */
  datatype AdminEnv = AdminEnv(accountNumber: Option<string>, password: Option<string>)

  /** `process.env.X || fallback`: an unset or empty variable gives the fallback, so the result is
      one of the two and is empty only when the fallback is. */
  function EnvOr(v: Option<string>, fallback: string): (r: string)
    ensures Truthy(v) ==> r == v.value
    ensures !Truthy(v) ==> r == fallback
    ensures fallback != "" ==> r != ""
  {
    if Truthy(v) then v.value else fallback
  }

  /** The seed's account number: never empty, and "admin" exactly when the variable is unset,
      empty, or itself "admin". */
  function AdminId(env: AdminEnv): (r: string)
    ensures r != ""
    ensures Truthy(env.accountNumber) ==> r == env.accountNumber.value
    ensures r == "admin" <==> !Truthy(env.accountNumber) || env.accountNumber == Some("admin")
  {
    EnvOr(env.accountNumber, "admin")
  }

  /** The seed's password: never empty, and "admin123" exactly when the variable is unset, empty,
      or itself "admin123". */
  function AdminPassword(env: AdminEnv): (r: string)
    ensures r != ""
    ensures Truthy(env.password) ==> r == env.password.value
    ensures r == "admin123" <==> !Truthy(env.password) || env.password == Some("admin123")
  {
    EnvOr(env.password, "admin123")
  }

  /** `initializeAdminAccount`: does nothing when an admin exists; otherwise saves one admin under
      `AdminId(env)`, a save the unique index refuses when that account number is taken. */
  function SeedAdmin(libs: Libs, db: Db, env: AdminEnv): (r: Db)
    requires WellFormed(db)
    ensures HasAdmin(db) ==> r == db
    ensures !HasAdmin(db) && AdminId(env) !in db.users && Present(libs.hash(AdminPassword(env))) ==>
      Inserted(db, r, Account(db.nextId, "Admin", "0000000000000", AdminId(env),
                              libs.hash(AdminPassword(env)), Admin))
    ensures !(!HasAdmin(db) && AdminId(env) !in db.users && Present(libs.hash(AdminPassword(env)))) ==>
      r == db
    ensures WellFormed(r)
  {
    if HasAdmin(db) then db
    else
      match SaveUser(db, "Admin", "0000000000000", AdminId(env), libs.hash(AdminPassword(env)), Admin)
      case None => db
      case Some(db') => db'
  }

  /** The seed as login reads it: account number and password go through the same sanitiser as
      `POST /api/login` before the save and the hash, so the stored hash is of what login
      compares. */
  function SeedAdminSanitized(libs: Libs, db: Db, env: AdminEnv): (r: Db)
    requires WellFormed(db)
    ensures HasAdmin(db) ==> r == db
    ensures var id := Sanitize(libs, AdminId(env));
      var pw := Sanitize(libs, AdminPassword(env));
      && (!HasAdmin(db) && id !in db.users && Present(id) && Present(libs.hash(pw)) ==>
            Inserted(db, r, Account(db.nextId, "Admin", "0000000000000", id, libs.hash(pw), Admin)))
      && (!(!HasAdmin(db) && id !in db.users && Present(id) && Present(libs.hash(pw))) ==> r == db)
    ensures WellFormed(r)
  {
    if HasAdmin(db) then db
    else
      var id := Sanitize(libs, AdminId(env));
      var pw := Sanitize(libs, AdminPassword(env));
      match SaveUser(db, "Admin", "0000000000000", id, libs.hash(pw), Admin)
      case None => db
      case Some(db') => db'
  }
}
