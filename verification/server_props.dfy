/** Properties of the server that relate several requests. */
module ServerProps {
  import opened Wrappers
  import opened Libraries
  import opened Accounts
  import opened Http
  import opened Auth
  import opened Server
  import opened Bearer

  /** Running the seed twice is running it once. */
  lemma SeedIdempotent(libs: Libs, db: Db, env: AdminEnv)
    requires WellFormed(db)
    ensures SeedAdmin(libs, SeedAdmin(libs, db, env), env) == SeedAdmin(libs, db, env)
  {
  }

  /** With sound libraries, a store without an admin and with the admin account number free gets
      exactly one admin from the seed. */
  lemma SeedCreatesOneAdmin(libs: Libs, db: Db, env: AdminEnv)
    requires Sound(libs) && WellFormed(db)
    requires !HasAdmin(db) && AdminId(env) !in db.users
    ensures AdminAccounts(SeedAdmin(libs, db, env)) == {AdminId(env)}
  {
  }

  /** The seeded admin can log in with the seed password, provided the login sanitiser leaves
      account number and password as they are (the seed hashes the password without sanitising). */
  lemma SeedThenLogin(libs: Libs, db: Db, env: AdminEnv, req: Request)
    requires Sound(libs) && WellFormed(db)
    requires !HasAdmin(db) && AdminId(env) !in db.users
    requires req.body == map["accountNumber" := Str(AdminId(env)), "password" := Str(AdminPassword(env))]
    requires Sanitize(libs, AdminId(env)) == AdminId(env)
    requires Sanitize(libs, AdminPassword(env)) == AdminPassword(env)
    ensures Login(libs, SeedAdmin(libs, db, env), req).resp.status == 200
    ensures Login(libs, SeedAdmin(libs, db, env), req).resp.payload.role == "admin"
  {
  }

  /** As written, the seed hashes the raw password while login compares the sanitised one: when
      the sanitiser changes the configured password (a leading space, an `&`), and the hash
      matches nothing but its own preimage, the seeded admin can never log in with it. */
  lemma SeedPasswordRejected(libs: Libs, db: Db, env: AdminEnv, req: Request)
    requires Sound(libs) && WellFormed(db)
    requires forall p, q :: libs.compare(p, libs.hash(q)) ==> p == q
    requires !HasAdmin(db) && AdminId(env) !in db.users
    requires req.body == map["accountNumber" := Str(AdminId(env)), "password" := Str(AdminPassword(env))]
    requires Sanitize(libs, AdminId(env)) == AdminId(env)
    requires Sanitize(libs, AdminPassword(env)) != AdminPassword(env)
    ensures Login(libs, SeedAdmin(libs, db, env), req).resp == InvalidCredentials
  {
    var after := SeedAdmin(libs, db, env);
    assert after.users[AdminId(env)].passwordHash == libs.hash(AdminPassword(env));
    assert !libs.compare(Sanitize(libs, AdminPassword(env)), libs.hash(AdminPassword(env)));
  }

  /** With the corrected seed, the admin logs in with the configured credentials whatever the
      sanitiser does to them, as long as the sanitised account number is free and not empty. */
  lemma SanitizedSeedThenLogin(libs: Libs, db: Db, env: AdminEnv, req: Request)
    requires Sound(libs) && WellFormed(db)
    requires !HasAdmin(db)
    requires Sanitize(libs, AdminId(env)) !in db.users && Present(Sanitize(libs, AdminId(env)))
    requires req.body == map["accountNumber" := Str(AdminId(env)), "password" := Str(AdminPassword(env))]
    ensures Login(libs, SeedAdminSanitized(libs, db, env), req).resp.status == 200
    ensures Login(libs, SeedAdminSanitized(libs, db, env), req).resp.payload.role == "admin"
  {
  }

  /** A token issued at login, once verified, identifies the stored account: the request runs
      as that account's id, account number and role, and the role gate lets it through exactly
      when the stored role is allowed. `jwt.verify` may add an issue time to the claims. */
  lemma LoginTokenAuthenticates(libs: Libs, u: Account, allowed: set<Role>)
    requires ' ' !in libs.sign(ClaimsOf(u))
    requires libs.verify(libs.sign(ClaimsOf(u))).Some?
    requires libs.verify(libs.sign(ClaimsOf(u))).value.(issuedAt := None) == ClaimsOf(u)
    ensures var auth := Authenticate(libs, Some(BearerHeader(libs.sign(ClaimsOf(u)))));
      && auth == Success(AuthUser(Some(u.id), Some(u.accountNumber), Some(RoleName(u.role))))
      && (ValidateUserRole(allowed, Some(auth.value)).None? <==> u.role in allowed)
  {
    var t := libs.sign(ClaimsOf(u));
    assert BearerHeader(t)[|BearerPrefix|..] == t;
    var token := TokenOf(BearerHeader(t));
    assert token == t;
  }

  /** The login request for the account a creation request describes: the same raw account
      number and password. */
  predicate LoginFor(create: Request, login: Request)
  {
    && "accountNumber" in create.body && "password" in create.body
    && "accountNumber" in login.body && "password" in login.body
    && login.body["accountNumber"] == create.body["accountNumber"]
    && login.body["password"] == create.body["password"]
  }

  /** Round trip: an account an admin or an employee creates can log in with the password it was
      created with, and login reports the role it was created with. Creation and login sanitise
      the same way before hashing and comparing. */
  lemma CreateThenLogin(libs: Libs, db: Db, route: Route, create: Request, login: Request)
    requires Sound(libs) && WellFormed(db)
    requires route == AdminCreateAccountRoute || route == EmployeeCreateUserRoute
    requires Handle(libs, db, route, create).resp.status == 201
    requires LoginFor(create, login)
    ensures var after := Handle(libs, db, route, create).db;
      && Login(libs, after, login).resp.status == 200
      && Login(libs, after, login).resp.payload.role == Field(libs, create.body, "role")
  {
  }

  /** A sequence of requests served one after another. */
  function Serve(libs: Libs, db: Db, reqs: seq<(Route, Request)>): (r: Db)
    requires WellFormed(db)
    ensures WellFormed(r)
    ensures forall a | a in db.users :: a in r.users && r.users[a] == db.users[a]
    decreases |reqs|
  {
    if |reqs| == 0 then db
    else Serve(libs, Handle(libs, db, reqs[0].0, reqs[0].1).db, reqs[1..])
  }

  /** No sequence of requests creates an admin account: admins come from the seed alone. */
  lemma {:induction false} NoRequestCreatesAdmin(libs: Libs, db: Db, reqs: seq<(Route, Request)>)
    requires WellFormed(db)
    ensures AdminAccounts(Serve(libs, db, reqs)) == AdminAccounts(db)
    decreases |reqs|
  {
    if |reqs| > 0 {
      var next := Handle(libs, db, reqs[0].0, reqs[0].1).db;
      NoRequestCreatesAdmin(libs, next, reqs[1..]);
    }
  }

  /** Serving requests keeps every account number unique. */
  lemma AccountNumbersStayUnique(libs: Libs, db: Db, reqs: seq<(Route, Request)>)
    requires WellFormed(db)
    ensures var r := Serve(libs, db, reqs);
      forall a, b | a in r.users && b in r.users && r.users[a].accountNumber == r.users[b].accountNumber :: a == b
  {
  }

  /** 401 comes before everything: a request that fails authentication gets the same answer
      whatever its body and whatever the store holds. */
  lemma UnauthenticatedIgnoresBodyAndStore(libs: Libs, db1: Db, db2: Db, route: Route,
                                           h: Option<string>, b1: map<string, Json>, b2: map<string, Json>)
    requires WellFormed(db1) && WellFormed(db2)
    requires route != LoginRoute
    requires Authenticate(libs, h).Failure?
    ensures Handle(libs, db1, route, Request(h, b1)).resp == Handle(libs, db2, route, Request(h, b2)).resp
    ensures Handle(libs, db1, route, Request(h, b1)).resp.status == 401
  {
  }

  /** 403 comes before 400: an authenticated caller with the wrong role gets the same answer
      whatever the body and the store. */
  lemma ForbiddenIgnoresBodyAndStore(libs: Libs, db1: Db, db2: Db, route: Route,
                                     h: Option<string>, b1: map<string, Json>, b2: map<string, Json>)
    requires WellFormed(db1) && WellFormed(db2)
    requires route != LoginRoute
    requires Handle(libs, db1, route, Request(h, b1)).resp.status == 403
    ensures Handle(libs, db1, route, Request(h, b1)).resp == Handle(libs, db2, route, Request(h, b2)).resp
  {
  }

  /** The payment's owner comes from the token: a `userId` in the body changes nothing. */
  lemma PaymentIgnoresBodyUserId(libs: Libs, db: Db, h: Option<string>, body: map<string, Json>, forged: Json)
    requires WellFormed(db)
    ensures SubmitPayment(libs, db, Request(h, body["userId" := forged]))
         == SubmitPayment(libs, db, Request(h, body))
  {
    var forgedBody := body["userId" := forged];
    assert forall f | f != "userId" :: (f in forgedBody <==> f in body);
    assert forall f | f in body && f != "userId" :: forgedBody[f] == body[f];
    assert NonStrings(forgedBody, PaymentFields) == NonStrings(body, PaymentFields);
  }
}
