/** The two MongoDB collections the server writes, `users` and `payments`, as one immutable value,
    together with what Mongoose's `save()` does with a new document. */
module Accounts {
  import opened Wrappers
  import opened Libraries

  /** The `role` enum of the user schema. */
  datatype Role = Admin | Employee | User

  function RoleName(r: Role): string
  {
    match r
    case Admin => "admin"
    case Employee => "employee"
    case User => "user"
  }

  /** The enum value a string names, if any. */
  function ParseRole(s: string): (r: Option<Role>)
    ensures r.Some? ==> RoleName(r.value) == s
    ensures r.None? ==> forall ro: Role :: RoleName(ro) != s
  {
    if s == "admin" then Some(Admin)
    else if s == "employee" then Some(Employee)
    else if s == "user" then Some(User)
    else None
  }

  datatype Account = Account(
    id: ObjectId,
    fullName: string,
    idNumber: string,
    accountNumber: string,
    passwordHash: string,
    role: Role)

  datatype Payment = Payment(
    id: ObjectId,
    userId: Option<ObjectId>,
    amount: Json,
    currency: string,
    accountInfo: string,
    swiftCode: string,
    status: string)

  /** `users` is keyed by account number, which the unique index makes a key; `nextId` stands for
      the ObjectIds not yet handed out. */
  datatype Db = Db(users: map<string, Account>, payments: seq<Payment>, nextId: ObjectId)

  predicate WellFormed(db: Db)
  {
    && (forall a | a in db.users :: db.users[a].accountNumber == a && db.users[a].id < db.nextId)
    && (forall a, b | a in db.users && b in db.users && a != b :: db.users[a].id != db.users[b].id)
    && (forall i | 0 <= i < |db.payments| :: db.payments[i].id < db.nextId)
  }

  /** `UserModel.findOne({ accountNumber })`: in a well-formed store there is at most one document
      with a given account number, and the lookup returns exactly that one. */
  function FindByAccountNumber(db: Db, accountNumber: string): (r: Option<Account>)
    requires WellFormed(db)
    ensures r.Some? <==> exists a | a in db.users :: db.users[a].accountNumber == accountNumber
    ensures forall a | a in db.users && db.users[a].accountNumber == accountNumber :: r == Some(db.users[a])
  {
    if accountNumber in db.users then Some(db.users[accountNumber]) else None
  }

  /** `UserModel.findOne({ role: 'admin' })` finds something. */
  predicate HasAdmin(db: Db)
  {
    exists a | a in db.users :: db.users[a].role == Admin
  }

  function AdminAccounts(db: Db): set<string>
  {
    set a | a in db.users && db.users[a].role == Admin
  }

  /** `db'` is `db` with exactly one user document added, under `u.accountNumber`, and nothing
      else changed. */
  predicate Inserted(db: Db, db': Db, u: Account)
  {
    && u.accountNumber !in db.users
    && db'.users.Keys == db.users.Keys + {u.accountNumber}
    && db'.users[u.accountNumber] == u
    && (forall a | a in db.users :: db'.users[a] == db.users[a])
    && db'.payments == db.payments
  }

  /** A string field declared `required: true` rejects the empty string. */
  predicate Present(s: string)
  {
    s != ""
  }

  /** `new UserModel({...}).save()`: fails on an empty required field or when the unique index on
      `accountNumber` already holds the key; otherwise stores one document under a fresh `_id`. */
  function SaveUser(db: Db, fullName: string, idNumber: string, accountNumber: string,
                    passwordHash: string, role: Role): (r: Option<Db>)
    ensures r.Some? <==>
      Present(fullName) && Present(idNumber) && Present(accountNumber) && Present(passwordHash)
      && accountNumber !in db.users
    ensures r.Some? ==>
      Inserted(db, r.value, Account(db.nextId, fullName, idNumber, accountNumber, passwordHash, role))
    ensures r.Some? ==> WellFormed(db) ==> WellFormed(r.value)
  {
    if !(Present(fullName) && Present(idNumber) && Present(accountNumber) && Present(passwordHash)) then None
    else if accountNumber in db.users then None
    else
      var u := Account(db.nextId, fullName, idNumber, accountNumber, passwordHash, role);
      Some(db.(users := db.users[accountNumber := u], nextId := db.nextId + 1))
  }

  /** `new PaymentModel({...}).save()`: every field of the payment schema is required, and
      `status` is always `'pending'`. On success the new document is the last one stored. */
  function SavePayment(db: Db, userId: Option<ObjectId>, amount: Json, currency: string,
                       accountInfo: string, swiftCode: string): (r: Option<Db>)
    ensures r.Some? <==>
      userId.Some? && Present(currency) && Present(accountInfo) && Present(swiftCode)
    ensures r.Some? ==>
      && r.value.users == db.users
      && |r.value.payments| == |db.payments| + 1
      && r.value.payments[..|db.payments|] == db.payments
      && r.value.payments[|db.payments|]
         == Payment(db.nextId, userId, amount, currency, accountInfo, swiftCode, "pending")
    ensures r.Some? ==> WellFormed(db) ==> WellFormed(r.value)
  {
    if userId.None? || !(Present(currency) && Present(accountInfo) && Present(swiftCode)) then None
    else
      var p := Payment(db.nextId, userId, amount, currency, accountInfo, swiftCode, "pending");
      Some(db.(payments := db.payments + [p], nextId := db.nextId + 1))
  }
}
