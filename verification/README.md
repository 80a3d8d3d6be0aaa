# APDS account and access-control model

A Dafny model of the decision logic of the APDS demo banking portal. The model has three parts.

- **The Express server** (`APDS/BACKEND/server.mjs`). The MongoDB `users` and `payments` collections are one immutable `Db` value. The `users` map is keyed by `accountNumber`, the field the schema declares unique. Each route is a pure function from a store and a request to a response and a new store:
  - `authenticateToken` parses the bearer header and verifies the token.
  - `validateUserRole` is the role gate.
  - The admin and employee account-creation routes each have their own set of allowed callers and their own set of roles they may grant.
  - The login and payment routes.
  - The start-up admin seed.
- **The register component** (`register.js`). It has the account-number and password validators and the admin flag decoded from the stored token. It also has the ordered checks of `handleSubmit` and what each server answer does to the form.
- **The login component** (`login.js`). It has the redirect of a visitor who already holds a token. It also maps the login answer to what is stored in the browser, the alert text, the page the visitor goes to, and the error message shown.

bcrypt, `jwt.sign`/`jwt.verify`, `jwtDecode` and express-validator's `trim`/`escape`/`isNumeric` are not interpreted. They are function-valued fields of a `Libraries.Libs` value, and every member takes that value as a parameter. `Libraries.Sound` is what the model assumes of them throughout:
- a password matches its own hash (`compare(p, hash(p))`);
- a bcrypt hash is never the empty string;
- a signed token is never the empty string.

A few lemmas assume more, each in its own `requires`:
- `EndToEnd.AdminSubmissionIsRejected`: a token the server verifies carries the claims the browser decodes from it (`verify(t) == decode(t)`), and the stored token has no space (a JWT has none).
- `EndToEnd.AuthorizationCarriesToken`: the stored token has no space.
- `EndToEnd.EmployeeOptionIsRefused`: the sanitiser leaves the word "employee" unchanged.
- `ServerProps.SeedThenLogin`: the sanitiser leaves the seed account number and password unchanged.
- `ServerProps.SeedPasswordRejected`: a hash matches only its own preimage, and the sanitiser leaves the seed account number unchanged.
- `ServerProps.LoginTokenAuthenticates`: verifying a signed token gives back the signed claims, up to an added issue time, and the token has no space.

Mongoose's `save()` is modelled by `Accounts.SaveUser` and `Accounts.SavePayment`. A save fails when the unique index already holds the account number, or when a `required` string field is empty (Mongoose's `required` rejects `""`). The route's `catch` then answers 500 and the store is unchanged. The seed has no duplicate check of its own and relies on that index.

The repository also holds an older backend under `APDS Work New`. Where the two differ, the model follows `APDS/BACKEND/server.mjs`:
- No expiry is set on tokens (line 317). The older backend sets a one-hour expiry (`routes/user.mjs` line 66).
- Login is `POST /api/login`, and it answers `{ token, role }`. The older backend has `/user/login`.
- The duplicate-account check is the explicit `findOne` in both creation routes. The older signup has none.

Files: `wrappers.dfy` (Option/Result and JavaScript truthiness), `bearer.dfy` (the `Bearer` header form), `libraries.dfy`, `accounts.dfy`, `http.dfy`, `auth.dfy`, `server.dfy`, `server_props.dfy`, `register.dfy`, `login.dfy`, `end_to_end.dfy`.

## Model

| member | source | states |
|---|---|---|
| Accounts.ParseRole | APDS/BACKEND/server.mjs:141 | A string names a role of the schema enum exactly when it is that role's name; every other string names none. |
| Accounts.FindByAccountNumber | APDS/BACKEND/server.mjs:136-144 | `findOne({ accountNumber })` finds a document exactly when some stored account has that number. Because the number is unique, the document found is the only one with it. |
| Accounts.SaveUser | APDS/BACKEND/server.mjs:136-142 | Saving a user succeeds exactly when the required strings are non-empty and the account number is not yet taken. On success exactly one account is added under that number with a fresh id, nothing else changes, and the store stays well-formed. |
| Accounts.SavePayment | APDS/BACKEND/server.mjs:147-155 | Saving a payment succeeds exactly when it has an owner and non-empty strings. On success exactly one payment is appended, with status `'pending'`. Users and earlier payments are untouched. |
| Auth.Split | APDS/BACKEND/server.mjs:338 | `split(' ')` returns at least one field. No field contains a space, and joining the fields with spaces gives back the input. |
| Auth.FirstField | APDS/BACKEND/server.mjs:338 | The first field of a split is the longest prefix that holds no separator. |
| Auth.SplitAfterSeparator | APDS/BACKEND/server.mjs:338 | Splitting `w + sep + t`, where `w` has no separator, gives `w` followed by the fields of `t`. |
| Auth.IsBearerByWords | APDS/BACKEND/server.mjs:337-338 | A header starts with `"Bearer "` exactly when its first space-separated word is "Bearer" and a second word follows it, so `split(' ')[1]` always exists after the test. |
| Auth.TokenOf | APDS/BACKEND/server.mjs:338 | The token is the part of the header after `"Bearer "` up to the next space: a prefix of that rest, without a space, and followed by a space or the end. |
| Auth.Authenticate | APDS/BACKEND/server.mjs:333-355 | A missing header, or one not starting with `"Bearer "`, gives 401 "Access denied. Token missing.", and nothing else gives that answer. A token that fails verification gives 401 "Invalid token.". Otherwise `req.user` is exactly the `id`, `accountNumber` and `role` of the verified claims. |
| Auth.AuthenticateIgnoresTrailingFields | APDS/BACKEND/server.mjs:338-342 | Text after a second space in the header does not change the authentication outcome. |
| Auth.ValidateUserRole | APDS/BACKEND/server.mjs:160-172 | With no user the gate answers 401. With a user it lets the request through exactly when the user's role is the name of an allowed role, and otherwise answers 403 "Permission denied". |
| Auth.GateReadsOnlyRole | APDS/BACKEND/server.mjs:166-167 | Two users with the same role get the same answer from the gate. |
| Server.Guard | APDS/BACKEND/server.mjs:213 | Authentication runs before the role gate. A 401 comes exactly from a failed authentication, and a 403 exactly from an authenticated caller whose role is not allowed. A failure is authentication's own 401 answer or the gate's 403 "Permission denied". When the request passes, the user is the authenticated one and holds an allowed role. |
| Server.AccountErrors | APDS/BACKEND/server.mjs:214-223 | No validation errors are reported exactly when all five fields are strings and the sanitised role is one the route may grant. The role field is reported exactly when that role check fails, and each other field exactly when it is not a string. |
| Server.CreateAccount | APDS/BACKEND/server.mjs:212-287 | The answer is 401, then 403, then 400, in order of precedence. A failed guard ends the request with the middleware's own answer ("Access denied. Token missing.", "Invalid token." or "Permission denied") and changes nothing. A taken account number gives 400 "Account number already exists", and a free one whose save is refused gives 500 with the route's failure message. Every answer other than 201 leaves the store unchanged. 201 is answered exactly when all checks pass and the save succeeds. The record then added holds the sanitised fields, the hash of the sanitised password and a grantable role, and it is the only change. |
| Server.AdminCreateAccount | APDS/BACKEND/server.mjs:212-248 | A 201 needs an authenticated caller with role "admin" and adds one employee or user account. No admin account is ever created. Errors change nothing. |
| Server.EmployeeCreateUser | APDS/BACKEND/server.mjs:251-287 | A 201 needs an authenticated caller with role "employee" and adds one account with role user. Admins are untouched. Errors change nothing. |
| Server.Login | APDS/BACKEND/server.mjs:289-328 | Login never changes the store, and non-string fields give 400 listing those fields. It answers 200 exactly when the account exists and the sanitised password matches its hash. The token then carries the stored id, account number and role, and the answer carries the stored role. An unknown account and a wrong password get the identical 401 "Invalid credentials". |
| Server.PaymentErrors | APDS/BACKEND/server.mjs:176-184 | No validation errors are reported exactly when the amount is numeric and the three text fields are strings. The amount is reported exactly when it is not numeric, each text field exactly when it is not a string, and no other field is ever reported. |
| Server.SubmitPayment | APDS/BACKEND/server.mjs:174-205 | The answer is 401, then 403, then 400 listing the failing fields, in order of precedence; the 401 and 403 are the middleware's own answers. 201 is answered exactly when the caller is a user, the body validates, the token carries an id and the trimmed text fields are non-empty; a valid request that is not saved gets 500 "Error during payment submission.". The one payment then appended is `'pending'`, is owned by the id in the token, and holds the amount as sent and the trimmed currency, account info and SWIFT code; the answer carries it with "Payment successfully submitted". Every other answer leaves the store unchanged. |
| Server.Handle | APDS/BACKEND/server.mjs:174-328 | For every route and request, the store stays well-formed and an error status changes nothing. No existing account changes, and the set of admin accounts stays the same. |
| Server.EnvOr | APDS/BACKEND/server.mjs:54-55 | An environment variable read with a fallback (`process.env.X` or the default) is the variable's value when it is set and non-empty, and the fallback otherwise, so it is never empty when the fallback is not. |
| Server.AdminId | APDS/BACKEND/server.mjs:54 | The seed's account number is `ADMIN_ACCOUNT_NUMBER` when that is set and non-empty. It is never empty, and is "admin" exactly when `ADMIN_ACCOUNT_NUMBER` is unset, empty or "admin". |
| Server.AdminPassword | APDS/BACKEND/server.mjs:55 | The seed's password is `ADMIN_PASSWORD` when that is set and non-empty. It is never empty, and is "admin123" exactly when `ADMIN_PASSWORD` is unset, empty or "admin123". |
| Server.SeedAdmin | APDS/BACKEND/server.mjs:51-77 | If an admin exists, the store is unchanged. Otherwise one admin "Admin"/"0000000000000" is added under `ADMIN_ACCOUNT_NUMBER`, or under `'admin'` when that is unset or empty, unless the number is taken. |
| ServerProps.SeedIdempotent | APDS/BACKEND/server.mjs:52-77 | Running the seed twice gives the same store as running it once. |
| ServerProps.SeedCreatesOneAdmin | APDS/BACKEND/server.mjs:57-72 | On a store with no admin and the admin number free, the seed leaves exactly one admin account. |
| ServerProps.SeedThenLogin | APDS/BACKEND/server.mjs:55-72 | The seeded admin logs in with the seed password and gets role "admin", provided sanitising leaves the seed account number and password unchanged. |
| ServerProps.SeedPasswordRejected | APDS/BACKEND/server.mjs:63 | As written: when the sanitiser changes the configured admin password but leaves the seed account number unchanged, and a hash matches only its own preimage, the seeded admin's login with that password gets 401 "Invalid credentials". |
| Server.SeedAdminSanitized | APDS/BACKEND/server.mjs:51-77 | The corrected seed: the admin is saved under the sanitised account number with the hash of the sanitised password, on the same conditions as the seed as written, and the store stays well-formed. |
| ServerProps.SanitizedSeedThenLogin | APDS/BACKEND/server.mjs:63 | With the corrected seed, the admin logs in with the configured credentials and gets role "admin", whatever the sanitiser does to them. |
| ServerProps.LoginTokenAuthenticates | APDS/BACKEND/server.mjs:313-317 | A token issued at login, sent back as `Bearer <token>`, authenticates as the stored account's id, account number and role, and the role gate lets it through exactly when the stored role is allowed. |
| ServerProps.CreateThenLogin | APDS/BACKEND/server.mjs:289-311 | Round trip: an account created by either creation route logs in with the raw password it was created with, and login reports the role it was created with. |
| ServerProps.Serve | APDS/BACKEND/server.mjs:174-328 | Serving any sequence of requests keeps the store well-formed and changes no existing account. |
| ServerProps.NoRequestCreatesAdmin | APDS/BACKEND/server.mjs:213-258 | No sequence of requests changes the set of admin accounts. |
| ServerProps.AccountNumbersStayUnique | APDS/BACKEND/server.mjs:139 | After any sequence of requests, two accounts with the same account number are the same account. |
| ServerProps.UnauthenticatedIgnoresBodyAndStore | APDS/BACKEND/server.mjs:175 | On every protected route, a request that fails authentication gets 401 whatever its body and the store. |
| ServerProps.ForbiddenIgnoresBodyAndStore | APDS/BACKEND/server.mjs:252 | A 403 answer is the same whatever the body and the store, so the role check comes before body validation. |
| ServerProps.PaymentIgnoresBodyUserId | APDS/BACKEND/server.mjs:186-197 | A `userId` in the payment body changes nothing about the outcome. |
| RegisterForm.ValidateAccountNumber | APDS/frontend/src/components/register.js:32 | The anchored `\d{10}` test accepts exactly the strings of ten ASCII digits. |
| RegisterForm.PasswordOnlyLengthMatters | APDS/frontend/src/components/register.js:33 | `validatePassword`: past the permission and account-number checks, the request goes out exactly when the password has at least eight characters, and passwords of equal length are treated alike. |
| RegisterForm.CheckSession | APDS/frontend/src/components/register.js:20-30 | Without a token the form is unchanged. A token that does not decode sets the session error and leaves the admin flag alone. Otherwise the admin flag becomes whether the decoded role is exactly "admin". Nothing else changes. |
| RegisterForm.AdminFlagFromToken | APDS/frontend/src/components/register.js:14-30 | On a fresh form, the admin flag is set exactly when a stored token decodes to role "admin". A decode failure leaves it false and sets the session message. |
| RegisterForm.HandleSubmit | APDS/frontend/src/components/register.js:35-73 | The checks run in order: permission, account number, password. Each failed check sets its own message and sends nothing. Otherwise one post goes to `/api/employee/create-user` with the form fields and `Bearer <token>`, and error and success are cleared. |
| RegisterForm.NonAdminNeverPosts | APDS/frontend/src/components/register.js:38-41 | A form without the admin flag never sends a request, whatever its fields, and shows the permission message. |
| RegisterForm.OnResponse | APDS/frontend/src/components/register.js:75-93 | A 201 clears every field, resets the role to "user", clears the error and sets the success text. A failure keeps the fields, clears success, and shows the server's message, or a generic text when the server sent no data. |
| LoginPage.LoginThenMountRedirects | APDS/frontend/src/components/login.js:15-20 | The on-mount redirect remembers a login: after an answer with a token and a role, the next mount goes to `/dashboard` whatever the role; after any other answer the next mount decides as before. |
| LoginPage.Lower | APDS/frontend/src/components/login.js:55 | Lower-casing keeps the length, leaves no upper-case letter, and changes each character only in case. |
| LoginPage.LowerMatchesIgnoringCase | APDS/frontend/src/components/login.js:55-59 | For a lower-case word `t`, `s.toLowerCase() === t` holds exactly when `s` spells `t` with any letters upper-cased. |
| LoginPage.LowerOfCapitalize | APDS/frontend/src/components/login.js:52-59 | Capitalising a role does not change its lower-case form. |
| LoginPage.Destination | APDS/frontend/src/components/login.js:55-63 | The lower-cased role maps admin to `/admin-dashboard`, employee to `/employee-dashboard` and user to `/create`, and any other role to no page. |
| LoginPage.DestinationIgnoresCase | APDS/frontend/src/components/login.js:55-59 | Roles equal up to case go to the same page. "Admin", "ADMIN" and "admin" all reach `/admin-dashboard`. |
| LoginPage.OnLogin | APDS/frontend/src/components/login.js:22-76 | Without a truthy token and role, the component stores nothing, shows no alert and goes nowhere. A good answer stores the token and role before any navigation, sets the bearer header, alerts "<Role> login was successful" and goes to the role's page, or shows "Unrecognized user role.". A server error shows its message or "Login failed", no response shows "Login successful." (kept as written), and anything else shows a generic text. |
| EndToEnd.AdminSubmissionIsRejected | APDS/frontend/src/components/register.js:64-73 | The form submits only for an admin token, but it posts to the employee-only route. The server answers 403, or 401 when the token does not verify, and stores nothing. The form shows that message with no success text. |
| EndToEnd.AuthorizationCarriesToken | APDS/frontend/src/components/register.js:70 | The header the form sends passes the server's bearer test. For a token without a space (a JWT has none) the server reads back exactly the stored token, and it reads the word "null" when none is stored. |
| EndToEnd.EmployeeOptionIsRefused | APDS/frontend/src/components/register.js:141-148 | The "employee" option the form offers is never created by the route it posts to. An authenticated employee gets 400 naming the role field. |
| EndToEnd.LoginLandsOnRolePage | APDS/frontend/src/components/login.js:40-63 | After a successful server login, the browser stores the issued token and the stored role and lands on that role's page, with no error. |
| EndToEnd.FailedLoginShowsMessage | APDS/frontend/src/components/login.js:64-68 | A 401 from login shows "Invalid credentials", stores nothing and goes nowhere. |
| EndToEnd.CreatedUserLandsOnCreatePage | APDS/BACKEND/server.mjs:251-324 | An account an employee creates logs in with its password and lands on `/create`. |

## Left out

- Process start-up: the environment-variable check, SSL file loading, `https.createServer` and `mongoose.connect` (`server.mjs` lines 16-49 and 360-363). `db/conn.mjs` is not part of this model: it only handles the connection and SIGINT.
- Middleware configured rather than designed here: CORS, helmet, `express.json`, cookie-parser, morgan and winston logging, the rate limiter and the HTTPS redirect.
- Concurrency: the gap between the `findOne` check and `save` is a check-then-insert race. Each request is one atomic step, so that race is not represented.
- Database and library failures other than a refused save. A throwing `findOne`, `bcrypt.hash` or `jwt.sign` would reach the 500 branches, and none of these is modelled.
- Library internals: bcrypt's salt (the hash is a function of the password), the signature and expiry checks inside `jwt.verify`, and the `iat` claim added by `jwt.sign`.
- Http.Payload: `Invalid(fields)` keeps only the set of failing field names of `{ errors: validationErrors.array() }` (`server.mjs` lines 183, 222, 261, 297). The messages (such as "Amount must be a number", lines 176-179), their order and duplicates are dropped.
- Accounts.Db: new ObjectIds come from a counter, in place of MongoDB's generator.
- Server.SubmitPayment: does not model `createdAt` (a clock read). It stores `amount` as received, without Mongoose's cast to a Number. It does not model Mongoose rejecting a token `id` that is not an ObjectId.
- Http.IsNumeric: every JSON number passes. The model does not render numbers to text before the check, and it does not follow express-validator's element-wise validation of arrays.
- Strings are sequences of characters, and lengths count characters rather than UTF-16 code units.
- LoginPage.Lower: folds ASCII letters only, where `toLowerCase` folds all of Unicode. The only non-ASCII character that lowers to an ASCII letter is the Kelvin sign, which lowers to "k", and none of "admin", "employee" or "user" contains a "k". So dispatch is unaffected.
- LoginPage.Capitalize: upper-cases ASCII letters only. Unicode case mappings that change length (such as "ß" to "SS") are not modelled.
- LoginPage.OnLogin: assumes the role in the answer is a string. A non-string role would make `charAt` throw after the token has been stored.
- RegisterForm.OnResponse: `setError(undefined)` (a server answer without `message`) is modelled as the empty string, which the component displays the same way.
- React rendering and hooks: the disabled state of the submit button, the `loading` spinner text, and the moment the login component sets `isLoading`/`errorMessage` before sending.
- `postList.js`, `postCreate.js` and `navbar.js` are not part of this model. They hold fetch plumbing, a token-presence check and static links. The older backend under `APDS Work New` (signup and login routes with a one-hour token expiry) is not part of this model either.

## Findings

| source | as written | input that shows it | evidently intended | confidence | as-written member | corrected member |
|---|---|---|---|---|---|---|
| APDS/BACKEND/server.mjs:63 | The seed hashes the raw `ADMIN_PASSWORD`, but login (lines 293 and 308) compares the trimmed and HTML-escaped password with that hash. | `ADMIN_PASSWORD="p&ssw0rd"`: login sends "p&ssw0rd", the sanitiser turns it into "p&amp;ssw0rd", and that does not match the hash of "p&ssw0rd". A leading or trailing space fails the same way. | The admin can log in with the configured password: the seed sanitises it as the creation routes do before hashing. | not executed; high, since the mismatch follows from the two code paths | ServerProps.SeedPasswordRejected | Server.SeedAdminSanitized |
