/** The `Register` component: the admin flag derived from the stored token, the two field
    validators, and the ordered checks of `handleSubmit` with what each response does to the form. */
module RegisterForm {
  import opened Wrappers
  import opened Libraries
  import opened Bearer

  predicate IsDigit(c: char)
  {
    '0' <= c <= '9'
  }

  /** What `/^\d{10}$/` accepts: exactly ten ASCII digits and nothing else. */
  predicate IsAccountNumber(s: string)
  {
    |s| == 10 && forall i | 0 <= i < |s| :: IsDigit(s[i])
  }

  /** `validateAccountNumber`: the anchored match of `\d{10}`, as a left-to-right scan. Its
      contract says it decides `IsAccountNumber`, which is what `HandleSubmit` checks. */
  method ValidateAccountNumber(account: string) returns (ok: bool)
    ensures ok <==> IsAccountNumber(account)
  {
    var n := 0;
    while n < |account| && IsDigit(account[n])
      invariant 0 <= n <= |account|
      invariant forall i | 0 <= i < n :: IsDigit(account[i])
    {
      n := n + 1;
    }
    ok := n == |account| && n == 10;
  }

  /** `validatePassword`: at least eight characters. */
  predicate ValidatePassword(pwd: string)
  {
    |pwd| >= 8
  }

  datatype Form = Form(
    fullName: string,
    idNumber: string,
    accountNumber: string,
    password: string,
    role: string,
    error: string,
    success: string,
    loading: bool,
    isAdmin: bool)

  /** The `useState` initial values. */
  const Initial := Form("", "", "", "", "user", "", "", false, false)

  /** The two roles the form's `<select>` offers. */
  const RoleOptions: seq<string> := ["user", "employee"]

  const SessionError := "Invalid session. Please log in again."

  /** The `useEffect` on the token: decode it, and set `isAdmin` to whether its role is exactly
      "admin"; an undecodable token sets the session error and leaves `isAdmin` alone. */
  function CheckSession(libs: Libs, token: Option<string>, form: Form): (r: Form)
    ensures !Truthy(token) ==> r == form
    ensures Truthy(token) && libs.decode(token.value).None? ==>
      r.error == SessionError && r.isAdmin == form.isAdmin
    ensures Truthy(token) && libs.decode(token.value).Some? ==>
      (r.isAdmin <==> libs.decode(token.value).value.role == Some("admin")) && r.error == form.error
    ensures r.(isAdmin := form.isAdmin, error := form.error) == form
  {
    if !Truthy(token) then form
    else
      match libs.decode(token.value)
      case None => form.(error := SessionError)
      case Some(claims) => form.(isAdmin := claims.role == Some("admin"))
  }

  const NoPermission := "You do not have permission to create a new account."
  const BadAccountNumber := "Account number must be a 10-digit number"
  const ShortPassword := "Password must be at least 8 characters"

  /** The route `handleSubmit` posts to. */
  const CreateUserPath := "/api/employee/create-user"

  /** Either nothing is sent and the form shows why, or one request goes out. */
  datatype Submission =
    | Blocked(form: Form)
    | Posted(form: Form, path: string, authorization: string, body: map<string, Json>)

  /** `` `Bearer ${token}` ``: a missing token prints as "null". */
  function AuthorizationFor(token: Option<string>): string
  {
    BearerHeader(if token.Some? then token.value else "null")
  }

  /** `handleSubmit` up to the request: the permission check first, then the account number, then
      the password; a failed check sets its own message and sends nothing. */
  function HandleSubmit(form: Form, token: Option<string>): (r: Submission)
    ensures !form.isAdmin ==> r == Blocked(form.(error := NoPermission))
    ensures form.isAdmin && !IsAccountNumber(form.accountNumber) ==>
      r == Blocked(form.(error := BadAccountNumber))
    ensures form.isAdmin && IsAccountNumber(form.accountNumber) && !ValidatePassword(form.password) ==>
      r == Blocked(form.(error := ShortPassword))
    ensures r.Posted? <==>
      form.isAdmin && IsAccountNumber(form.accountNumber) && ValidatePassword(form.password)
    ensures r.Posted? ==>
      && r.path == CreateUserPath
      && r.authorization == AuthorizationFor(token)
      && r.form == form.(loading := true, error := "", success := "")
      && r.body == map["fullName" := Str(form.fullName), "idNumber" := Str(form.idNumber),
                       "accountNumber" := Str(form.accountNumber), "password" := Str(form.password),
                       "role" := Str(form.role)]
  {
    if !form.isAdmin then Blocked(form.(error := NoPermission))
    else if !IsAccountNumber(form.accountNumber) then Blocked(form.(error := BadAccountNumber))
    else if !ValidatePassword(form.password) then Blocked(form.(error := ShortPassword))
    else
      Posted(form.(loading := true, error := "", success := ""), CreateUserPath, AuthorizationFor(token),
             map["fullName" := Str(form.fullName), "idNumber" := Str(form.idNumber),
                 "accountNumber" := Str(form.accountNumber), "password" := Str(form.password),
                 "role" := Str(form.role)])
  }

  /** `err.response.data`, as far as the component reads it. */
  datatype ErrorData = ErrorData(message: Option<string>)
  datatype ErrorResponse = ErrorResponse(data: Option<ErrorData>)

  /** What `axios.post` does: resolve with a 2xx status, or reject with or without a response. */
  datatype PostResult = Answered(status: nat) | Rejected(response: Option<ErrorResponse>)

  const Created := "User successfully created"
  const RegistrationFailed := "An error occurred during registration"

  /** The entered fields are as in `form`. */
  predicate SameFields(form: Form, other: Form)
  {
    && other.fullName == form.fullName && other.idNumber == form.idNumber
    && other.accountNumber == form.accountNumber && other.password == form.password
    && other.role == form.role
  }

  /** The rest of `handleSubmit`: a 201 clears every field, puts the role back to "user" and clears
      the error; a failure shows the server's message (an absent one shows as empty) or a generic
      text when there is no response body, and clears the success text. */
  function OnResponse(form: Form, result: PostResult): (r: Form)
    ensures !r.loading && r.isAdmin == form.isAdmin
    ensures result == Answered(201) ==>
      && r.fullName == "" && r.idNumber == "" && r.accountNumber == "" && r.password == ""
      && r.role == "user" && r.error == "" && r.success == Created
    ensures result.Answered? && result.status != 201 ==> r == form.(loading := false)
    ensures result.Rejected? ==> SameFields(form, r) && r.success == ""
    ensures result.Rejected? && result.response.Some? && result.response.value.data.Some? ==>
      r.error == (match result.response.value.data.value.message case Some(m) => m case None => "")
    ensures result.Rejected? && (result.response.None? || result.response.value.data.None?) ==>
      r.error == RegistrationFailed
  {
    match result
    case Answered(status) =>
      if status == 201 then
        form.(success := Created, error := "", fullName := "", idNumber := "", accountNumber := "",
              password := "", role := "user", loading := false)
      else form.(loading := false)
    case Rejected(response) =>
      var error :=
        if response.Some? && response.value.data.Some? then
          match response.value.data.value.message case Some(m) => m case None => ""
        else RegistrationFailed;
      form.(error := error, success := "", loading := false)
  }

  /** Starting from a fresh form, the admin flag is set exactly when a stored token decodes to the
      role "admin"; a token that does not decode leaves it false and reports the session. */
  lemma AdminFlagFromToken(libs: Libs, token: Option<string>)
    ensures var f := CheckSession(libs, token, Initial);
      && (f.isAdmin <==> Truthy(token) && libs.decode(token.value).Some?
                         && libs.decode(token.value).value.role == Some("admin"))
      && (Truthy(token) && libs.decode(token.value).None? ==> !f.isAdmin && f.error == SessionError)
  {
  }

  /** Whatever the fields hold, a form without the admin flag never sends a request. */
  lemma NonAdminNeverPosts(form: Form, token: Option<string>)
    requires !form.isAdmin
    ensures HandleSubmit(form, token).Blocked?
    ensures HandleSubmit(form, token).form.error == NoPermission
  {
  }

  /** Past the permission and account-number checks, only the password's length decides whether
      the request goes out: at least eight characters send it, and two passwords of the same
      length are treated alike whatever their characters. */
  lemma PasswordOnlyLengthMatters(form: Form, token: Option<string>, other: string)
    requires form.isAdmin && IsAccountNumber(form.accountNumber)
    ensures HandleSubmit(form, token).Posted? <==> |form.password| >= 8
    ensures |other| == |form.password| ==>
      HandleSubmit(form.(password := other), token).Posted? == HandleSubmit(form, token).Posted?
  {
  }
}
