/** The `Login` component: the redirect of a visitor who already holds a token, and what
    `handleSubmit` does with the answer to `POST /api/login`. */
module LoginPage {
  import opened Wrappers
  import opened Bearer

  /** `localStorage` and the `Authorization` header axios adds to later requests. */
  datatype Browser = Browser(storage: map<string, string>, authorization: Option<string>)

  /** The `useEffect` run on mount: a present, non-empty `jwtToken` sends the visitor on. */
  function OnMount(storage: map<string, string>): (target: Option<string>)
    ensures target.Some? <==> "jwtToken" in storage && storage["jwtToken"] != ""
    ensures target.Some? ==> target.value == "/dashboard"
  {
    if "jwtToken" in storage && storage["jwtToken"] != "" then Some("/dashboard") else None
  }

  function LowerChar(c: char): char
  {
    if 'A' <= c <= 'Z' then (c as int + 32) as char else c
  }

  function UpperChar(c: char): char
  {
    if 'a' <= c <= 'z' then (c as int - 32) as char else c
  }

  /** `s.toLowerCase()` on ASCII letters: the same string, letter for letter, with no upper-case
      letter left and every character equal to the original up to case. */
  function Lower(s: string): (r: string)
    ensures |r| == |s|
    ensures forall i | 0 <= i < |r| :: !('A' <= r[i] <= 'Z')
    ensures forall i | 0 <= i < |r| :: UpperChar(r[i]) == UpperChar(s[i])
  {
    seq(|s|, i requires 0 <= i < |s| => LowerChar(s[i]))
  }

  /** `s.charAt(0).toUpperCase() + s.slice(1)` on ASCII letters. */
  function Capitalize(s: string): (r: string)
    ensures |r| == |s|
    ensures |s| > 0 ==> r[0] == UpperChar(s[0]) && r[1..] == s[1..]
  {
    if |s| == 0 then "" else [UpperChar(s[0])] + s[1..]
  }

  predicate IsLowerWord(t: string)
  {
    forall i | 0 <= i < |t| :: 'a' <= t[i] <= 'z'
  }

  /** `s` spells the lower-case word `t` with any of its letters in upper case. */
  predicate SpellsIgnoringCase(s: string, t: string)
  {
    |s| == |t| && forall i | 0 <= i < |s| :: s[i] == t[i] || s[i] == UpperChar(t[i])
  }

  /** `s.toLowerCase() === t` for a lower-case word `t` holds exactly when `s` is `t` in any mix
      of cases. */
  lemma LowerMatchesIgnoringCase(s: string, t: string)
    requires IsLowerWord(t)
    ensures Lower(s) == t <==> SpellsIgnoringCase(s, t)
  {
  }

  /** Capitalising the first letter does not change how a role dispatches. */
  lemma LowerOfCapitalize(s: string)
    ensures Lower(Capitalize(s)) == Lower(s)
  {
  }

  /** The role-to-page table of `handleSubmit`; `None` for a role it does not know. */
  function Destination(role: string): (target: Option<string>)
    ensures target == Some("/admin-dashboard") <==> Lower(role) == "admin"
    ensures target == Some("/employee-dashboard") <==> Lower(role) == "employee"
    ensures target == Some("/create") <==> Lower(role) == "user"
    ensures target.None? <==> Lower(role) !in {"admin", "employee", "user"}
  {
    if Lower(role) == "admin" then Some("/admin-dashboard")
    else if Lower(role) == "employee" then Some("/employee-dashboard")
    else if Lower(role) == "user" then Some("/create")
    else None
  }

  /** Dispatch ignores case: "Admin", "ADMIN" and "admin" all reach the admin dashboard. */
  lemma DestinationIgnoresCase(a: string, b: string)
    requires Lower(a) == Lower(b)
    ensures Destination(a) == Destination(b)
    ensures Destination("Admin") == Destination("ADMIN") == Destination("admin") == Some("/admin-dashboard")
  {
  }

  /** `response.data` of a resolved login request. */
  datatype LoginData = LoginData(token: Option<string>, role: Option<string>)

  /** How the login request ends: resolved, rejected with a server response (carrying
      `data.message` or not), rejected with no response, or failed before sending. */
  datatype LoginResult =
    | Resolved(data: LoginData)
    | ServerError(message: Option<string>)
    | NoResponse
    | SetupError

  datatype Effect = Effect(
    browser: Browser,
    errorMessage: string,
    isLoading: bool,
    alert: Option<string>,
    navigate: Option<string>)

  const MissingTokenOrRole := "Missing token or role in response. Please check the backend."
  const UnknownRole := "Unrecognized user role."

  /** `handleSubmit` after the request: check the answer, store the token and role, announce the
      login, and go to the role's page. */
  function OnLogin(browser: Browser, result: LoginResult): (e: Effect)
    ensures !e.isLoading
    // nothing is stored and nobody is sent anywhere unless both token and role came back
    ensures !(result.Resolved? && Truthy(result.data.token) && Truthy(result.data.role)) ==>
      e.browser == browser && e.navigate.None? && e.alert.None?
    ensures result.Resolved? && !(Truthy(result.data.token) && Truthy(result.data.role)) ==>
      e.errorMessage == MissingTokenOrRole
    // a good answer is stored before any page is shown
    ensures e.navigate.Some? ==>
      && result.Resolved?
      && "jwtToken" in e.browser.storage && Some(e.browser.storage["jwtToken"]) == result.data.token
      && "role" in e.browser.storage && Some(e.browser.storage["role"]) == result.data.role
    ensures result.Resolved? && Truthy(result.data.token) && Truthy(result.data.role) ==>
      var token := result.data.token.value;
      var role := result.data.role.value;
      && e.browser.storage == browser.storage["jwtToken" := token]["role" := role]
      && e.browser.authorization == Some(BearerHeader(token))
      && e.alert == Some(Capitalize(role) + " login was successful")
      && e.navigate == Destination(role)
      && e.errorMessage == (if Destination(role).None? then UnknownRole else "")
    // the messages of a failed request
    ensures result.ServerError? ==>
      e.errorMessage == (if Truthy(result.message) then result.message.value else "Login failed")
    ensures result.NoResponse? ==> e.errorMessage == "Login successful."
    ensures result.SetupError? ==> e.errorMessage == "An error occurred during login"
  {
    match result
    case Resolved(data) =>
      if !Truthy(data.token) || !Truthy(data.role) then
        Effect(browser, MissingTokenOrRole, false, None, None)
      else
        var token := data.token.value;
        var role := data.role.value;
        var stored := Browser(browser.storage["jwtToken" := token]["role" := role], Some(BearerHeader(token)));
        var alert := Some(Capitalize(role) + " login was successful");
        if Destination(role).Some? then Effect(stored, "", false, alert, Destination(role))
        else Effect(stored, UnknownRole, false, alert, None)
    case ServerError(message) =>
      Effect(browser, if Truthy(message) then message.value else "Login failed", false, None, None)
    case NoResponse => Effect(browser, "Login successful.", false, None, None)
    case SetupError => Effect(browser, "An error occurred during login", false, None, None)
  }

  /** A login the page accepts is remembered: on the next mount the visitor is sent on, whatever
      role came back. Any other answer leaves the next mount's decision as it was. */
  lemma LoginThenMountRedirects(browser: Browser, result: LoginResult)
    ensures result.Resolved? && Truthy(result.data.token) && Truthy(result.data.role) ==>
      OnMount(OnLogin(browser, result).browser.storage) == Some("/dashboard")
    ensures !(result.Resolved? && Truthy(result.data.token) && Truthy(result.data.role)) ==>
      OnMount(OnLogin(browser, result).browser.storage) == OnMount(browser.storage)
  {
  }
}
