/** The two middlewares in front of every protected route: `authenticateToken`, which reads the
    bearer token, and `validateUserRole`, which compares the token's role with an allowed list. */
module Auth {
  import opened Wrappers
  import opened Libraries
  import opened Accounts
  import opened Http
  import opened Bearer

  /** `fields.join(sep)`. */
  function Join(fields: seq<string>, sep: char): string
    requires |fields| >= 1
  {
    if |fields| == 1 then fields[0] else fields[0] + [sep] + Join(fields[1..], sep)
  }

  /** `s.split(sep)` for a one-character separator: the fields between separators, in order,
      including empty ones. Joining them back gives `s`, and no field holds a separator. */
  function Split(s: string, sep: char): (fields: seq<string>)
    ensures |fields| >= 1
    ensures Join(fields, sep) == s
    ensures forall i | 0 <= i < |fields| :: sep !in fields[i]
    decreases |s|
  {
    if |s| == 0 then [""]
    else
      var rest := Split(s[1..], sep);
      if s[0] == sep then
        assert ([""] + rest)[1..] == rest;
        [""] + rest
      else
        var fields := [[s[0]] + rest[0]] + rest[1..];
        assert fields[1..] == rest[1..];
        fields
  }

  /** The first field of `s.split(sep)` is the longest prefix of `s` without a separator. */
  lemma FirstField(s: string, sep: char)
    ensures var f := Split(s, sep)[0];
      && f <= s
      && sep !in f
      && (|f| < |s| ==> s[|f|] == sep)
  {
  }

  /** A separator ends the first field and the split carries on after it. */
  lemma {:induction false} SplitAfterSeparator(w: string, sep: char, t: string)
    requires sep !in w
    ensures Split(w + [sep] + t, sep) == [w] + Split(t, sep)
    decreases |w|
  {
    if |w| == 0 {
      assert (w + [sep] + t)[1..] == t;
    } else {
      assert (w + [sep] + t)[1..] == w[1..] + [sep] + t;
      SplitAfterSeparator(w[1..], sep, t);
      assert [w[0]] + w[1..] == w;
    }
  }

  /** `authHeader && authHeader.startsWith('Bearer ')`. */
  predicate IsBearer(authorization: Option<string>)
  {
    authorization.Some? && BearerPrefix <= authorization.value
  }

  /** The prefix test agrees with reading the header as words: a header starts with "Bearer "
      exactly when its first space-separated word is "Bearer" and a second word follows. */
  lemma IsBearerByWords(header: string)
    ensures IsBearer(Some(header)) <==>
      |Split(header, ' ')| >= 2 && Split(header, ' ')[0] == "Bearer"
  {
    var fields := Split(header, ' ');
    if BearerPrefix <= header {
      assert header == "Bearer" + [' '] + header[|BearerPrefix|..];
      SplitAfterSeparator("Bearer", ' ', header[|BearerPrefix|..]);
    }
    if |fields| >= 2 && fields[0] == "Bearer" {
      assert header == "Bearer" + [' '] + Join(fields[1..], ' ');
      assert header[..|BearerPrefix|] == BearerPrefix;
    }
  }

  /** `authHeader.split(' ')[1]`: what follows "Bearer " up to the next space, so the rest of the
      header is ignored. */
  function TokenOf(header: string): (token: string)
    requires BearerPrefix <= header
    ensures var rest := header[|BearerPrefix|..];
      && token <= rest
      && ' ' !in token
      && (|token| < |rest| ==> rest[|token|] == ' ')
  {
    var rest := header[|BearerPrefix|..];
    assert header == "Bearer" + [' '] + rest;
    SplitAfterSeparator("Bearer", ' ', rest);
    FirstField(rest, ' ');
    Split(header, ' ')[1]
  }

  /** `req.user` as `authenticateToken` sets it. */
  datatype AuthUser = AuthUser(id: Option<ObjectId>, accountNumber: Option<string>, role: Option<string>)

  const TokenMissing := Response(401, Message("Access denied. Token missing."))
  const InvalidToken := Response(401, Message("Invalid token."))

  /** `authenticateToken`: either the request goes on with `req.user` set, or it ends with 401. */
  function Authenticate(libs: Libs, authorization: Option<string>): (r: Result<AuthUser, Response>)
    ensures r == Failure(TokenMissing) <==> !IsBearer(authorization)
    ensures r == Failure(InvalidToken) <==>
      IsBearer(authorization) && libs.verify(TokenOf(authorization.value)).None?
    ensures r.Success? <==>
      IsBearer(authorization) && libs.verify(TokenOf(authorization.value)).Some?
    ensures r.Success? ==>
      var c := libs.verify(TokenOf(authorization.value)).value;
      r.value == AuthUser(c.id, c.accountNumber, c.role)
  {
    if !IsBearer(authorization) then Failure(TokenMissing)
    else
      match libs.verify(TokenOf(authorization.value))
      case None => Failure(InvalidToken)
      case Some(c) => Success(AuthUser(c.id, c.accountNumber, c.role))
  }

  /** Only the first word after "Bearer " reaches `jwt.verify`: anything after a further space
      does not change the outcome. */
  lemma AuthenticateIgnoresTrailingFields(libs: Libs, t: string, junk: string)
    requires ' ' !in t
    ensures Authenticate(libs, Some(BearerPrefix + t + " " + junk))
         == Authenticate(libs, Some(BearerPrefix + t))
  {
    var long := BearerPrefix + t + " " + junk;
    assert long[|BearerPrefix|..] == t + " " + junk;
    assert (BearerPrefix + t)[|BearerPrefix|..] == t;
    var a := TokenOf(long);
    var b := TokenOf(BearerPrefix + t);
    assert (t + " " + junk)[|t|] == ' ';
    assert a == t;
    assert b == t;
  }

  const NotAuthenticated := Response(401, Message("User not authenticated"))
  const PermissionDenied := Response(403, Message("Permission denied"))

  /** `validateUserRole(allowedRoles)`: `None` lets the request through. */
  function ValidateUserRole(allowed: set<Role>, user: Option<AuthUser>): (r: Option<Response>)
    ensures user.None? ==> r == Some(NotAuthenticated)
    ensures user.Some? ==>
      (r.None? <==> exists ro | ro in allowed :: user.value.role == Some(RoleName(ro)))
    ensures user.Some? && r.Some? ==> r == Some(PermissionDenied)
  {
    match user
    case None => Some(NotAuthenticated)
    case Some(u) =>
      if u.role.Some? && ParseRole(u.role.value).Some? && ParseRole(u.role.value).value in allowed
      then None
      else Some(PermissionDenied)
  }

  /** The gate reads nothing of the user but the role. */
  lemma GateReadsOnlyRole(allowed: set<Role>, u: AuthUser, v: AuthUser)
    requires u.role == v.role
    ensures ValidateUserRole(allowed, Some(u)) == ValidateUserRole(allowed, Some(v))
  {
  }
}
