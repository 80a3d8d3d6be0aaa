/** The third-party code the server and the browser call: bcrypt, jsonwebtoken, jwt-decode and
    express-validator's sanitisers. None of it is interpreted; the model is parameterised by a
    `Libs` value holding one function per library call, constrained only by `Sound`. */
module Libraries {
  import opened Wrappers

  /** A MongoDB `_id`. */
  type ObjectId = nat

  /** A JSON value as it arrives in a request body. `Other` is a boolean, `null`, an array or an
      object: none of those is a string, and none passes `isNumeric`. */
  datatype Json = Str(s: string) | Num(n: real) | Other

  /** The claim set a JSON Web Token carries; a claim the token lacks is `None`. */
  datatype Claims = Claims(
    id: Option<ObjectId>,
    accountNumber: Option<string>,
    role: Option<string>,
    issuedAt: Option<int>)

  datatype Libs = Libs(
    hash: string -> string,             // bcrypt.hash(plain, 10)
    compare: (string, string) -> bool,  // bcrypt.compare(plain, hash)
    sign: Claims -> string,             // jwt.sign(claims, JWT_SECRET)
    verify: string -> Option<Claims>,   // jwt.verify(token, JWT_SECRET); None where it throws
    decode: string -> Option<Claims>,   // jwtDecode(token) in the browser; None where it throws
    trim: string -> string,             // express-validator trim()
    escape: string -> string,           // express-validator escape()
    isNumeric: string -> bool           // express-validator isNumeric()
  )

  /** What the model assumes of the libraries: a password matches its own hash, and neither a
      bcrypt hash nor a signed token is ever the empty string. */
  ghost predicate Sound(libs: Libs)
  {
    && (forall p :: libs.compare(p, libs.hash(p)))
    && (forall p :: libs.hash(p) != "")
    && (forall c :: libs.sign(c) != "")
  }

  /** `.trim().escape()`, the sanitiser chain every account and login field goes through. */
  function Sanitize(libs: Libs, s: string): string
  {
    libs.escape(libs.trim(s))
  }
}
