/** Requests and responses of the Express server, and express-validator's field checks. */
module Http {
  import opened Wrappers
  import opened Libraries
  import opened Accounts

  /** The parts of a request the routes read: the `Authorization` header and the JSON body. */
  datatype Request = Request(authorization: Option<string>, body: map<string, Json>)

  /** The JSON a route answers with. `Invalid` lists the fields `validationResult` reported. */
  datatype Payload =
    | Message(text: string)
    | Invalid(fields: set<string>)
    | LoggedIn(token: string, role: string)
    | PaymentSubmitted(message: string, payment: Payment)

  datatype Response = Response(status: nat, payload: Payload)

  /** `body(f).isString()` passes. */
  predicate IsString(body: map<string, Json>, f: string)
  {
    f in body && body[f].Str?
  }

  /** `body(f).isNumeric()` passes: a JSON number, or a string the validator accepts. */
  predicate IsNumeric(libs: Libs, body: map<string, Json>, f: string)
  {
    f in body && (body[f].Num? || (body[f].Str? && libs.isNumeric(body[f].s)))
  }

  /** The fields among `fs` that fail `isString()`. */
  function NonStrings(body: map<string, Json>, fs: set<string>): (r: set<string>)
    ensures forall f | f in fs :: f in r <==> !IsString(body, f)
    ensures r <= fs
  {
    set f | f in fs && !IsString(body, f)
  }
}
