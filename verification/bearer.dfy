/** The `Authorization: Bearer <token>` header of section 2.1 of RFC 6750, written by the browser
    and read by the server. */
module Bearer {

  const BearerPrefix := "Bearer "

  function BearerHeader(token: string): string
  {
    BearerPrefix + token
  }
}
