/**
  * The JSON Web Token library, as the router uses it. Parsing a token's header and
  * verifying its signature and expiry are supplied by the caller: the service never
  * looks inside them.
  */
module Jwt {
  import opened Results

  /** A JSON Web Key (section 4 of RFC 7517), as its string-valued members. */
  type Jwk = map<string, string>

  /** A token's JOSE header (section 4 of RFC 7515), as its string-valued members. */
  type JoseHeader = map<string, string>

  /** The claims of a verified token. */
  type Claims = map<string, string>

  /**
    * `unverifiedHeader(token)` is `jwt.get_unverified_header(token)`, or `None` when
    * that raises. `decode(token, key)` is the RS256 verification of `token` against
    * `key` (conversion of the key to PEM form, signature and expiry checks), or
    * `None` when any of those raises.
    */
  datatype JwtLib = JwtLib(
    unverifiedHeader: string -> Option<JoseHeader>,
    decode: (string, Jwk) -> Option<Claims>)
}
