/** Authorization/jwtManager.go: what a token claims and when it validates. The signature is abstract:
    a presented string verifies exactly when the service itself issued it. */
module Jwt {
  import opened Wrappers
  import opened Decimal

  const DAY: int := 86_400
  const ACCESS_LIFETIME: int := 900
  const REFRESH_LIFETIME: int := 14 * DAY

  datatype TokenType = Access | Refresh

  datatype Claims = Claims(
    sub: string,
    email: string,
    firstName: string,
    lastName: string,
    country: string,
    tokenType: TokenType,
    nonce: string,
    sid: string,
    aud: seq<string>,
    iat: int,
    exp: int)

  /** A token that left the service, with the refresh token it was obtained with, if any. */
  datatype Grant = Grant(claims: Claims, parent: Option<string>)

  type Issued = map<string, Grant>

  function Lifetime(t: TokenType): int {
    if t.Access? then ACCESS_LIFETIME else REFRESH_LIFETIME
  }

  /** The payload GenerateJWTToken signs. */
  function NewClaims(userId: int64, email: string, firstName: string, lastName: string, t: TokenType,
                     now: int, nonce: string, sid: string, country: string, audience: string): Claims {
    Claims(FormatInt(userId), email, firstName, lastName, country, t, nonce, sid, [audience], now,
           now + Lifetime(t))
  }

  /** ValidateToken at the given time. */
  function Validate(issued: Issued, now: int, token: string): Option<Claims> {
    if token in issued && issued[token].claims.iat <= now < issued[token].claims.exp then
      Some(issued[token].claims)
    else None
  }
}
