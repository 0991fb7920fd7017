/**
 * The token library seen from the handlers. Signing (HS256 with the fixed
 * key) and parsing with validation are not part of this model: the
 * handlers only see their outcomes, which are given here as data.
 */
module Jwt {

  /**
   * The claims the handlers put into and read out of a token: the user, the
   * role, and the expiry in Unix seconds (the only standard claim set).
   */
  datatype Claims = Claims(username: string, role: string, expiresAt: int)

  /** Outcome of jwt.NewWithClaims(HS256, claims).SignedString(key). */
  datatype SignOutcome = SignOk(token: string) | SignErr

  /**
   * Outcome of jwt.ParseWithClaims(tokenString, &claims, keyFunc): an error
   * equal to the jwt.ErrSignatureInvalid sentinel, any other error, or the
   * claims it filled in together with the token's Valid flag.
   */
  datatype ParseOutcome = SigInvalidErr | OtherParseErr | Parsed(claims: Claims, valid: bool)
}
