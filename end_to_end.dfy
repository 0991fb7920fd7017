/**
 * Whole requests against the service's own user table: a login, then the
 * cookie it sets presented to /admin or /profile. What the token library
 * does with a token is not modelled; each scenario states, as a
 * precondition, the outcome of signing and parsing it relies on.
 */
module EndToEnd {
  import opened Wrappers
  import opened Http
  import opened Jwt
  import opened LoginHandler
  import opened ProtectedRoutes

  /** The cookie read on the next request, when the client sends back the cookie a response set. */
  function CookieSentBack(r: Response): CookieRead
  {
    if r.setCookie.Some? then CookieValue(r.setCookie.value.value) else NoCookie
  }

  /**
   * aditira logs in with password1 and, if the library parses the signed
   * token back into the claims it was given and finds it valid, /admin
   * welcomes aditira as admin.
   */
  lemma AdminLoginReachesAdmin(now: Instant, sign: Claims -> SignOutcome, parse: string -> ParseOutcome, token: string)
    requires sign(Claims("aditira", "admin", UnixSeconds(now) + 300)) == SignOk(token)
    requires parse(token) == Parsed(Claims("aditira", "admin", UnixSeconds(now) + 300), true)
    ensures Login(Users, Decoded(Credentials("aditira", "password1")), now, sign).status == StatusOK
    ensures AdminResp(CookieSentBack(Login(Users, Decoded(Credentials("aditira", "password1")), now, sign)), parse)
            == Response(StatusOK, "Welcome Admin aditira!", None)
  {
  }

  /**
   * dito logs in with password2; with the same library behaviour, /admin
   * refuses the token with 401 (its role is "student") and /profile
   * welcomes dito.
   */
  lemma StudentLoginReachesOnlyProfile(now: Instant, sign: Claims -> SignOutcome, parse: string -> ParseOutcome, token: string)
    requires sign(Claims("dito", "student", UnixSeconds(now) + 300)) == SignOk(token)
    requires parse(token) == Parsed(Claims("dito", "student", UnixSeconds(now) + 300), true)
    ensures Login(Users, Decoded(Credentials("dito", "password2")), now, sign).status == StatusOK
    ensures AdminResp(CookieSentBack(Login(Users, Decoded(Credentials("dito", "password2")), now, sign)), parse)
            == Response(StatusUnauthorized, "", None)
    ensures ProfileResp(CookieSentBack(Login(Users, Decoded(Credentials("dito", "password2")), now, sign)), parse)
            == Response(StatusOK, "Welcome dito!", None)
  {
  }

  /**
   * A wrong password or an unknown user gets 401 and no cookie, so the
   * next request carries no token and /profile refuses it with 401.
   */
  lemma BadLoginLeavesNoToken(now: Instant, sign: Claims -> SignOutcome, parse: string -> ParseOutcome, username: string, password: string)
    requires username !in Users || Users[username].password != password
    ensures Login(Users, Decoded(Credentials(username, password)), now, sign) == Response(StatusUnauthorized, "", None)
    ensures ProfileResp(CookieSentBack(Login(Users, Decoded(Credentials(username, password)), now, sign)), parse)
            == Response(StatusUnauthorized, "", None)
  {
  }

  /** Passwords are matched exactly: aditira's password with dito's name is refused. */
  lemma PasswordsAreNotShared(now: Instant, sign: Claims -> SignOutcome)
    ensures Login(Users, Decoded(Credentials("dito", "password1")), now, sign).status == StatusUnauthorized
    ensures Login(Users, Decoded(Credentials("aditira", "password2")), now, sign).status == StatusUnauthorized
    ensures Login(Users, Decoded(Credentials("Aditira", "password1")), now, sign).status == StatusUnauthorized
  {
  }

  /** Of the two users in the table, only aditira holds the admin role. */
  lemma OnlyAditiraIsAdmin(username: string)
    requires username in Users && Users[username].role == AdminRole
    ensures username == "aditira"
  {
  }
}
