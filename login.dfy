/**
 * The /login handler: decode the credentials, check them against the
 * read-only user table, and on success issue a token for five minutes,
 * carried back in a cookie named "token".
 */
module LoginHandler {
  import opened Wrappers
  import opened Http
  import opened Jwt

  /** A user table entry: the plaintext password and the role. */
  datatype User = User(password: string, role: string)

  /** The request body, once decoded from JSON. */
  datatype Credentials = Credentials(username: string, password: string)

  /** Outcome of decoding the request body as JSON into Credentials. */
  datatype DecodeOutcome = DecodeErr | Decoded(creds: Credentials)

  /** The table of users the service knows, keyed by username. */
  const Users: map<string, User> :=
    map[
      "aditira" := User("password1", "admin"),
      "dito" := User("password2", "student")
    ]

  const TokenCookieName: string := "token"

  /** 5 * time.Minute, in nanoseconds. */
  const TokenLifetime: int := 5 * 60 * NanosPerSecond

  /** The same lifetime in the unit of the expiry claim: seconds. */
  const TokenLifetimeSeconds: int := 300

  /** The username is known and the submitted password equals the stored one, character for character. */
  predicate Authentic(users: map<string, User>, creds: Credentials)
  {
    creds.username in users && users[creds.username].password == creds.password
  }

  /**
   * The claims a successful login at time now is meant to sign: the
   * submitted username, the stored role, and an expiry 300 seconds after
   * now, in Unix seconds.
   */
  function IssuedClaims(users: map<string, User>, creds: Credentials, now: Instant): Claims
    requires creds.username in users
  {
    Claims(creds.username, users[creds.username].role, UnixSeconds(now) + TokenLifetimeSeconds)
  }

  /**
   * The /login handler at time now, given the decoded body, the user table
   * and the signing library.
   */
  function Login(users: map<string, User>, body: DecodeOutcome, now: Instant, sign: Claims -> SignOutcome): (r: Response)
    // an undecodable body is refused before any lookup or signing
    ensures body.DecodeErr? ==> r == Response(StatusBadRequest, "", None)
    // bad credentials are refused, and nothing is signed for them
    ensures r.status == StatusUnauthorized <==> body.Decoded? && !Authentic(users, body.creds)
    ensures body.Decoded? && !Authentic(users, body.creds) ==> r == Response(StatusUnauthorized, "", None)
    // good credentials: the outcome is the outcome of signing the issued claims
    ensures r.status == StatusInternalServerError <==>
              body.Decoded? && Authentic(users, body.creds) && sign(IssuedClaims(users, body.creds, now)).SignErr?
    ensures r.status == StatusOK <==>
              body.Decoded? && Authentic(users, body.creds) && sign(IssuedClaims(users, body.creds, now)).SignOk?
    ensures r.status in {StatusOK, StatusBadRequest, StatusUnauthorized, StatusInternalServerError}
    ensures r.body == ""
    // a cookie is set exactly on success, and it carries the signed token until the claims expire
    ensures r.setCookie.Some? <==> r.status == StatusOK
    ensures r.setCookie.Some? ==>
              && body.Decoded? && Authentic(users, body.creds)
              && r.setCookie.value.name == TokenCookieName
              && SignOk(r.setCookie.value.value) == sign(IssuedClaims(users, body.creds, now))
              && r.setCookie.value.expires == now + TokenLifetime
              && UnixSeconds(r.setCookie.value.expires) == IssuedClaims(users, body.creds, now).expiresAt
  {
    match body
    case DecodeErr => HeaderOnly(StatusBadRequest)
    case Decoded(creds) =>
      if creds.username !in users || users[creds.username].password != creds.password then
        HeaderOnly(StatusUnauthorized)
      else
        var expected := users[creds.username];
        var expirationTime := now + TokenLifetime;
        var claims := Claims(creds.username, expected.role, UnixSeconds(expirationTime));
        match sign(claims)
        case SignErr => HeaderOnly(StatusInternalServerError)
        case SignOk(tokenString) =>
          Response(StatusOK, "", Some(Cookie(TokenCookieName, tokenString, expirationTime)))
  }

  /**
   * The expiry the handler writes into the claims, Unix() of now plus five
   * minutes, is the expiry stated in seconds: now's Unix seconds + 300
   * (not milliseconds).
   */
  lemma ExpiryIsFiveMinutesInSeconds(users: map<string, User>, creds: Credentials, now: Instant)
    requires creds.username in users
    ensures IssuedClaims(users, creds, now).expiresAt == UnixSeconds(now + TokenLifetime)
  {
  }

  /**
   * The handler reads one entry of the user table only: two tables that
   * agree on the submitted username give the same response.
   */
  lemma LoginReadsOnlyOwnEntry(users1: map<string, User>, users2: map<string, User>, body: DecodeOutcome, now: Instant, sign: Claims -> SignOutcome)
    requires body.Decoded?
    requires body.creds.username in users1 <==> body.creds.username in users2
    requires body.creds.username in users1 ==> users1[body.creds.username] == users2[body.creds.username]
    ensures Login(users1, body, now, sign) == Login(users2, body, now, sign)
  {
  }
}
