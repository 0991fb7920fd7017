/**
 * The /admin and /profile handlers: read the "token" cookie, parse and
 * validate the token, and (on /admin) require the role "admin". Each check
 * ends the request with its own status when it fails; later checks are
 * not reached.
 */
module ProtectedRoutes {
  import opened Wrappers
  import opened Http
  import opened Jwt

  const AdminRole: string := "admin"

  function AdminBody(username: string): string
  {
    "Welcome Admin " + username + "!"
  }

  function ProfileBody(username: string): string
  {
    "Welcome " + username + "!"
  }

  /** The /admin handler, given the cookie read and the token library's parse. */
  function AdminResp(cookie: CookieRead, parse: string -> ParseOutcome): (r: Response)
    ensures r.setCookie.None?
    ensures r.status in {StatusOK, StatusBadRequest, StatusUnauthorized}
    // 400: the cookie could not be read for a reason other than its absence, or the token did not parse for a reason other than its signature
    ensures r.status == StatusBadRequest <==>
              cookie.OtherCookieErr? || (cookie.CookieValue? && parse(cookie.value).OtherParseErr?)
    // 200: every check passes, the last one being an exact match of the role
    ensures r.status == StatusOK <==>
              && cookie.CookieValue? && parse(cookie.value).Parsed?
              && parse(cookie.value).valid && parse(cookie.value).claims.role == AdminRole
    ensures r.status == StatusOK ==> r.body == AdminBody(parse(cookie.value).claims.username)
    ensures r.status != StatusOK ==> r.body == ""
  {
    match cookie
    case NoCookie => HeaderOnly(StatusUnauthorized)
    case OtherCookieErr => HeaderOnly(StatusBadRequest)
    case CookieValue(tknStr) =>
      match parse(tknStr)
      case SigInvalidErr => HeaderOnly(StatusUnauthorized)
      case OtherParseErr => HeaderOnly(StatusBadRequest)
      case Parsed(claims, valid) =>
        if !valid then HeaderOnly(StatusUnauthorized)
        else if claims.role != AdminRole then HeaderOnly(StatusUnauthorized)
        else Response(StatusOK, AdminBody(claims.username), None)
  }

  /** The /profile handler: the checks of /admin without the role check. */
  function ProfileResp(cookie: CookieRead, parse: string -> ParseOutcome): (r: Response)
    ensures r.setCookie.None?
    ensures r.status in {StatusOK, StatusBadRequest, StatusUnauthorized}
    ensures r.status == StatusBadRequest <==>
              cookie.OtherCookieErr? || (cookie.CookieValue? && parse(cookie.value).OtherParseErr?)
    // 200: the token parses and is valid, whatever its role
    ensures r.status == StatusOK <==>
              cookie.CookieValue? && parse(cookie.value).Parsed? && parse(cookie.value).valid
    ensures r.status == StatusOK ==> r.body == ProfileBody(parse(cookie.value).claims.username)
    ensures r.status != StatusOK ==> r.body == ""
  {
    match cookie
    case NoCookie => HeaderOnly(StatusUnauthorized)
    case OtherCookieErr => HeaderOnly(StatusBadRequest)
    case CookieValue(tknStr) =>
      match parse(tknStr)
      case SigInvalidErr => HeaderOnly(StatusUnauthorized)
      case OtherParseErr => HeaderOnly(StatusBadRequest)
      case Parsed(claims, valid) =>
        if !valid then HeaderOnly(StatusUnauthorized)
        else Response(StatusOK, ProfileBody(claims.username), None)
  }

  // ---------------------------------------------------------------------
  // The guard chain as a reference: a list of checks run in order, where
  // the first one that rejects decides the status.
  // ---------------------------------------------------------------------

  /** One check of a protected route. */
  datatype Check = CookiePresent | TokenParses | TokenValid | RoleIs(role: string)

  /**
   * The status with which check turns the request away, or None when it
   * lets the request through. A check relies on what the checks before it
   * establish; where that is missing, an earlier check has already
   * rejected and this one says nothing.
   */
  function Verdict(check: Check, cookie: CookieRead, parse: string -> ParseOutcome): Option<int>
  {
    match check
    case CookiePresent =>
      (match cookie
       case NoCookie => Some(StatusUnauthorized)
       case OtherCookieErr => Some(StatusBadRequest)
       case CookieValue(_) => None)
    case TokenParses =>
      if !cookie.CookieValue? then None
      else
        (match parse(cookie.value)
         case SigInvalidErr => Some(StatusUnauthorized)
         case OtherParseErr => Some(StatusBadRequest)
         case Parsed(_, _) => None)
    case TokenValid =>
      if cookie.CookieValue? && parse(cookie.value).Parsed? && !parse(cookie.value).valid
      then Some(StatusUnauthorized) else None
    case RoleIs(role) =>
      if cookie.CookieValue? && parse(cookie.value).Parsed? && parse(cookie.value).claims.role != role
      then Some(StatusUnauthorized) else None
  }

  /** Runs checks in order and stops at the first that rejects. */
  function FirstRejection(checks: seq<Check>, cookie: CookieRead, parse: string -> ParseOutcome): (r: Option<int>)
    // the request passes exactly when every check lets it through
    ensures r.None? <==> forall i :: 0 <= i < |checks| ==> Verdict(checks[i], cookie, parse).None?
    // otherwise the status is that of the earliest rejecting check
    ensures r.Some? ==>
              exists i :: 0 <= i < |checks| && Verdict(checks[i], cookie, parse) == r &&
                          forall j :: 0 <= j < i ==> Verdict(checks[j], cookie, parse).None?
    decreases |checks|
  {
    if |checks| == 0 then None
    else if Verdict(checks[0], cookie, parse).Some? then Verdict(checks[0], cookie, parse)
    else
      FirstRejection(checks[1..], cookie, parse)
  }

  /** Running a + b is running a, and then b if a let the request through. */
  lemma {:induction false} FirstRejectionAppend(a: seq<Check>, b: seq<Check>, cookie: CookieRead, parse: string -> ParseOutcome)
    ensures FirstRejection(a + b, cookie, parse) ==
            if FirstRejection(a, cookie, parse).Some? then FirstRejection(a, cookie, parse)
            else FirstRejection(b, cookie, parse)
  {
    if |a| > 0 {
      assert (a + b)[0] == a[0];
      assert (a + b)[1..] == a[1..] + b;
      FirstRejectionAppend(a[1..], b, cookie, parse);
    } else {
      assert a + b == b;
    }
  }

  /** The checks every protected route makes, in the order the handlers make them. */
  const AuthChecks: seq<Check> := [CookiePresent, TokenParses, TokenValid]

  /** The checks of a route that requires role, or any authenticated user when role is None. */
  function Chain(requiredRole: Option<string>): seq<Check>
  {
    AuthChecks + (if requiredRole.Some? then [RoleIs(requiredRole.value)] else [])
  }

  /** Whether the holder of claims may use a route that requires requiredRole: a single exact, case-sensitive role match. */
  predicate Authorize(claims: Claims, requiredRole: Option<string>)
  {
    requiredRole.None? || claims.role == requiredRole.value
  }

  /** The decision of a protected route: the status it refuses with, or the claims it admits. */
  datatype Outcome = Denied(status: int) | Admitted(claims: Claims)

  /** Run the chain for requiredRole; if nothing rejects, admit the parsed claims. */
  function Guard(requiredRole: Option<string>, cookie: CookieRead, parse: string -> ParseOutcome): (o: Outcome)
    // admitted: a cookie whose token parses, is valid, and carries an authorized role
    ensures o.Admitted? <==>
              && cookie.CookieValue? && parse(cookie.value).Parsed? && parse(cookie.value).valid
              && Authorize(parse(cookie.value).claims, requiredRole)
    ensures o.Admitted? ==> parse(cookie.value) == Parsed(o.claims, true)
  {
    var checks := Chain(requiredRole);
    assert checks[0] == CookiePresent && checks[1] == TokenParses && checks[2] == TokenValid;
    assert requiredRole.Some? ==> |checks| == 4 && checks[3] == RoleIs(requiredRole.value);
    match FirstRejection(checks, cookie, parse)
    case Some(status) => Denied(status)
    case None =>
      Admitted(parse(cookie.value).claims)
  }

  /** /admin is the chain for role "admin", rendered with the admin welcome. */
  lemma AdminRespFollowsGuard(cookie: CookieRead, parse: string -> ParseOutcome)
    ensures match Guard(Some(AdminRole), cookie, parse)
            case Denied(status) => AdminResp(cookie, parse) == HeaderOnly(status)
            case Admitted(claims) => AdminResp(cookie, parse) == Response(StatusOK, AdminBody(claims.username), None)
  {
  }

  /** /profile is the chain for any authenticated user, rendered with the profile welcome. */
  lemma ProfileRespFollowsGuard(cookie: CookieRead, parse: string -> ParseOutcome)
    ensures match Guard(None, cookie, parse)
            case Denied(status) => ProfileResp(cookie, parse) == HeaderOnly(status)
            case Admitted(claims) => ProfileResp(cookie, parse) == Response(StatusOK, ProfileBody(claims.username), None)
  {
  }

  /**
   * A role requirement only adds a check at the end of the chain: whatever
   * the shared checks refuse is refused with the same status, and what the
   * role route admits the open route admits with the same claims.
   */
  lemma RoleCheckOnlyNarrows(role: string, cookie: CookieRead, parse: string -> ParseOutcome)
    ensures Guard(None, cookie, parse).Denied? ==> Guard(Some(role), cookie, parse) == Guard(None, cookie, parse)
    ensures Guard(Some(role), cookie, parse).Admitted? ==> Guard(None, cookie, parse) == Guard(Some(role), cookie, parse)
    ensures Guard(Some(role), cookie, parse).Admitted? <==>
              Guard(None, cookie, parse).Admitted? && Authorize(Guard(None, cookie, parse).claims, Some(role))
    ensures Guard(None, cookie, parse).Admitted? && Guard(Some(role), cookie, parse).Denied? ==>
              Guard(Some(role), cookie, parse).status == StatusUnauthorized
  {
  }

  /**
   * Whatever /admin admits, /profile admits for the same user; where
   * /profile refuses, /admin refuses with the same status; and /admin
   * refuses a request /profile admits only with 401, for the role.
   */
  lemma AdminAdmitsOnlyProfileAdmitted(cookie: CookieRead, parse: string -> ParseOutcome)
    ensures AdminResp(cookie, parse).status == StatusOK ==>
              ProfileResp(cookie, parse) == Response(StatusOK, ProfileBody(parse(cookie.value).claims.username), None)
    ensures ProfileResp(cookie, parse).status != StatusOK ==> AdminResp(cookie, parse) == ProfileResp(cookie, parse)
    ensures ProfileResp(cookie, parse).status == StatusOK && AdminResp(cookie, parse).status != StatusOK ==>
              AdminResp(cookie, parse) == HeaderOnly(StatusUnauthorized) && parse(cookie.value).claims.role != AdminRole
  {
  }

  /** The /admin welcome names exactly one user: the body gives the username back. */
  lemma AdminBodyNamesUser(username: string, body: string)
    ensures body == AdminBody(username) <==>
              && |body| == |username| + 15 && body[..14] == "Welcome Admin "
              && body[14..|body| - 1] == username && body[|body| - 1] == '!'
  {
  }

  /** The /profile welcome names exactly one user: the body gives the username back. */
  lemma ProfileBodyNamesUser(username: string, body: string)
    ensures body == ProfileBody(username) <==>
              && |body| == |username| + 9 && body[..8] == "Welcome "
              && body[8..|body| - 1] == username && body[|body| - 1] == '!'
  {
  }
}
