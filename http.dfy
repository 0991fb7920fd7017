/**
 * The part of net/http and time the handlers touch, as data: status codes,
 * instants, cookies, the outcome of reading the request's cookie, and the
 * response a handler leaves behind.
 */
module Http {
  import opened Wrappers

  const StatusOK: int := 200
  const StatusBadRequest: int := 400
  const StatusUnauthorized: int := 401
  const StatusInternalServerError: int := 500

  /** A point in time, in nanoseconds since the Unix epoch (the precision of Go's time.Time). */
  type Instant = int

  const NanosPerSecond: int := 1_000_000_000

  /**
   * Go's Time.Unix(): the whole seconds since the epoch, rounded down
   * (also for instants before the epoch).
   */
  function UnixSeconds(t: Instant): (s: int)
    ensures s * NanosPerSecond <= t < (s + 1) * NanosPerSecond
  {
    t / NanosPerSecond
  }

  /** A cookie as http.SetCookie writes it: name, value and absolute expiry. */
  datatype Cookie = Cookie(name: string, value: string, expires: Instant)

  /**
   * What r.Cookie("token") gives the handler: http.ErrNoCookie, some other
   * error, or the cookie's value.
   */
  datatype CookieRead = NoCookie | OtherCookieErr | CookieValue(value: string)

  /**
   * What a handler has written when it returns: the status (200 when it
   * never called WriteHeader), the body, and the cookie it set, if any.
   */
  datatype Response = Response(status: int, body: string, setCookie: Option<Cookie>)

  /** A handler that only calls WriteHeader(code) and returns. */
  function HeaderOnly(code: int): Response
  {
    Response(code, "", None)
  }
}
