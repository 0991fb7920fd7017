# simple-jwt: login and role-gated routes, modelled in Dafny

The service has three HTTP handlers. `/login` decodes a JSON body into credentials and checks them against a fixed table of users (`aditira`/`password1`/`admin`, `dito`/`password2`/`student`). On success it signs an HS256 token. The token holds the username, the stored role and an expiry five minutes ahead. It comes back in a cookie named `token`. `/admin` and `/profile` read that cookie and parse the token. They refuse at the first failed check, each with its own status. `/admin` also requires the role `admin`. Both greet the user by name.

The model treats each handler as a pure function from what the handler sees to what it writes (status, body, cookie). The token library, the JSON decoder and the cookie reader are replaced by the outcomes the handlers branch on:

- `DecodeOutcome`: the body decoded, or it did not.
- `sign: Claims -> SignOutcome`: the signed string, or an error.
- `CookieRead`: no cookie, another cookie error, or the cookie's value.
- `parse: string -> ParseOutcome`: the signature-invalid sentinel, any other error, or the claims with the token's `Valid` flag.

Time is an `Instant` in nanoseconds since the epoch, the precision of Go's `time.Time`. The expiry claim is Go's `Unix()` of it, which rounds down to whole seconds.

Files:

- `wrappers.dfy`: `Option`.
- `http.dfy`: status codes, `Instant` and `UnixSeconds`, cookies and responses.
- `jwt.dfy`: claims and the library's outcomes.
- `login.dfy`: the user table and `/login`.
- `protected.dfy`: `/admin`, `/profile` and a reference chain of checks (`FirstRejection`, `Guard`). The handlers are proved equal to that chain.
- `end_to_end.dfy`: login followed by a protected request, against the real user table.

Two facts about the code shape the model:

- `/profile` has no role check. `Guard` takes the required role as `Option<string>`, with `None` for no role check.
- The handlers tell three token failures apart: an error equal to `jwt.ErrSignatureInvalid` (401), any other parse error (400), and a parsed token whose `Valid` flag is false (401).

## Model

| member | source | states |
|---|---|---|
| `Http.UnixSeconds` | main.go:80 | `Unix()` of an instant is the whole number of seconds at or before it, also before the epoch |
| `LoginHandler.Login` | main.go:56-101 | An undecodable body gives 400 before any lookup. Exactly the unknown users and inexact passwords give 401, with nothing signed and no cookie. With good credentials the claims carry the submitted username, the stored role and an expiry of now's Unix seconds + 300. If signing them fails the result is 500 with no cookie. Otherwise it is 200 with an empty body and a cookie `token` holding the signed string that expires at now + 5 minutes, the same second as the expiry claim. A cookie is set exactly on 200. |
| `LoginHandler.ExpiryIsFiveMinutesInSeconds` | main.go:73-82 | The expiry claim, stated as now's Unix seconds + 300, equals `Unix()` of now + 5 minutes: the claim counts seconds, not milliseconds |
| `LoginHandler.LoginReadsOnlyOwnEntry` | main.go:66-70 | The handler depends on the user table only through the submitted username's entry |
| `ProtectedRoutes.AdminResp` | main.go:104-153 | No cookie set. Status is 200, 400 or 401. 400 exactly for a cookie error other than a missing cookie, or a parse error other than the signature sentinel. 200 exactly when the cookie's token parses, is valid and its role is exactly `admin`; the body is then `Welcome Admin <username>!`, otherwise empty. |
| `ProtectedRoutes.ProfileResp` | main.go:156-199 | The same without a role condition: 200 exactly for a parsed, valid token, with body `Welcome <username>!`; 400 for the same two errors; 401 otherwise |
| `ProtectedRoutes.FirstRejection` | main.go:106-149 | Checks run in order. The request passes iff every check lets it through. Otherwise the status is that of the earliest check that rejects. |
| `ProtectedRoutes.FirstRejectionAppend` | main.go:139-149 | Running two lists of checks one after the other gives the first list's rejection, or else the second's. So a check added at the end cannot change an earlier refusal. |
| `ProtectedRoutes.Guard` | main.go:104-153 | The chain cookie present → token parses → token valid → (role) admits exactly a cookie whose token parses, is valid and passes `Authorize`. It admits the claims the parse filled in. |
| `ProtectedRoutes.AdminRespFollowsGuard` | main.go:104-153 | `/admin` refuses with the status of the first failing check of the chain ending in role `admin`, and otherwise welcomes the admitted user |
| `ProtectedRoutes.ProfileRespFollowsGuard` | main.go:156-199 | `/profile` refuses with the status of the first failing check of the chain without a role check, and otherwise welcomes the admitted user |
| `ProtectedRoutes.RoleCheckOnlyNarrows` | main.go:145-149 | A role requirement keeps every refusal of the shared checks with its status. It admits exactly what the open chain admits and whose role matches exactly. What it adds is refused only with 401. |
| `ProtectedRoutes.AdminAdmitsOnlyProfileAdmitted` | main.go:104-199 | Whatever `/admin` admits, `/profile` admits for the same user. Where `/profile` refuses, `/admin` gives the identical response. `/admin` refuses a request `/profile` admits only with 401, because the role is not `admin`. |
| `ProtectedRoutes.AdminBodyNamesUser` | main.go:152 | The `/admin` body is `Welcome Admin `, the username, `!`, and from it the username is read back exactly |
| `ProtectedRoutes.ProfileBodyNamesUser` | main.go:198 | The `/profile` body is `Welcome `, the username, `!`, and from it the username is read back exactly |
| `EndToEnd.AdminLoginReachesAdmin` | main.go:17-153 | `aditira`/`password1` logs in with 200. If the library parses the signed token back into its claims as valid, sending the cookie to `/admin` gives 200 `Welcome Admin aditira!`. |
| `EndToEnd.StudentLoginReachesOnlyProfile` | main.go:17-199 | `dito`/`password2` logs in with 200. Under the same library behaviour `/admin` refuses the cookie with 401 and `/profile` gives 200 `Welcome dito!`. |
| `EndToEnd.BadLoginLeavesNoToken` | main.go:56-70 | Unknown user or wrong password: 401 with no cookie, so the next `/profile` request has no token and gets 401 |
| `EndToEnd.PasswordsAreNotShared` | main.go:17-26 | Each password opens only its own user, and usernames match case-sensitively |
| `EndToEnd.OnlyAditiraIsAdmin` | main.go:17-26 | The only user in the table with the role `admin` is `aditira` |

## Left out

- Server start-up, route registration and `ResponseWriter` mechanics (main.go:48-54, main.go:201): a response is a returned value.
- JSON decoding (main.go:59) is an input. A body that decodes with missing fields gives empty strings in Go, so it arrives as `Decoded` with those empty strings.
- HS256 signing and token parsing and validation (main.go:85-88, main.go:125-127, main.go:177-179) are library code and become abstract outcomes.
  - Nothing is claimed about round trips, tampering or expiry checking.
  - Nothing is claimed about which error a given token produces, nor whether the library ever returns the bare `jwt.ErrSignatureInvalid` sentinel that the handlers compare against with `==`.
  - The end-to-end lemmas state the library behaviour they rely on as preconditions.
- The signing key (main.go:14) matters only inside the signing library, so it is folded into `sign` and `parse`.
- `time.Now()` (main.go:73) is the parameter `now`.
- The cookie's transport is left out. The `Expires` attribute loses sub-second precision on the wire, and Go omits it for years before 1601. The model keeps the full instant.
- The standard claims other than `ExpiresAt` are left out. They are never set or read by the handlers.
- User table entries are values, so a nil `*User` entry cannot be expressed. The table has none.
- Go strings are byte sequences; the model's strings are sequences of characters. Every comparison here is exact equality, so no decision changes, but the lengths in `AdminBodyNamesUser` and `ProfileBodyNamesUser` (`|username| + 15`, `|username| + 9`) count characters, not the bytes written to the response.
