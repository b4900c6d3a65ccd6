# Tenant-scoped session lifecycle, modelled in Dafny

This project models the session core of an Express/TypeScript multi-tenant
authentication service. Client applications ("tenants") hold their own token
signing secrets, encrypted at rest with the tenant's API key. End users sign in
and get a ten-minute access token and a ten-day refresh token. Both tokens are
recorded in a Redis ledger, and a ledger entry's presence is what keeps a
session live. System administrators get a separate five-minute credential
derived with PBKDF2.

The model covers four parts of the source:

- `src/Controllers/authController.ts`: signup, signin, refresh and logout
  (`auth.dfy`), and how they compose (`lifecycle.dfy`).
- `src/Controllers/sysAdminController.ts`: administrator authenticate, logout
  and the two update handlers (`sysadmin.dfy`).
- `src/Middlewares/appCodeMiddleware.ts`: the tenant gate (`appcode.dfy`).
- `src/Entities/usersEntity.ts`: the user columns, their per-application
  uniqueness and `setName` (`users.dfy`).

Supporting modules:

- `ledger.dfy`: the Redis client as a class over a map, with `setEx`, `get`
  and `del`, and the key formats.
- `crypto.dfy`: bcrypt, AES, JSON Web Tokens and PBKDF2 as function values.
- `responses.dfy`: the response envelope as outcome tags.
- `headers.dfy`: the request headers the gate writes and the handlers read.
- `common.dfy`: the `Option` and `Attempt` wrappers.

How the model is shaped:

- Foreign libraries are fields of `Crypto.Primitives`. `Compare(p, h)` holds
  exactly when `h == hash(p)`. Decryption may throw, return null or return a
  plaintext.
- A token string stands for what `decode` gives back: the claims, the signing
  secret, and the registered claims `iat` and `exp` (sections 4.1.6 and 4.1.4
  of RFC 7519). `Verify` refuses a token under any other secret, and refuses it
  once `exp` is reached.
- The one assumption about the libraries is `Primitives.Lawful`: a token that
  `sign` produced decodes to what was signed. Only the lemmas that compose
  several flows need it.
- The clock (`now`), the random salt and `generateId()` are parameters.
- The guards that run before a handler's first ledger access are functions:
  `SigninCheck` (it reads the users table, passed as a value) and
  `LogoutCheck`. The handlers are methods that run the check and then use the
  ledger. Logout's presence check on `{id}-access-token`
  (authController.ts:193-197) reads the ledger, so it stays in the method.
- `Refresh` only reads the ledger, so it is a function of the ledger object.
- Administrator authentication keeps the source's `for` loop with its early
  return.
- The tenant gate is a pure guard chain (`Gate`) plus a method that writes the
  request headers and calls `next`.

Behaviour of the code worth knowing:

- A second logout with the same access token does not answer "already logged
  out". The access entry is gone, so it answers Unauthorized "Token invalid.
  Signin again." (authController.ts:193-197). `SigninRefreshLogout` proves this.
- The "already logged-out" answer of logout (authController.ts:204-206) can
  never be given in a sequential run. The preceding `get` found the access key,
  so its deletion returns 1.
- A refresh after logout answers Unauthorized "Cannot refresh the token as
  you are already logged-out" (authController.ts:155-157). A refresh token
  that fails verification answers Error with the library's message, not
  Unauthorized (line 151).
- Refresh decrypts both secrets before it checks that a refresh token was sent
  (lines 129-139).
- In signin, a refresh-secret decryption that throws answers Failed "Refresh
  Token Secret Decrypt Failed.", not Error. The null test on line 90 comes
  before the error test on line 92, and the try/catch helper yields null on a
  throw.
- A refreshed access token equals signin's when both are signed in the same
  second. `RefreshedTokenIsNew` needs the two times to differ.
- Tenant resolution failures come from the gate middleware, not from signin.

## Model

| member | source | states |
|---|---|---|
| `Ledger.RedisClient.SetEx` | src/Controllers/authController.ts:110-111 | `setEx` overwrites exactly one key with the value and its TTL |
| `Ledger.RedisClient.Get` | src/Controllers/authController.ts:155 | `get` yields a value exactly when the key is present, and that value is the stored string |
| `Ledger.RedisClient.Del` | src/Controllers/authController.ts:199-202 | `del` removes the key and returns 1 if it was present, otherwise 0 |
| `Ledger.KeysAreScoped` | src/Controllers/authController.ts:110-111 | the four ledger key classes are injective in the subject id and pairwise disjoint for any two ids |
| `Ledger.OtherSessionsUntouched` | src/Controllers/authController.ts:199-202 | writing or deleting one subject's two entries leaves every other subject's session state unchanged |
| `Crypto.SignedTokenVerifies` | src/Controllers/authController.ts:149-151 | a signed token verifies to its claims, `iat` and `exp` under its own secret until `exp`, and never under another secret |
| `Users.Find` | src/Controllers/authController.ts:53-59 | the lookup returns a stored user the filter matches, and returns null only when no stored user matches |
| `Users.FindIsTheOnlyMatch` | src/Entities/usersEntity.ts:12-13 | under per-application uniqueness of username and email, a lookup by either one matches only the user it returns |
| `Users.UserTable.Create` | src/Entities/usersEntity.ts:12-22 | insertion keeps usernames and emails unique per application; it is refused, with the table unchanged, exactly when the row clashes |
| `Users.FullName` | src/Entities/usersEntity.ts:34-37 | the full name is as long as the three rendered parts plus two, begins with the rendered first name followed by a space and ends with a space followed by the rendered last name; a null part renders as "null" |
| `Users.FullNameDeterminesParts` | src/Entities/usersEntity.ts:34-37 | when no part holds a space, equal full names come from equal rendered first, middle and last names, so the name can be read back by splitting at spaces |
| `Users.User.SetName` | src/Entities/usersEntity.ts:34-37 | `setName` sets `fullName` to the three name parts joined by spaces and changes no other field |
| `Users.User.Load` | src/Entities/usersEntity.ts:15-37 | a loaded entity has the row's columns, and the after-load hook has computed its `fullName` |
| `AuthController.Signup` | src/Controllers/authController.ts:11-35 | all three fields are required; the stored row holds only the password digest; a unique-constraint clash fails and leaves the table unchanged |
| `AuthController.SigninCheck` | src/Controllers/authController.ts:45-108 | incomplete data is refused before lookup; an unknown user gets a null success; a deactivated user is Unauthorized whatever the password; a wrong password gets a false success; past the credential guards, an access-secret decryption that throws is Error and one that yields null is Failed "Access Token Secret Decrypt Failed."; a refresh-secret decryption that throws or yields null is Failed "Refresh Token Secret Decrypt Failed."; a signing throw is Error; a grant happens exactly when every guard passes, and its two tokens sign `{id, username, email}` with the access and refresh secrets for 10 min and 10 days |
| `AuthController.Signin` | src/Controllers/authController.ts:40-117 | a refused signin leaves the ledger unchanged; a grant writes `{id}-access-token` (600 s) and `{id}-refresh-token` (864000 s) and nothing else, answers `{id, accessToken, refreshToken}`, and leaves the session authenticated and all other sessions unchanged |
| `AuthController.Refresh` | src/Controllers/authController.ts:122-168 | refresh never writes the ledger; a decryption that throws is Error with its message and one that yields null is Failed with the secret's "Decrypt Failed." message, before the missing-token check; a verify failure is Error; a verified token whose `{id}-refresh-token` is absent is Unauthorized; success requires that entry and signs the verified claims without `iat`/`exp` with the access secret; when the entry is present the answer is exactly that signing's token as "Refresh Token Success", or Error if signing throws |
| `AuthController.LogoutCheck` | src/Controllers/authController.ts:170-191 | a missing authorization header, or a token that fails to verify, is Unauthorized, and nothing else is; a decryption that throws is Error and one that yields null is Failed with the secret's "Decrypt Failed." message; logout proceeds exactly when the header is present, both secrets decrypt and the token verifies, and then for the token's subject id |
| `AuthController.Logout` | src/Controllers/authController.ts:169-209 | a denied check or an absent `{id}-access-token` leaves the ledger unchanged; otherwise both entries are removed and nothing else; the "already logged-out" answer is never given |
| `SessionLifecycle.SigninTokensVerify` | src/Controllers/authController.ts:94-104 | signin's access token verifies to the signin claims for 10 minutes under the access secret, and its refresh token for 10 days under the refresh secret; with distinct secrets neither is accepted where the other is expected |
| `SessionLifecycle.RefreshAfterSignin` | src/Controllers/authController.ts:149-167 | while the refresh entry is live and the token unexpired, refresh answers a new access token over exactly signin's claims, or the signing error |
| `SessionLifecycle.RefreshedTokenIsNew` | src/Controllers/authController.ts:161-163 | a token refreshed in a different second from signin differs from signin's access token |
| `SessionLifecycle.SigninRefreshLogout` | src/Controllers/authController.ts:40-209 | signin, refresh, logout, refresh, logout: the first refresh re-issues the claims; logout succeeds; the later refresh is refused although its token still verifies; the second logout is Unauthorized; the session ends anonymous |
| `AppCodeMiddleware.Gate` | src/Middlewares/appCodeMiddleware.ts:11-36 | the failures are checked in order: app code, key present, key not an array, known app, key matches; admission happens exactly when all pass, and admits that app |
| `AppCodeMiddleware.AppCodeGate` | src/Middlewares/appCodeMiddleware.ts:10-42 | a failure answers Failed with the gate's message, writes no header and never calls `next`; success sets the two secret headers to the app's stored ciphertexts and calls `next` exactly once |
| `AppCodeMiddleware.Request.Next` | src/Middlewares/appCodeMiddleware.ts:41 | `next` runs once and leaves the headers alone |
| `SysAdminController.FirstMatch` | src/Controllers/sysAdminController.ts:27-31 | the result is the first administrator, in list order, whose username and password digests both match; with no result, none matches |
| `SysAdminController.Authenticate` | src/Controllers/sysAdminController.ts:9-60 | missing fields are IncompleteData and an empty table is NothingAffected, both with no writes; the first match writes `{id}-pbkdf` = derived key and `{id}-hash` = `hash(username+password)` (300 s) and returns the salt as the token; a failed derivation or no match writes nothing |
| `SysAdminController.AdminTable.UpdateUsername` | src/Controllers/sysAdminController.ts:72 | the rows with the id get the new username digest; the other rows are unchanged |
| `SysAdminController.AdminTable.UpdatePassword` | src/Controllers/sysAdminController.ts:91 | the rows with the id get the new password digest; the other rows are unchanged |
| `SysAdminController.UpdateUsername` | src/Controllers/sysAdminController.ts:61-79 | a missing username is IncompleteData with no write; otherwise only `hash(username)` is stored |
| `SysAdminController.UpdatePassword` | src/Controllers/sysAdminController.ts:80-98 | a missing password is IncompleteData with no write; otherwise only `hash(password)` is stored |
| `SysAdminController.Logout` | src/Controllers/sysAdminController.ts:99-109 | afterwards neither `{id}-pbkdf` nor `{id}-hash` is present and nothing else changed; the answer is "not logged-in" exactly when neither key was present |

## Left out

- Storage faults are not modelled. This covers a rejected `userModel.find`
  (authController.ts:61-63), a rejected `sysAdminModel.get`
  (sysAdminController.ts:19) and rejected updates (lines 74-76 and 93-95).
  Only the unique-constraint refusal of `create` is modelled.
- bcrypt's `compare` never throws in the model, so signin's `passErr` branch
  (authController.ts:75-77) is not reachable. `hash` is deterministic; real
  bcrypt salts each digest, but `compare` behaves the same.
- `jwt.sign` never returns null and `jwt.verify` never returns null, so the
  null checks after signing (lines 100, 108, 165) and `dt == null` (line 189)
  are not reachable.
- A verified token carries exactly the claims `{id, username, email}` plus
  `iat` and `exp`. Extra claims, which refresh would copy along, are not
  modelled.
- Both signin tokens are signed at the same `now`.
- Clock-driven expiry of ledger entries is not modelled. TTLs are stored values
  only, so the `AccessLapsed` session state arises only from a given ledger.
- `Promise.all` in logout and the un-awaited `setEx` calls are modelled as
  sequential calls. Their interleavings with other requests are not modelled.
- The administrator id is the `user-id` header's text. `parseInt` is not
  modelled.
- The Express request and response objects, the envelope's formatting and
  status codes, and the try/catch helpers are reduced to outcome tags. A helper
  called without a message carries "".
- `forgotRequest` is not modelled. It is a user lookup followed by a response
  listing the recovery questions.
- The unimplemented handlers `verify`, `twoFactorAuthentication`,
  `updateAccountDetails`, `setSecurityQuestions`, `forgotVerify` and
  `forgotApproved` have no behaviour to model.
- The internals of bcrypt, AES, PBKDF2 (section 5.2 of RFC 8018), salt
  generation and JWT signing are not modelled.
- The rate limiter is not modelled; it is library configuration.
- The entity's relations (`role`, `membership`, `app` beyond its code) are not
  modelled. Nor are the columns that no flow reads: photo, birthday, gender
  and the recovery fields.
- `StatusBase` is not part of this model. A new user's `isActive` value is
  passed to `Signup` as the column default.
