/**
 * The end-user session flows: signup writes the users table; signin checks the
 * credentials, issues an access and a refresh token and records both in the
 * ledger; refresh mints a new access token only while the refresh entry is
 * live; logout removes both entries.
 *
 * Each handler's guards run before it touches the ledger, so the guard chain
 * of signin and of logout is a function (`SigninCheck`, `LogoutCheck`) and the
 * handler is a method that runs it and then performs the ledger calls.
 * Refresh only reads the ledger and is a function of it.
 */
module AuthController {
  import opened Common
  import opened Crypto
  import opened Ledger
  import opened Users
  import opened Responses
  import opened Headers

  /** The request body's credential fields; a missing field is null. */
  datatype Credentials = Credentials(username: Option<string>, email: Option<string>, password: Option<string>)

  /** The header values decrypted as the access and the refresh secret (`?? ''`). */
  function AccessCipher(h: TenantHeaders): string { h.accessSecret.GetOr("") }
  function RefreshCipher(h: TenantHeaders): string { h.refreshSecret.GetOr("") }

  /** `secure.decrypt` of each secret header under the presented API key. */
  function AccessDecryption(prims: Primitives, h: TenantHeaders): Attempt<Option<string>> {
    prims.decrypt(AccessCipher(h), h.apiKey)
  }

  function RefreshDecryption(prims: Primitives, h: TenantHeaders): Attempt<Option<string>> {
    prims.decrypt(RefreshCipher(h), h.apiKey)
  }

  /** The decrypted access secret, when decryption produced one. */
  function AccessSecret(prims: Primitives, h: TenantHeaders): Option<string> {
    Plaintext(prims.decrypt(AccessCipher(h), h.apiKey))
  }

  function RefreshSecret(prims: Primitives, h: TenantHeaders): Option<string> {
    Plaintext(prims.decrypt(RefreshCipher(h), h.apiKey))
  }

  /** Signin's lookup: the application, and whichever of username and email were given. */
  function LookupFilter(appCode: string, c: Credentials): UserFilter {
    UserFilter(appCode, c.username, c.email)
  }

  /** Signin has a password and at least one of username and email. */
  predicate SigninComplete(c: Credentials) {
    (c.username.Some? || c.email.Some?) && c.password.Some?
  }

  /** Signin's credential guards all pass: a complete request, a stored active user, a matching password. */
  predicate CredentialsAccepted(rows: seq<UserRow>, prims: Primitives, appCode: string, c: Credentials) {
    && SigninComplete(c)
    && Find(rows, LookupFilter(appCode, c)).Some?
    && Find(rows, LookupFilter(appCode, c)).value.isActive
    && prims.Compare(c.password.value, Find(rows, LookupFilter(appCode, c)).value.password)
  }

  /** The claims of both signin tokens: the stored id, and username and email as the request gave them. */
  function ClaimsFor(u: UserRow, c: Credentials): Claims {
    Claims(u.id, c.username, c.email)
  }

  /**
   * `signup`: all three fields are required; the stored row keeps only the
   * bcrypt digest of the password, and the unique constraints may refuse it.
   * `freshId` is what `generateId()` returned and `activeByDefault` the
   * `isActive` column's default.
   */
  method Signup(table: UserTable, prims: Primitives, appCode: string, c: Credentials,
                freshId: string, activeByDefault: bool) returns (r: Outcome)
    requires table.Valid()
    modifies table
    ensures table.Valid()
    ensures c.username.None? || c.email.None? || c.password.None? ==>
              r == IncompleteData && table.rows == old(table.rows)
    ensures c.username.Some? && c.email.Some? && c.password.Some? ==>
              var row := UserRow(freshId, appCode, c.username.value, c.email.value, prims.hash(c.password.value),
                                 activeByDefault, None, None, None);
              if Conflicts(old(table.rows), row) then r.Failed? && table.rows == old(table.rows)
              else r == Success(Created(row), "Successfully added.") && table.rows == old(table.rows) + [row]
  {
    if c.username.None? || c.email.None? || c.password.None? {
      return IncompleteData;
    }
    var row := UserRow(freshId, appCode, c.username.value, c.email.value, prims.hash(c.password.value),
                       activeByDefault, None, None, None);
    var created := table.Create(row);
    if created.Threw? {
      return Failed(created.error);
    }
    r := Success(Created(created.value), "Successfully added.");
  }

  /** Where signin's guards lead: an early answer, or the two tokens to record for user `id`. */
  datatype SigninVerdict = Halt(outcome: Outcome) | Grant(id: string, accessToken: string, refreshToken: string)

  /**
   * Signin's guard chain. Incomplete data is refused before the lookup; an
   * unknown user and a wrong password get success-shaped answers with a null
   * and a false body; a deactivated user is refused before the password is
   * compared. A grant carries two tokens over the same claims, signed at `now`
   * with the decrypted access and refresh secrets for ten minutes and ten days.
   * Past the credential guards, an access-secret decryption that throws is an
   * Error and one that yields null is Failed; a refresh-secret decryption that
   * throws is Failed as well, because its null test comes first.
   */
  function SigninCheck(rows: seq<UserRow>, prims: Primitives, h: TenantHeaders, appCode: string,
                       c: Credentials, now: int): (v: SigninVerdict)
    ensures !SigninComplete(c) ==> v == Halt(IncompleteData)
    ensures SigninComplete(c) && Find(rows, LookupFilter(appCode, c)).None? ==>
              v == Halt(Success(Null, "User not found"))
    ensures SigninComplete(c) && Find(rows, LookupFilter(appCode, c)).Some? ==>
              var u := Find(rows, LookupFilter(appCode, c)).value;
              && (!u.isActive ==> v == Halt(Unauthorized("account is deactivated.")))
              && (u.isActive && !prims.Compare(c.password.value, u.password) ==>
                    v == Halt(Success(False, "Password incorrect")))
    ensures CredentialsAccepted(rows, prims, appCode, c) && AccessDecryption(prims, h).Threw? ==>
              v == Halt(Error(AccessDecryption(prims, h).error))
    ensures CredentialsAccepted(rows, prims, appCode, c) && AccessDecryption(prims, h) == Done(None) ==>
              v == Halt(Failed("Access Token Secret Decrypt Failed."))
    ensures CredentialsAccepted(rows, prims, appCode, c) && AccessSecret(prims, h).Some? &&
            (RefreshDecryption(prims, h).Threw? || RefreshDecryption(prims, h) == Done(None)) ==>
              v == Halt(Failed("Refresh Token Secret Decrypt Failed."))
    ensures CredentialsAccepted(rows, prims, appCode, c) && AccessSecret(prims, h).Some? && RefreshSecret(prims, h).Some? ==>
              var claims := ClaimsFor(Find(rows, LookupFilter(appCode, c)).value, c);
              match prims.Sign(claims, AccessSecret(prims, h).value, now, AccessLifetime)
              case Threw(e) => v == Halt(Error(e))
              case Done(_) =>
                prims.Sign(claims, RefreshSecret(prims, h).value, now, RefreshLifetime).Threw? ==>
                  v == Halt(Error(prims.Sign(claims, RefreshSecret(prims, h).value, now, RefreshLifetime).error))
    ensures v.Grant? <==>
              && CredentialsAccepted(rows, prims, appCode, c)
              && var u := Find(rows, LookupFilter(appCode, c)).value;
              && AccessSecret(prims, h).Some? && RefreshSecret(prims, h).Some?
              && prims.Sign(ClaimsFor(u, c), AccessSecret(prims, h).value, now, AccessLifetime).Done?
              && prims.Sign(ClaimsFor(u, c), RefreshSecret(prims, h).value, now, RefreshLifetime).Done?
    ensures v.Grant? ==>
              var u := Find(rows, LookupFilter(appCode, c)).value;
              && v.id == u.id
              && prims.Sign(ClaimsFor(u, c), AccessSecret(prims, h).value, now, AccessLifetime) == Done(v.accessToken)
              && prims.Sign(ClaimsFor(u, c), RefreshSecret(prims, h).value, now, RefreshLifetime) == Done(v.refreshToken)
  {
    if (c.username.None? && c.email.None?) || c.password.None? then Halt(IncompleteData)
    else match Find(rows, LookupFilter(appCode, c))
      case None => Halt(Success(Null, "User not found"))
      case Some(u) =>
        if !u.isActive then Halt(Unauthorized("account is deactivated."))
        else if !prims.Compare(c.password.value, u.password) then Halt(Success(False, "Password incorrect"))
        else match prims.decrypt(AccessCipher(h), h.apiKey)
          case Threw(e) => Halt(Error(e))
          case Done(None) => Halt(Failed("Access Token Secret Decrypt Failed."))
          case Done(Some(das)) =>
            // the null test precedes the error test, so a throwing decryption answers Failed too
            match prims.decrypt(RefreshCipher(h), h.apiKey)
            case Threw(_) => Halt(Failed("Refresh Token Secret Decrypt Failed."))
            case Done(None) => Halt(Failed("Refresh Token Secret Decrypt Failed."))
            case Done(Some(drs)) =>
              match prims.Sign(ClaimsFor(u, c), das, now, AccessLifetime)
              case Threw(e) => Halt(Error(e))
              case Done(accessToken) =>
                match prims.Sign(ClaimsFor(u, c), drs, now, RefreshLifetime)
                case Threw(e) => Halt(Error(e))
                case Done(refreshToken) => Grant(u.id, accessToken, refreshToken)
  }

  /**
   * `signin`: a halted check leaves the ledger as it was; a grant records the
   * access token under `{id}-access-token` for 600 s and the refresh token
   * under `{id}-refresh-token` for 864000 s, changes no other key, and answers
   * `{id, accessToken, refreshToken}`.
   */
  method Signin(ledger: RedisClient, users: UserTable, prims: Primitives, h: TenantHeaders,
                appCode: string, c: Credentials, now: int) returns (r: Outcome)
    modifies ledger
    ensures match SigninCheck(users.rows, prims, h, appCode, c, now)
      case Halt(o) => r == o && ledger.entries == old(ledger.entries)
      case Grant(id, accessToken, refreshToken) =>
        && r == Success(Tokens(id, accessToken, refreshToken), "")
        && ledger.entries == old(ledger.entries)[AccessKey(id) := Entry(accessToken, AccessTtl)]
                                                [RefreshKey(id) := Entry(refreshToken, RefreshTtl)]
        && ledger.Session(id) == Authenticated
        && forall other :: other != id ==> ledger.Session(other) == old(ledger.Session(other))
  {
    var verdict := SigninCheck(users.rows, prims, h, appCode, c, now);
    if verdict.Halt? {
      return verdict.outcome;
    }
    ledger.SetEx(AccessKey(verdict.id), AccessTtl, verdict.accessToken);
    ledger.SetEx(RefreshKey(verdict.id), RefreshTtl, verdict.refreshToken);
    r := Success(Tokens(verdict.id, verdict.accessToken, verdict.refreshToken), "");
    forall other | other != verdict.id
      ensures ledger.Session(other) == old(ledger.Session(other))
    {
      OtherSessionsUntouched(old(ledger.entries), verdict.id, other,
                             Entry(verdict.accessToken, AccessTtl), Entry(verdict.refreshToken, RefreshTtl));
    }
  }

  /**
   * `refresh`, which never writes the ledger. It decrypts both secrets, needs a
   * refresh token, verifies it under the refresh secret, and then refuses
   * unless `{id}-refresh-token` is present, however valid the token is. The new
   * access token carries the verified claims without `iat` and `exp`.
   */
  function Refresh(ledger: RedisClient, prims: Primitives, h: TenantHeaders,
                   refreshToken: Option<string>, now: int): (r: Outcome)
    reads ledger
    ensures AccessDecryption(prims, h).Threw? ==> r == Error(AccessDecryption(prims, h).error)
    ensures AccessDecryption(prims, h) == Done(None) ==> r == Failed("Access Token Secret Decrypt Failed.")
    ensures AccessSecret(prims, h).Some? && RefreshDecryption(prims, h).Threw? ==>
              r == Error(RefreshDecryption(prims, h).error)
    ensures AccessSecret(prims, h).Some? && RefreshDecryption(prims, h) == Done(None) ==>
              r == Failed("Refresh Token Secret Decrypt Failed.")
    ensures AccessSecret(prims, h).Some? && RefreshSecret(prims, h).Some? && refreshToken.None? ==> r == IncompleteData
    ensures (AccessSecret(prims, h).Some? && RefreshSecret(prims, h).Some? && refreshToken.Some? &&
             prims.Verify(refreshToken.value, RefreshSecret(prims, h).value, now).Threw?) ==> r.Error?
    ensures AccessSecret(prims, h).Some? && RefreshSecret(prims, h).Some? && refreshToken.Some? &&
            prims.Verify(refreshToken.value, RefreshSecret(prims, h).value, now).Done? &&
            RefreshKey(prims.Verify(refreshToken.value, RefreshSecret(prims, h).value, now).value.claims.id)
              !in ledger.entries ==>
              r == Unauthorized("Cannot refresh the token as you are already logged-out")
    ensures AccessSecret(prims, h).Some? && RefreshSecret(prims, h).Some? && refreshToken.Some? &&
            prims.Verify(refreshToken.value, RefreshSecret(prims, h).value, now).Done? &&
            RefreshKey(prims.Verify(refreshToken.value, RefreshSecret(prims, h).value, now).value.claims.id)
              in ledger.entries ==>
              var claims := prims.Verify(refreshToken.value, RefreshSecret(prims, h).value, now).value.claims;
              r == match prims.Sign(claims, AccessSecret(prims, h).value, now, AccessLifetime)
                   case Done(accessToken) => Success(Access(accessToken), "Refresh Token Success")
                   case Threw(e) => Error(e)
    ensures r.Success? ==>
              && AccessSecret(prims, h).Some? && RefreshSecret(prims, h).Some? && refreshToken.Some?
              && prims.Verify(refreshToken.value, RefreshSecret(prims, h).value, now).Done?
              && var claims := prims.Verify(refreshToken.value, RefreshSecret(prims, h).value, now).value.claims;
              && RefreshKey(claims.id) in ledger.entries
              && r.body.Access?
              && prims.Sign(claims, AccessSecret(prims, h).value, now, AccessLifetime) == Done(r.body.accessToken)
  {
    match prims.decrypt(AccessCipher(h), h.apiKey)
    case Threw(e) => Error(e)
    case Done(None) => Failed("Access Token Secret Decrypt Failed.")
    case Done(Some(das)) =>
      match prims.decrypt(RefreshCipher(h), h.apiKey)
      case Threw(e) => Error(e)
      case Done(None) => Failed("Refresh Token Secret Decrypt Failed.")
      case Done(Some(drs)) =>
        if refreshToken.None? then IncompleteData
        else match prims.Verify(refreshToken.value, drs, now)
          case Threw(e) => Error(e)
          case Done(payload) =>
            var rest := payload.claims;  // `iat` and `exp` are dropped
            if ledger.Get(RefreshKey(rest.id)).None? then
              Unauthorized("Cannot refresh the token as you are already logged-out")
            else match prims.Sign(rest, das, now, AccessLifetime)
              case Threw(e) => Error(e)
              case Done(accessToken) => Success(Access(accessToken), "Refresh Token Success")
  }

  /** Where logout's guards lead: an early answer, or the subject whose entries to remove. */
  datatype LogoutVerdict = Deny(outcome: Outcome) | Revoke(id: string)

  /**
   * Logout's guard chain: an authorization header is required, both secrets
   * must decrypt, and the presented access token must verify under the access
   * secret; any verification failure is reported as Unauthorized. A
   * decryption that throws is an Error and one that yields null is Failed, so
   * Unauthorized answers only a missing header or a token that does not verify.
   */
  function LogoutCheck(prims: Primitives, h: TenantHeaders, authorization: Option<string>, now: int): (v: LogoutVerdict)
    ensures authorization.None? ==> v == Deny(Unauthorized("Required authorization."))
    ensures authorization.Some? && AccessDecryption(prims, h).Threw? ==>
              v == Deny(Error(AccessDecryption(prims, h).error))
    ensures authorization.Some? && AccessDecryption(prims, h) == Done(None) ==>
              v == Deny(Failed("Access Token Secret Decrypt Failed."))
    ensures authorization.Some? && AccessSecret(prims, h).Some? && RefreshDecryption(prims, h).Threw? ==>
              v == Deny(Error(RefreshDecryption(prims, h).error))
    ensures authorization.Some? && AccessSecret(prims, h).Some? && RefreshDecryption(prims, h) == Done(None) ==>
              v == Deny(Failed("Refresh Token Secret Decrypt Failed."))
    ensures authorization.Some? && AccessSecret(prims, h).Some? && RefreshSecret(prims, h).Some? &&
            prims.Verify(authorization.value, AccessSecret(prims, h).value, now).Threw? ==>
              v == Deny(Unauthorized("Token expired. Signin again."))
    ensures v.Revoke? <==>
              authorization.Some? && AccessSecret(prims, h).Some? && RefreshSecret(prims, h).Some? &&
              prims.Verify(authorization.value, AccessSecret(prims, h).value, now).Done?
    ensures v.Revoke? ==> v.id == prims.Verify(authorization.value, AccessSecret(prims, h).value, now).value.claims.id
    ensures v.Deny? ==> v.outcome.Unauthorized? || v.outcome.Error? || v.outcome.Failed?
    ensures v.Deny? && v.outcome.Unauthorized? ==>
              || authorization.None?
              || (&& AccessSecret(prims, h).Some? && RefreshSecret(prims, h).Some?
                  && prims.Verify(authorization.value, AccessSecret(prims, h).value, now).Threw?)
  {
    if authorization.None? then Deny(Unauthorized("Required authorization."))
    else match prims.decrypt(AccessCipher(h), h.apiKey)
      case Threw(e) => Deny(Error(e))
      case Done(None) => Deny(Failed("Access Token Secret Decrypt Failed."))
      case Done(Some(das)) =>
        match prims.decrypt(RefreshCipher(h), h.apiKey)
        case Threw(e) => Deny(Error(e))
        case Done(None) => Deny(Failed("Refresh Token Secret Decrypt Failed."))
        case Done(Some(_)) =>
          match prims.Verify(authorization.value, das, now)
          case Threw(_) => Deny(Unauthorized("Token expired. Signin again."))
          case Done(payload) => Revoke(payload.claims.id)
  }

  /**
   * `logout`: a denied check, or an `{id}-access-token` that is already gone,
   * leaves the ledger unchanged. Otherwise both of the subject's entries are
   * removed and nothing else is; the "already logged-out" answer, which needs
   * both deletions to remove nothing, cannot follow the successful read.
   */
  method Logout(ledger: RedisClient, prims: Primitives, h: TenantHeaders, authorization: Option<string>, now: int)
    returns (r: Outcome)
    modifies ledger
    ensures r != Failed("You are already logged-out")
    ensures match LogoutCheck(prims, h, authorization, now)
      case Deny(o) => r == o && ledger.entries == old(ledger.entries)
      case Revoke(id) =>
        if AccessKey(id) in old(ledger.entries) then
          && r == Success(Null, "You are now successfully logged-out")
          && ledger.entries == old(ledger.entries) - {AccessKey(id), RefreshKey(id)}
          && ledger.Session(id) == Anonymous
          && forall other :: other != id ==> ledger.Session(other) == old(ledger.Session(other))
        else
          r == Unauthorized("Token invalid. Signin again.") && ledger.entries == old(ledger.entries)
  {
    var verdict := LogoutCheck(prims, h, authorization, now);
    if verdict.Deny? {
      return verdict.outcome;
    }
    var id := verdict.id;
    var live := ledger.Get(AccessKey(id));
    if live.None? {
      return Unauthorized("Token invalid. Signin again.");
    }
    var accessRemoved := ledger.Del(AccessKey(id));
    var refreshRemoved := ledger.Del(RefreshKey(id));
    if accessRemoved == 0 && refreshRemoved == 0 {
      return Failed("You are already logged-out");
    }
    r := Success(Null, "You are now successfully logged-out");
    forall other | other != id
      ensures ledger.Session(other) == old(ledger.Session(other))
    {
      OtherSessionsUntouched(old(ledger.entries), id, other, Entry("", 0), Entry("", 0));
    }
  }
}
