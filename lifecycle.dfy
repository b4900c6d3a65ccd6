/**
 * How the end-user flows compose: the tokens signin issues verify under their
 * own secret and no other, a refresh before logout re-issues the signin
 * claims, and after logout the same refresh token is refused although it
 * still verifies.
 */
module SessionLifecycle {
  import opened Common
  import opened Crypto
  import opened Ledger
  import opened Users
  import opened Responses
  import opened Headers
  import opened AuthController

  /**
   * Signin's tokens: the access token verifies under the access secret to the
   * signin claims for ten minutes, the refresh token under the refresh secret
   * for ten days, and when the two secrets differ neither token verifies where
   * the other is expected.
   */
  lemma SigninTokensVerify(rows: seq<UserRow>, prims: Primitives, h: TenantHeaders, appCode: string,
                           c: Credentials, now: int, later: int)
    requires prims.Lawful()
    requires SigninCheck(rows, prims, h, appCode, c, now).Grant?
    ensures var v := SigninCheck(rows, prims, h, appCode, c, now);
            var claims := ClaimsFor(Find(rows, LookupFilter(appCode, c)).value, c);
            var das, drs := AccessSecret(prims, h).value, RefreshSecret(prims, h).value;
            && claims.id == v.id
            && (later < now + AccessLifetime ==>
                  prims.Verify(v.accessToken, das, later) == Done(Payload(claims, now, now + AccessLifetime)))
            && (later < now + RefreshLifetime ==>
                  prims.Verify(v.refreshToken, drs, later) == Done(Payload(claims, now, now + RefreshLifetime)))
            && (das != drs ==> prims.Verify(v.refreshToken, das, later).Threw? && prims.Verify(v.accessToken, drs, later).Threw?)
  {
    var v := SigninCheck(rows, prims, h, appCode, c, now);
    var claims := ClaimsFor(Find(rows, LookupFilter(appCode, c)).value, c);
    var das, drs := AccessSecret(prims, h).value, RefreshSecret(prims, h).value;
    SignedTokenVerifies(prims, claims, das, now, AccessLifetime, v.accessToken, das, later);
    SignedTokenVerifies(prims, claims, das, now, AccessLifetime, v.accessToken, drs, later);
    SignedTokenVerifies(prims, claims, drs, now, RefreshLifetime, v.refreshToken, drs, later);
    SignedTokenVerifies(prims, claims, drs, now, RefreshLifetime, v.refreshToken, das, later);
  }

  /**
   * Refresh while the refresh entry is live and the token unexpired: the
   * answer is a new access token over exactly the signin claims (id, username,
   * email), signed at `later` with the access secret, unless signing throws.
   */
  lemma RefreshAfterSignin(ledger: RedisClient, rows: seq<UserRow>, prims: Primitives, h: TenantHeaders,
                           appCode: string, c: Credentials, now: int, later: int)
    requires prims.Lawful()
    requires SigninCheck(rows, prims, h, appCode, c, now).Grant?
    requires RefreshKey(SigninCheck(rows, prims, h, appCode, c, now).id) in ledger.entries
    requires later < now + RefreshLifetime
    ensures var v := SigninCheck(rows, prims, h, appCode, c, now);
            var claims := ClaimsFor(Find(rows, LookupFilter(appCode, c)).value, c);
            Refresh(ledger, prims, h, Some(v.refreshToken), later) ==
              match prims.Sign(claims, AccessSecret(prims, h).value, later, AccessLifetime)
              case Done(accessToken) => Success(Access(accessToken), "Refresh Token Success")
              case Threw(e) => Error(e)
  {
    SigninTokensVerify(rows, prims, h, appCode, c, now, later);
  }

  /** A token refreshed in a later second than signin differs from signin's access token. */
  lemma RefreshedTokenIsNew(rows: seq<UserRow>, prims: Primitives, h: TenantHeaders, appCode: string,
                            c: Credentials, now: int, later: int, reissued: string)
    requires prims.Lawful()
    requires SigninCheck(rows, prims, h, appCode, c, now).Grant?
    requires prims.Sign(ClaimsFor(Find(rows, LookupFilter(appCode, c)).value, c), AccessSecret(prims, h).value,
                        later, AccessLifetime) == Done(reissued)
    requires later != now
    ensures reissued != SigninCheck(rows, prims, h, appCode, c, now).accessToken
  {
    var v := SigninCheck(rows, prims, h, appCode, c, now);
    assert prims.decode(reissued).value.iat == later;
    assert prims.decode(v.accessToken).value.iat == now;
  }

  /**
   * The whole session: signin at `t0`, refresh at `t1`, logout with the first
   * access token at `t2`, refresh with the same refresh token at `t3`, and a
   * second logout. The refresh before logout succeeds (unless signing throws),
   * the logout succeeds, the refresh after it is refused as logged-out, and the
   * second logout finds the access entry gone and answers Unauthorized.
   */
  method SigninRefreshLogout(ledger: RedisClient, users: UserTable, prims: Primitives, h: TenantHeaders,
                             appCode: string, c: Credentials, t0: int, t1: int, t2: int, t3: int)
    returns (signedIn: Outcome, refreshed: Outcome, loggedOut: Outcome, refused: Outcome, again: Outcome)
    requires prims.Lawful()
    requires SigninCheck(users.rows, prims, h, appCode, c, t0).Grant?
    requires t1 < t0 + RefreshLifetime && t2 < t0 + AccessLifetime && t3 < t0 + RefreshLifetime
    modifies ledger
    ensures signedIn.Success? && signedIn.body.Tokens?
    ensures refreshed.Success? || refreshed.Error?
    ensures refreshed.Success? ==>
              refreshed.body.Access? &&
              prims.decode(refreshed.body.accessToken) ==
                Some(Signed(ClaimsFor(Find(users.rows, LookupFilter(appCode, c)).value, c),
                            AccessSecret(prims, h).value, t1, t1 + AccessLifetime))
    ensures loggedOut == Success(Null, "You are now successfully logged-out")
    ensures prims.Verify(signedIn.body.refreshToken, RefreshSecret(prims, h).value, t3).Done?
    ensures refused == Unauthorized("Cannot refresh the token as you are already logged-out")
    ensures again == Unauthorized("Token invalid. Signin again.")
    ensures ledger.Session(signedIn.body.id) == Anonymous
  {
    var v := SigninCheck(users.rows, prims, h, appCode, c, t0);
    var claims := ClaimsFor(Find(users.rows, LookupFilter(appCode, c)).value, c);
    var das, drs := AccessSecret(prims, h).value, RefreshSecret(prims, h).value;
    SigninTokensVerify(users.rows, prims, h, appCode, c, t0, t2);
    SigninTokensVerify(users.rows, prims, h, appCode, c, t0, t3);

    signedIn := Signin(ledger, users, prims, h, appCode, c, t0);
    RefreshAfterSignin(ledger, users.rows, prims, h, appCode, c, t0, t1);
    refreshed := Refresh(ledger, prims, h, Some(v.refreshToken), t1);
    if refreshed.Success? {
      SignedTokenVerifies(prims, claims, das, t1, AccessLifetime, refreshed.body.accessToken, das, t1);
    }
    loggedOut := Logout(ledger, prims, h, Some(v.accessToken), t2);
    refused := Refresh(ledger, prims, h, Some(v.refreshToken), t3);
    again := Logout(ledger, prims, h, Some(v.accessToken), t2);
  }
}
