/**
 * The foreign cryptographic libraries the controllers call: bcrypt hashing and
 * comparison, AES decryption of the tenant secrets, JSON Web Token signing and
 * verification, and PBKDF2 key derivation. Their internals are not modelled;
 * each is a function value held by `Primitives`, and the few facts the flows
 * rely on are stated once, in `Primitives.Lawful`.
 */
module Crypto {
  import opened Common

  /** The claims a token carries: `{id, username, email}`. */
  datatype Claims = Claims(id: string, username: Option<string>, email: Option<string>)

  /**
   * Everything a token string stands for: its claims, the secret it was signed
   * with, and the registered claims `iat` and `exp` (sections 4.1.6 and 4.1.4
   * of RFC 7519), in seconds.
   */
  datatype Signed = Signed(claims: Claims, secret: string, iat: int, exp: int)

  /** What a successful verification returns: the claims, plus `iat` and `exp`. */
  datatype Payload = Payload(claims: Claims, iat: int, exp: int)

  /** `expiresIn: '10m'`. */
  const AccessLifetime: int := 10 * 60
  /** `expiresIn: '10d'`. */
  const RefreshLifetime: int := 10 * 24 * 60 * 60

  /**
   * The library calls, as function values.
   * - `hash`: bcrypt hashing of a plaintext.
   * - `decrypt(ciphertext, key)`: AES decryption; it may throw, return null, or return a plaintext.
   * - `sign`: JWT signing of a claim set; it may throw (an empty secret, for one).
   * - `decode`: what a token string was signed from, if it is a well-formed token at all.
   * - `deriveKey(digest, salt)`: PBKDF2 (section 5.2 of RFC 8018); it may throw or return null.
   */
  datatype Primitives = Primitives(
    hash: string -> string,
    decrypt: (string, string) -> Attempt<Option<string>>,
    sign: Signed -> Attempt<string>,
    decode: string -> Option<Signed>,
    deriveKey: (string, string) -> Attempt<Option<string>>)
  {
    /** bcrypt's compare: the plaintext matches exactly the digest it hashes to. */
    predicate Compare(plain: string, digest: string) {
      digest == hash(plain)
    }

    /** `jwt.sign(claims, secret, {expiresIn: lifetime})` at time `now`. */
    function Sign(claims: Claims, secret: string, now: int, lifetime: int): Attempt<string> {
      sign(Signed(claims, secret, now, now + lifetime))
    }

    /**
     * `jwt.verify(token, secret)` at time `now`: malformed tokens are refused,
     * then a token signed under another secret, then an expired one.
     */
    function Verify(token: string, secret: string, now: int): Attempt<Payload> {
      match decode(token)
      case None => Threw("jwt malformed")
      case Some(s) =>
        if s.secret != secret then Threw("invalid signature")
        else if s.exp <= now then Threw("jwt expired")
        else Done(Payload(s.claims, s.iat, s.exp))
    }

    /** The only fact assumed of the libraries: a signed token decodes to what was signed. */
    ghost predicate Lawful() {
      forall x :: sign(x).Done? ==> decode(sign(x).value) == Some(x)
    }
  }

  /** The plaintext a decryption produced, if it produced one. */
  function Plaintext(r: Attempt<Option<string>>): Option<string> {
    if r.Done? then r.value else None
  }

  /**
   * A token verifies, under the secret it was signed with, to the claims it
   * was signed with until it expires; under any other secret it never does.
   */
  lemma SignedTokenVerifies(p: Primitives, claims: Claims, secret: string, now: int, lifetime: int,
                            token: string, secret': string, later: int)
    requires p.Lawful()
    requires p.Sign(claims, secret, now, lifetime) == Done(token)
    ensures secret' == secret && later < now + lifetime ==>
              p.Verify(token, secret', later) == Done(Payload(claims, now, now + lifetime))
    ensures secret' != secret || now + lifetime <= later ==> p.Verify(token, secret', later).Threw?
  {
    assert p.decode(token) == Some(Signed(claims, secret, now, now + lifetime));
  }
}
