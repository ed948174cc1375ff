/**
 * JSON Web Tokens as an ideal signature scheme: a token either was signed
 * with some key at some time, or is text nobody signed. Verification accepts
 * exactly the tokens signed with the verifying key that have not expired.
 */
module Jwt {
  import opened Wrappers
  import opened Records

  /** `expiresIn: '1d'`, in seconds. */
  const Lifetime: int := 24 * 60 * 60

  /** The payload `{ id, email }` the controllers sign. */
  datatype Claims = Claims(id: Id, email: string)

  datatype Token =
    | Signed(claims: Claims, key: string, expiresAt: int)
    | Forged(text: string)

  /** `jwt.sign(claims, secret, { expiresIn: '1d' })` at time `now` (seconds). */
  function Sign(claims: Claims, secret: string, now: int): (t: Token)
    ensures t.Signed? && t.claims == claims && t.key == secret
    ensures t.expiresAt - now == Lifetime
  {
    Signed(claims, secret, now + Lifetime)
  }

  /**
   * `jwt.verify(token, secret)` at time `now`: the claims, or None where the
   * library throws (no secret or an empty one, a token not signed with this
   * secret, or `now` at or past the expiry).
   */
  function Verify(token: Token, secret: Option<string>, now: int): (r: Option<Claims>)
    ensures r.Some? <==>
      && token.Signed? && secret.Some? && secret.value != ""
      && token.key == secret.value && now < token.expiresAt
    ensures r.Some? ==> r.value == token.claims
  {
    if token.Signed? && secret.Some? && secret.value != "" && token.key == secret.value && now < token.expiresAt
    then Some(token.claims)
    else None
  }

  /** A token verifies under its own secret for exactly one day after signing. */
  lemma SignedTokenVerifies(claims: Claims, secret: string, signedAt: int, now: int)
    requires secret != ""
    ensures Verify(Sign(claims, secret, signedAt), Some(secret), now) == Some(claims)
      <==> now < signedAt + Lifetime
  {
  }

  /** No secret at all rejects every token, however it was signed. */
  lemma NoSecretRejects(token: Token, now: int)
    ensures Verify(token, None, now).None?
  {
  }
}
