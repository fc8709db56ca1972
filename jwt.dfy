/** JSON Web Tokens as the backend uses them (backend/utils/generateToken.js and the
    `jwt.verify` calls of the middlewares), without the cryptography.

    A token is the text the signer handed out. `issued` maps every such text to the claims
    it carries and the secret it was signed with; an HMAC signature checks under a secret
    exactly when the token was signed with that secret, so `Verify` succeeds only for a
    token in `issued`, under its own secret, before its `exp`. */
module Jwt {
  import opened Js
  import opened Mongo

  /** The payload: `id` as signed, `iat` and `exp` in seconds since the epoch
      (the NumericDate of section 2 of RFC 7519). */
  datatype Claims = Claims(id: Id, iat: int, exp: int)

  datatype SignedToken = SignedToken(claims: Claims, secret: string)

  /** `expiresIn: "1h"`. */
  const LifetimeSeconds := 3600

  /** `generateToken(user)` at time `nowMs`: `jwt.sign({ id }, secret, { expiresIn: "1h" })`.
      Signing throws when the secret is missing or empty. */
  function GenerateToken(id: Id, secret: Option<string>, nowMs: int): (r: Option<SignedToken>)
    ensures r.Some? <==> Truthy(secret)
    ensures r.Some? ==> r.value.secret == secret.value && r.value.claims.id == id
    ensures r.Some? ==> r.value.claims.exp == r.value.claims.iat + LifetimeSeconds
    ensures r.Some? ==> r.value.claims.iat * 1000 <= nowMs < (r.value.claims.iat + 1) * 1000
  {
    if Truthy(secret) then
      var iat := nowMs / 1000;
      Some(SignedToken(Claims(id, iat, iat + LifetimeSeconds), secret.value))
    else None
  }

  datatype Verified = Decoded(claims: Claims) | VerifyError

  /** `jwt.verify(token, secret)` at `nowSec` (whole seconds): throws for a missing or empty
      token, a missing or empty secret, a token not signed with that secret, or an expired one. */
  function Verify(issued: map<string, SignedToken>, token: Option<string>, secret: Option<string>, nowSec: int): (r: Verified)
    ensures r.Decoded? <==> Truthy(token) && Truthy(secret) && token.value in issued
                            && issued[token.value].secret == secret.value && nowSec < issued[token.value].claims.exp
    ensures r.Decoded? ==> r.claims == issued[token.value].claims
  {
    if Truthy(token) && Truthy(secret) && token.value in issued
       && issued[token.value].secret == secret.value && nowSec < issued[token.value].claims.exp
    then Decoded(issued[token.value].claims)
    else VerifyError
  }

  /** A token signed with `secret` verifies under that secret until it expires, and under no other secret. */
  lemma SignVerifyRoundTrip(issued: map<string, SignedToken>, token: string, id: Id, secret: Option<string>,
                            nowMs: int, other: Option<string>, laterSec: int)
    requires token != "" && Truthy(secret)
    requires token in issued && Some(issued[token]) == GenerateToken(id, secret, nowMs)
    ensures nowMs / 1000 <= laterSec < nowMs / 1000 + LifetimeSeconds
            ==> Verify(issued, Some(token), secret, laterSec) == Decoded(Claims(id, nowMs / 1000, nowMs / 1000 + LifetimeSeconds))
    ensures other != secret ==> Verify(issued, Some(token), other, laterSec) == VerifyError
    ensures laterSec >= nowMs / 1000 + LifetimeSeconds ==> Verify(issued, Some(token), secret, laterSec) == VerifyError
  {
  }
}
