/** The token signer (JWT), abstracted: a token is the record of what was signed. */
module Jwt {
  import opened Common

  /** The purpose a token was signed for. Each purpose has its own secret
      (`SEC_TKN`, `SEC_REF_TKN`, `SEC_RESET_PASSWORD`), so the kind stands for the
      secret that signed the token. */
  datatype Kind = Access | Refresh | Reset

  /** The `{ id, email }` payload every token of this service carries. */
  datatype Claims = Claims(id: UserId, email: string)

  /** A signed token: purpose, payload, expiry (in seconds) and a nonce that makes
      every issued token distinct. */
  datatype Token = Token(kind: Kind, claims: Claims, exp: nat, nonce: nat)

  /** `jwt.sign(claims, { secret, expiresIn: ttl })` at time `now`. */
  function Sign(kind: Kind, claims: Claims, now: nat, ttl: nat, nonce: nat): Token
  {
    Token(kind, claims, now + ttl, nonce)
  }

  /** `jwt.verify(token, { secret })` under the secret of `kind` at time `now`:
      the payload when the token was signed with that secret and has not expired,
      and one undifferentiated failure otherwise. */
  function VerifyJwt(t: Token, kind: Kind, now: nat): Option<Claims>
  {
    if t.kind == kind && now < t.exp then Some(t.claims) else None
  }

  /** A token verifies under one secret only, carries the claims it was signed
      with, and stays valid for exactly `ttl` seconds after issue. */
  lemma SignThenVerify(kind: Kind, claims: Claims, issued: nat, ttl: nat, nonce: nat, k: Kind, now: nat)
    requires issued <= now
    ensures VerifyJwt(Sign(kind, claims, issued, ttl, nonce), k, now)
            == if k == kind && now - issued < ttl then Some(claims) else None
  {
  }
}
