/** Session tokens: `jwt.sign({ id }, secret, { expiresIn: "1h" })` at login
    and `jwt.verify(token, secret, ...)` in the authorization gate.

    Only the claims are modelled. The signature is abstract: a verifier
    hands in `decode`, which maps a token string to the claims it carries
    when its signature checks out under the server's secret, and to `None`
    otherwise. Times are whole seconds since the epoch, as in a token's
    `iat` and `exp` claims. */
module Tokens {
  import opened Wrappers

  /** "1h", in seconds. */
  const TOKEN_LIFETIME: nat := 3600

  datatype Claims = Claims(id: nat, iat: nat, exp: nat)

  /** The claims of a token signed at time `now` for account `id`. */
  function Issue(id: nat, now: nat): (c: Claims)
    ensures c.id == id && c.iat == now && c.exp - c.iat == TOKEN_LIFETIME
  {
    Claims(id, now, now + TOKEN_LIFETIME)
  }

  /** `jwt.verify`: the identity claim of a token whose signature checks out
      and that has not expired at `now` (it expires at `exp` itself). */
  function Verify(token: string, decode: string -> Option<Claims>, now: nat): (r: Option<nat>)
    ensures r.Some? <==> decode(token).Some? && now < decode(token).value.exp
    ensures r.Some? ==> r.value == decode(token).value.id
  {
    match decode(token)
    case None => None
    case Some(c) => if now < c.exp then Some(c.id) else None
  }

  /** A token issued at `issuedAt` verifies to its account id at every
      time before `issuedAt + TOKEN_LIFETIME`, and at no time from then on. */
  lemma IssuedTokenLifetime(token: string, decode: string -> Option<Claims>, id: nat, issuedAt: nat, now: nat)
    requires decode(token) == Some(Issue(id, issuedAt))
    ensures Verify(token, decode, now) == Some(id) <==> now < issuedAt + TOKEN_LIFETIME
    ensures now >= issuedAt + TOKEN_LIFETIME ==> Verify(token, decode, now) == None
  {
  }

  /** The one-hour boundary: valid 59 minutes after issue, invalid after 61. */
  lemma ValidAt59InvalidAt61(token: string, decode: string -> Option<Claims>, id: nat, issuedAt: nat)
    requires decode(token) == Some(Issue(id, issuedAt))
    ensures Verify(token, decode, issuedAt + 59 * 60) == Some(id)
    ensures Verify(token, decode, issuedAt + 61 * 60) == None
  {
    IssuedTokenLifetime(token, decode, id, issuedAt, issuedAt + 59 * 60);
    IssuedTokenLifetime(token, decode, id, issuedAt, issuedAt + 61 * 60);
  }
}
