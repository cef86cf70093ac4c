/** Password hashing as the server uses it: `bcrypt.hash(password, 10)` at
    signup and `bcrypt.compare(password, stored)` at login.

    bcrypt is modelled symbolically: a hash is an opaque value that records
    the work factor, the random salt and the secret it was derived from, and
    that no handler ever turns back into text. Comparison succeeds exactly
    when the candidate is the secret the hash was made from. */
module Passwords {

  /** The work factor passed to `bcrypt.hash`. */
  const SALT_ROUNDS: nat := 10

  datatype PasswordHash = Bcrypt(cost: nat, salt: nat, secret: string)

  /** `bcrypt.hash(password, SALT_ROUNDS)`; the salt is the random input. */
  function Hash(password: string, salt: nat): (h: PasswordHash)
    ensures h.cost == SALT_ROUNDS
  {
    Bcrypt(SALT_ROUNDS, salt, password)
  }

  /** `bcrypt.compare(candidate, h)`: a mismatch is an ordinary `false`. */
  predicate Compare(candidate: string, h: PasswordHash) {
    candidate == h.secret
  }

  /** A hash accepts the password it was made from, whatever the salt, and
      rejects every other password. This is the model's exact compare;
      bcrypt also accepts candidates equal to the password in its first 72
      key bytes. */
  lemma CompareHash(password: string, candidate: string, salt: nat)
    ensures Compare(candidate, Hash(password, salt)) <==> candidate == password
  {
  }
}
