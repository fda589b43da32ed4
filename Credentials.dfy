/**
 * Stand-ins for the two crypto libraries the controller calls: bcrypt
 * (password hashing) and jsonwebtoken (session tokens).
 *
 * A bcrypt hash is kept as a symbolic term: it records the salt and the
 * plaintext it was made from, and the only operation on it is Compare. Its
 * one-wayness, cost and constant-time comparison are not modelled.
 */
module Credentials {

  /** The random salt `bcrypt.genSalt` returns; supplied by the caller. */
  type Salt = nat

  /** The cost factor passed to `bcrypt.genSalt`. */
  const SaltRounds: nat := 10

  datatype PasswordHash = Bcrypt(rounds: nat, salt: Salt, secret: string)

  /** `bcrypt.hash(password, salt)`. */
  function Hash(password: string, salt: Salt): (h: PasswordHash)
    ensures h.salt == salt && h.rounds == SaltRounds
  {
    Bcrypt(SaltRounds, salt, password)
  }

  /** `bcrypt.compare(password, h)`: recomputes with the salt and cost stored in `h`. */
  function Compare(password: string, h: PasswordHash): (ok: bool)
    ensures h.rounds == SaltRounds ==> (ok <==> h == Hash(password, h.salt))
  {
    Bcrypt(h.rounds, h.salt, password) == h
  }

  /** A symbolic hash matches the password it was made from and no other (no 72-byte truncation). */
  lemma CompareHash(p: string, q: string, salt: Salt)
    ensures Compare(p, Hash(q, salt)) <==> p == q
  {
  }

  /** The `expiresIn: "1d"` of the session token, in seconds. */
  const SessionLifetime: nat := 24 * 60 * 60

  /** The claims of a signed session token; `issuedAt`/`expiresAt` are in seconds. */
  datatype SessionToken = SessionToken(id: nat, isAdmin: bool, issuedAt: nat, expiresAt: nat)

  /**
   * `jwt.sign({ id, isAdmin }, key, { expiresIn: "1d" })` at `nowMs`
   * milliseconds: the claims carry the id and flag, issued at the current
   * whole second and expiring one day later.
   */
  function Sign(id: nat, isAdmin: bool, nowMs: nat): (t: SessionToken)
    ensures t.id == id && t.isAdmin == isAdmin
    ensures t.issuedAt * 1000 <= nowMs < t.issuedAt * 1000 + 1000
    ensures t.expiresAt == t.issuedAt + SessionLifetime
  {
    SessionToken(id, isAdmin, nowMs / 1000, nowMs / 1000 + SessionLifetime)
  }
}
