/**
 * Stand-ins for the foreign primitives the service calls: bcrypt's `hash` and
 * `compare`, and rand-token's `uid`. Their randomness (bcrypt's salt, uid's
 * string) is a parameter supplied by the caller.
 */
module Primitives {

  /** The head of every hash: bcrypt's version tag and the cost factor 10 the service passes. */
  const BcryptPrefix: string := "$2b$10$"
  const SaltLength: nat := 22

  /** A salt as bcrypt draws it: 22 characters. */
  predicate IsSalt(salt: string) {
    |salt| == SaltLength
  }

  /**
   * `bcrypt.hash(password, 10)` with the given salt. The encoding is a
   * transparent stand-in (prefix, salt, then the input): the model only ever
   * applies `Matches` to it, so one-wayness plays no part.
   */
  function Hash(password: string, salt: string): (h: string)
    requires IsSalt(salt)
    ensures Matches(password, h)
    ensures h != password && h != ""
  {
    BcryptPrefix + salt + password
  }

  /** `bcrypt.compare(password, h)`. */
  predicate Matches(password: string, h: string) {
    |h| >= |BcryptPrefix| + SaltLength
    && h[..|BcryptPrefix|] == BcryptPrefix
    && h[|BcryptPrefix| + SaltLength..] == password
  }

  /** A hash matches the password it was made from and no other. */
  lemma MatchesExactlyHashedPassword(p: string, q: string, salt: string)
    requires IsSalt(salt)
    ensures Matches(q, Hash(p, salt)) <==> q == p
  {
  }

  predicate IsAlphanumeric(c: char) {
    'a' <= c <= 'z' || 'A' <= c <= 'Z' || '0' <= c <= '9'
  }

  /** A string `uid(n)` can return: n alphanumeric characters. */
  predicate IsUid(t: string, n: nat) {
    |t| == n && forall i :: 0 <= i < |t| ==> IsAlphanumeric(t[i])
  }
}
