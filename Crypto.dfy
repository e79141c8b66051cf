/**
 * The two foreign cryptographic libraries the handlers call: jsonwebtoken
 * (sign/verify) and bcrypt (hash/compare). They are not modelled; every
 * operation that uses them takes them as function parameters, and the
 * properties that need them to behave say so through `Ideal` and `Sound`.
 */
module Crypto {
  import opened Records

  /** The two signing secrets, JWT_USER_PASSWORD and JWT_ADMIN_PASSWORD, taken to be distinct. */
  datatype Secret = UserSecret | AdminSecret

  /**
   * A token payload as the gates see it after decoding: `id`, `_id` (here
   * `objectId`) and `role`, each possibly missing. The issued-at and expiry
   * claims are not represented.
   */
  datatype Claims = Claims(id: Option<Id>, objectId: Option<Id>, role: Option<string>)

  /** jwt.sign(payload, secret, { expiresIn }) with the lifetime in seconds. */
  type Signer = (Claims, Secret, nat) -> string

  /** jwt.verify(token, secret): the decoded payload, or None where it throws. */
  type Verifier = (Secret, string) -> Option<Claims>

  /** bcrypt.hash(password, 10), with the salt folded into the function. */
  type Hasher = string -> string

  /** bcrypt.compare(password, hash). */
  type Comparer = (string, string) -> bool

  /** `expiresIn: "1d"`. */
  const OneDay: nat := 86400

  /**
   * An idealised JWT library: a token verifies under exactly the secret that
   * signed it and yields the signed payload back, and a token (three base64url
   * parts joined by dots) is never empty and never contains a space. Expiry
   * is not modelled.
   */
  ghost predicate Ideal(sign: Signer, verify: Verifier)
  {
    && (forall c, s, e, s' :: verify(s', sign(c, s, e)) == if s' == s then Some(c) else None)
    && (forall c, s, e :: sign(c, s, e) != "" && ' ' !in sign(c, s, e))
  }

  /** bcrypt's guarantee: a password matches its own hash. */
  ghost predicate Sound(hash: Hasher, compare: Comparer)
  {
    forall p :: compare(p, hash(p))
  }
}
