/**
 * The credential hasher (passlib's Argon2 context). Argon2 is not modelled:
 * a digest is an injective stand-in for `hash(p)`, and `Verify` accepts
 * exactly the password the digest was made from.
 */
module Hasher {

  datatype Digest = Argon2(of: string)

  /** `pwd_context.hash(p)`. */
  function Hash(p: string): Digest {
    Argon2(p)
  }

  /** `pwd_context.verify(p, d)`: never raises, answers false for a wrong password. */
  predicate Verify(p: string, d: Digest) {
    d == Hash(p)
  }

  /** A password verifies against its own digest, and only it does. */
  lemma VerifyHash(p: string, q: string)
    ensures Verify(p, Hash(p))
    ensures Verify(q, Hash(p)) <==> q == p
  {
  }
}
