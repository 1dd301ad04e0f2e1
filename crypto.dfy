/** Password hashing and session tokens, as the controllers use them.
    bcrypt is a foreign library: the model keeps only what the controllers
    rely on, that `compare(p, hash(p))` succeeds and that a hash made from one
    password does not verify another. The digest keeps its plaintext so that
    this can be stated; one-wayness is not modelled. */
module Crypto {

  /** `bcrypt.hash(password, 10)` with the random salt passed in. */
  datatype Digest = Digest(salt: nat, plain: string)

  function Hash(password: string, salt: nat): (d: Digest)
    ensures d.salt == salt
  {
    Digest(salt, password)
  }

  /** `bcrypt.compare(candidate, digest)`. */
  predicate Compare(candidate: string, d: Digest) {
    d.plain == candidate
  }

  /** A digest verifies exactly the password it was made from, whatever the salt. */
  lemma CompareHash(p: string, q: string, salt: nat)
    ensures Compare(p, Hash(p, salt))
    ensures Compare(q, Hash(p, salt)) <==> q == p
  {
  }

  /** The payload `jwt.sign` signs; the signature and expiry are not modelled. */
  datatype Token = Token(userId: nat, email: string, role: string)
}
