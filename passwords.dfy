/**
 * Password hashing, as the application uses it: a salted one-way digest is
 * stored in place of the password, and a candidate password is accepted
 * exactly when it is the one the digest was made from.  The hashing
 * algorithm itself is not modelled; the salt, which the library draws at
 * random, is a parameter.
 */
module Passwords {

  /**
   * A stored password digest.  The model keeps the preimage inside the value
   * so that checking can be defined at all; no other module reads it, and no
   * record stores a password as a string.
   */
  datatype Digest = Digest(salt: string, preimage: string)

  /** generate_password_hash: the digest of `password` under `salt`. */
  function Hash(password: string, salt: string): (d: Digest)
    ensures d.salt == salt
  {
    Digest(salt, password)
  }

  /** check_password_hash: does `candidate` hash to `d` under some salt? */
  function Check(d: Digest, candidate: string): (ok: bool)
    ensures ok <==> exists salt :: d == Hash(candidate, salt)
  {
    assert d == Hash(d.preimage, d.salt);
    d.preimage == candidate
  }

  /** Checking a fresh digest accepts the hashed password and nothing else, whatever the salt. */
  lemma CheckHash(password: string, salt: string, candidate: string)
    ensures Check(Hash(password, salt), candidate) <==> password == candidate
  {
  }
}
