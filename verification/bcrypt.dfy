/** The password hashing the account routes rely on (`bcrypt.hash(password, 10)` and
    `bcrypt.compare`). The derived key is modelled by an injective stand-in: what
    the store keeps is a `Digest`, a type distinct from the plain-text password,
    and `Verify` accepts exactly the password the digest was made from. */
module Bcrypt {

  /** Work factor passed to `bcrypt.hash`. */
  const Rounds: nat := 10

  /** A stored hash: the work factor and random salt it was made with, and the derived key. */
  datatype Digest = Digest(rounds: nat, salt: nat, key: seq<char>)

  /** `bcrypt.hash(password, 10)`; the salt is the random input the library draws. */
  function Hash(password: string, salt: nat): Digest
  {
    Digest(Rounds, salt, password)
  }

  /** `bcrypt.compare(password, digest)`: rounds and salt are read from the digest itself. */
  predicate Verify(password: string, digest: Digest)
  {
    digest.key == password
  }

  /** A digest accepts the password it was made from, whatever the salt. */
  lemma VerifyHash(password: string, salt: nat)
    ensures Verify(password, Hash(password, salt))
  {
  }

  /** The stand-in `Verify` rejects every other password. This is a property of the
      stand-in only: real bcrypt reads at most the first 72 bytes of a password, so two
      passwords that share them both verify against the same digest. */
  lemma VerifyRejectsOthers(password: string, other: string, salt: nat)
    requires other != password
    ensures !Verify(other, Hash(password, salt))
  {
  }
}
