/**
 * The password primitive behind `createUser` and `verifyPassword`
 * (app/api/auth/prisma-auth.ts): bcrypt at cost 10 with a random salt.
 * The key derivation itself is a stand-in; what the handlers rely on is
 * that a stored digest is not the password and that comparing a password
 * against the digest made from it succeeds.
 */
module Credentials {
  import opened Hex

  /** `bcrypt.hash(password, 10)` */
  const Rounds: nat := 10

  /** A stored bcrypt string: cost, salt and the checksum derived from the password. */
  datatype Digest = Digest(cost: nat, salt: seq<Byte>, checksum: nat)

  const Modulus: nat := 0x1_0000_0000_0000_0000

  /** Stand-in for bcrypt's key derivation: a deterministic digest of salt, cost and password. */
  function Checksum(cost: nat, salt: seq<Byte>, password: string): nat
  {
    if password == [] then (cost + |salt|) % Modulus
    else (Checksum(cost, salt, password[..|password| - 1]) * 131 + password[|password| - 1] as int) % Modulus
  }

  /** `bcrypt.hash(password, cost)` with the given salt: the digest records both. */
  function Hash(password: string, cost: nat, salt: seq<Byte>): (d: Digest)
    ensures d.cost == cost && d.salt == salt
  {
    Digest(cost, salt, Checksum(cost, salt, password))
  }

  /**
   * `bcrypt.compare(password, stored)`: true exactly when hashing the password
   * again with the stored cost and salt reproduces the stored digest.
   */
  predicate Matches(password: string, stored: Digest)
    ensures Matches(password, stored) <==> Hash(password, stored.cost, stored.salt) == stored
  {
    Checksum(stored.cost, stored.salt, password) == stored.checksum
  }

  /** A digest made from a password accepts that password, whatever the salt. */
  lemma HashMatches(password: string, salt: seq<Byte>)
    ensures Matches(password, Hash(password, Rounds, salt))
    ensures Hash(password, Rounds, salt).cost == Rounds
  {
  }
}
