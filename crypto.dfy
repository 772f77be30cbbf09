/** The foreign primitives the routes call — bcrypt, SHA-256 and JWT signing —
    as symbolic values. Each constructor stands for the output of the library
    call on its argument; only the operations below look inside, so the model
    assumes exactly what the routes assume of the libraries: a bcrypt hash
    verifies against its own plaintext and no other, and SHA-256 does not
    collide (both follow from the constructors being injective). */
module Crypto {

  /** `bcrypt.hash(secret, salt)`; the salt is immaterial to `Compare`. */
  datatype PasswordHash = Bcrypt(secret: string)

  /** `crypto.createHash("sha256").update(input).digest("hex")`. */
  datatype Digest = Sha256(input: string)

  /** A signed session token: `jwt.sign({ userId, role }, secret, { expiresIn })`. */
  datatype SessionToken = Jwt(userId: nat, role: string, expiresIn: string)

  function Hash(secret: string): PasswordHash
  {
    Bcrypt(secret)
  }

  /** `bcrypt.compare(plain, stored)`: true exactly for the hashed plaintext. */
  predicate Compare(plain: string, stored: PasswordHash)
  {
    stored.secret == plain
  }
}
