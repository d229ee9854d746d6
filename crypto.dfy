/** bcryptjs and jsonwebtoken, the two primitives the backend calls. Their
    algorithms are not modelled: each is a value made of the functions the
    backend calls, so every statement about them is relative to whatever those
    functions compute. */
module Crypto {
  import opened Wrappers

  /** The payload signed into every token: `{ userId, email }`. */
  datatype Claims = Claims(userId: string, email: string)

  /** `bcrypt.hash(s, rounds)` and `bcrypt.compare(s, hash)`. */
  datatype Bcrypt = Bcrypt(hash: (string, nat) -> string, compare: (string, string) -> bool)

  /** `jwt.sign(payload, key, { expiresIn })` and `jwt.verify(token, key)`;
      `verify` yields `None` where the library throws. */
  datatype Jwt = Jwt(sign: (Claims, string, string) -> string, verify: (string, string) -> Option<Claims>)

  /** Salt rounds passed to `bcrypt.hash` at signup. */
  const SALT_ROUNDS: nat := 12

  /** The `expiresIn` option of every token the backend signs. */
  const TOKEN_LIFETIME := "1h"

  /** A token library in which verifying with the signing key gives back the
      signed payload. */
  ghost predicate Sound(jwt: Jwt) {
    forall c: Claims, key: string, life: string {:trigger jwt.sign(c, key, life)} ::
      jwt.verify(jwt.sign(c, key, life), key) == Some(c)
  }

  /** A hashing library in which a password matches its own digest. */
  ghost predicate Matches(bcrypt: Bcrypt) {
    forall password: string, rounds: nat {:trigger bcrypt.hash(password, rounds)} ::
      bcrypt.compare(password, bcrypt.hash(password, rounds))
  }
}
