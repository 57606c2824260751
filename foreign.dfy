/** The libraries the core calls but does not implement. Each is a value of
    function type handed in by the caller, so that no property of the model
    depends on how tokens are signed, passwords hashed or emails recognised.
    What a proof needs of them is stated as a `requires` of that proof. */
module Foreign {
  import opened Basics
  import opened Types

  /** jsonwebtoken: `sign(payload, secret)` and `verify(token, secret)`;
      `verify` yields `None` where the library throws (bad signature, expired
      or malformed token). Expiry is decided inside `verify`. */
  datatype Jwt = Jwt(
    sign: (TokenPayload, string) -> string,
    verify: (string, string) -> Option<TokenPayload>)

  /** bcryptjs: `hash(plaintext, salt)` and `compare(plaintext, hashed)`; the
      salt (random in the library) is a parameter. */
  datatype Bcrypt = Bcrypt(
    hash: (string, string) -> string,
    compare: (string, string) -> bool)

  /** zod's `.email()` check. */
  type EmailCheck = string -> bool
}
