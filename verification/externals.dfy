/** The foreign primitives the handlers call, as oracles: the model never
    looks inside them, it only passes their answers along. */
module Externals {
  import opened Common

  /** The parts of zod, `Date` and `Number` the schemas rely on. */
  datatype Validators = Validators(
    isEmail: string -> bool,             // z.string().email()
    parsesAsDate: string -> bool,        // !isNaN(Date.parse(s))
    isNonNegativeNumber: string -> bool, // !isNaN(Number(s)) && Number(s) >= 0
    isoDate: string -> string,           // new Date(s).toISOString().split('T')[0]
    parseFee: string -> real             // parseFloat(s)
  )

  /** bcrypt with cost 10: `hash(p)` and `compare(p, h)`. */
  datatype Hasher = Hasher(
    hash: string -> string,
    compare: (string, string) -> bool
  )

  /** The claims login puts under `user` in the token payload. */
  datatype TokenUser = TokenUser(userID: int, email: string, role: string)

  /** A decoded token payload as a verifier returns it. The user object and
      its `userID` may be missing from a token signed by someone else. */
  datatype DecodedUser = DecodedUser(userID: Option<int>, email: Option<string>, role: Option<string>)
  datatype Payload = Payload(user: Option<DecodedUser>)

  /** `jwt.sign(payload, secret, { expiresIn })`, the expiry in seconds. */
  type Signer = (TokenUser, string, nat) -> string

  /** `jwt.verify(token, secret)`: the payload, or None when the signature
      is bad, the token expired or the secret is missing (it throws). */
  type Verifier = string -> Option<Payload>
}
