/**
 * Everything the two handlers take from outside the model: the configuration
 * read from the environment, the values drawn from randomness and the clock,
 * the foreign functions (zod's email check, bcrypt, jsonwebtoken) and which
 * awaited call, if any, throws.
 */
module Foreign {
  import opened Wrappers

  /** `process.env.NEXTAUTH_SECRET` and `process.env.NODE_ENV`; either may be unset. */
  datatype Env = Env(secret: Option<string>, nodeEnv: Option<string>)

  /** `crypto.randomUUID()` and `Date.now()` (milliseconds) as drawn on one request. */
  datatype Draws = Draws(uuid: string, now: int)

  /** The claims the login handler signs into its bearer token. */
  datatype Claims = Claims(userId: nat, sessionId: nat)

  /** The foreign functions, left uninterpreted: the model holds for every choice of them. */
  datatype Crypto = Crypto(
    isEmail: string -> bool,                   // zod's `.email()` check
    compare: (string, string) -> bool,         // bcrypt `compare(plaintext, digest)`
    hash: (string, nat) -> string,             // bcrypt `hash(plaintext, cost)`
    sign: (Claims, string, string) -> string)  // jsonwebtoken `sign(claims, secret, expiresIn)`

  /** An awaited call inside a handler's `try` block that may throw. */
  datatype Step =
    | ReadBody        // `request.json()`
    | FindUser        // `prisma.user.findUnique`
    | ComparePassword // bcrypt `compare`
    | CreateSession   // `prisma.session.create`
    | SignToken       // jsonwebtoken `sign`
    | HashPassword    // bcrypt `hash`
    | CreateUser      // `prisma.user.create`

  /** The call that throws on this request, with the thrown error's message. */
  datatype Fault = Fault(step: Step, message: string)

  predicate Throws(fault: Option<Fault>, step: Step)
  {
    fault.Some? && fault.value.step == step
  }

  /** The message jsonwebtoken throws with when the signing secret is unset or empty. */
  const MissingSecretMessage: string := "secretOrPrivateKey must have a value"

  /**
   * Whether `sign` throws: when the injected fault says so, or when the
   * secret (asserted non-null with `!` but never checked) is unset or empty.
   */
  function SignFailure(fault: Option<Fault>, env: Env): (r: Option<string>)
    ensures r.None? <==> !Throws(fault, SignToken) && env.secret.Some? && env.secret.value != ""
    ensures Throws(fault, SignToken) ==> r == Some(fault.value.message)
  {
    if Throws(fault, SignToken) then Some(fault.value.message)
    else if env.secret.None? || env.secret.value == "" then Some(MissingSecretMessage)
    else None
  }

  /** The message a store call throws with, if the injected fault is at that step. */
  function FaultAt(fault: Option<Fault>, step: Step): (r: Option<string>)
    ensures r.Some? <==> Throws(fault, step)
  {
    if Throws(fault, step) then Some(fault.value.message) else None
  }
}
