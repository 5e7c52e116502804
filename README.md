# Login and signup handlers, modelled in Dafny

This project models the server side of the app's email-and-password
authentication. It covers three pieces of the Next.js app.

- `POST /api/auth/login` checks the body against a zod schema. It looks the
  user up by email and compares the password with the stored bcrypt digest.
  On a match it creates a session row, signs a JSON Web Token over the user's
  id and the session's id, and sets that token as the `session-token` cookie.
- `POST /api/auth/signup` checks the body against its schema and refuses an
  email the store already holds. Otherwise it inserts a user carrying the
  bcrypt digest of the password. It answers with the created row minus its
  `password` column.
- `excludeFields` copies a record and deletes each listed key from the copy.

Every awaited call inside a handler's `try` block may throw. The handler then
logs the error and answers 500.

Layout, one module per file:

- `wrappers.dfy` (`Wrappers`): `Option` and `Result`.
- `object_utils.dfy` (`ObjectUtils`): `excludeFields` as a loop over a key
  sequence. `Without` is its reference meaning, and lemmas state its algebra.
- `http.dfy` (`Http`): JSON values, and a `Response` class whose cookie jar
  `SetCookie` updates in place.
- `logging.dfy` (`Logging`): a `Logger` class that records log events.
- `foreign.dfy` (`Foreign`): the environment, the random UUID and clock,
  bcrypt, jsonwebtoken, zod's email check and the injected throw. All of these
  are parameters.
- `validation.dfy` (`Validation`): zod's `safeParse` of an object of string
  fields.
- `store.dfy` (`Database`): a `Store` class with the user table (unique email
  index), the session table and id counters. Its invariant is `Valid`.
- `login_route.dfy` (`LoginRoute`) and `signup_route.dfy` (`SignupRoute`):
  the handlers, phase by phase.
- `auth_flow.dfy` (`AuthFlow`): the two handlers used together on one store.

Each handler's `Post` is a method over the store, the logger and the request
body. Its contract gives the response, the new tables, the log events and the
store calls made for every branch. The phase methods compose into `Post`:
`Authenticate`, `VerifyPassword`, `StartSession` and `IssueToken` for login,
and `Register` and `Insert` for signup. Each phase states its outcome as a
predicate over the state before it, so the full contract of `Post` is the
nesting of these predicates.

## Model

| member | source | states |
|---|---|---|
| ObjectUtils.ExcludeFields | src/lib/objectUtils.ts:9-20 | No listed key is in the result. Every key of the record that is not listed is kept with its value. No key outside the record appears. The result equals the reference restriction `Without`. |
| ObjectUtils.WithoutNothing | src/lib/objectUtils.ts:13-17 | An empty exclusion list yields a copy equal to the record. |
| ObjectUtils.WithoutDependsOnlyOnKeySet | src/lib/objectUtils.ts:15-17 | Two lists with the same keys give the same result, so order and repetition of the list do not matter. |
| ObjectUtils.WithoutAbsentKey | src/lib/objectUtils.ts:15-17 | Listing a key the record lacks has no effect. |
| ObjectUtils.WithoutRepeatedKey | src/lib/objectUtils.ts:15-17 | Listing a key a second time has no extra effect. |
| ObjectUtils.WithoutIdempotent | src/lib/objectUtils.ts:15-17 | Excluding again with the same list changes nothing. |
| ObjectUtils.WithoutComposes | src/lib/objectUtils.ts:15-17 | Excluding one list and then another is excluding both lists at once. |
| Validation.FieldIssue | src/app/api/auth/signup/route.ts:11-15 | A field yields an issue exactly when it is missing, is not a string, or fails its check. The issue's path is the field's name, and for a string it carries the schema's message. |
| Validation.Issues | src/app/api/auth/signup/route.ts:20 | There are exactly as many issues as refused fields (`Failing`), so none exactly when every field is accepted. |
| Validation.IssuesInSchemaOrder | src/app/api/auth/signup/route.ts:20-26 | Issues come in schema order: of two reported issues, the earlier one is the issue of an earlier failing field. |
| Validation.FailingFieldReported | src/app/api/auth/signup/route.ts:20-26 | Every field that fails is reported with its own issue. |
| Validation.IssueFromFailingField | src/app/api/auth/signup/route.ts:20-26 | Every reported issue comes from a field that fails. |
| Validation.SafeParse | src/app/api/auth/login/route.ts:12-20 | Parsing succeeds exactly when the body is an object whose schema fields are all accepted. The data then holds exactly the schema's fields with the body's strings. A failure carries at least one issue, and a non-object body fails with one issue at the root. |
| Validation.IssuesValue | src/app/api/auth/signup/route.ts:24 | The JSON rendering of the issues has one entry per issue, in order. |
| Http.ErrorBody | src/app/api/auth/login/route.ts:34-37 | An error body is the object `{ error: message }` and nothing more. |
| Http.Response.Json | src/app/api/auth/login/route.ts:65 | `NextResponse.json(body, { status })` gives a response with that body and status and an empty cookie jar. |
| Http.Response.SetCookie | src/app/api/auth/login/route.ts:68-74 | `response.cookies.set` stores the value and options under the cookie's name, replacing any cookie of that name. Every other cookie is kept. |
| Logging.Logger.LogInfo | src/app/api/auth/login/route.ts:76 | `logger.info` appends exactly one info event, with the message and the user id, to the events recorded so far. |
| Logging.Logger.LogError | src/app/api/auth/signup/route.ts:58-60 | `logger.error` appends exactly one error event, with the message and the thrown error's message, to the events recorded so far. |
| Foreign.SignFailure | src/app/api/auth/login/route.ts:59-63 | `sign` throws exactly when the injected fault says so or the secret is unset or empty. An injected fault's message is the one thrown. |
| Foreign.FaultAt | src/app/api/auth/login/route.ts:29-31 | A store call throws exactly when the injected fault is at that call. |
| Database.Store.Lookup | src/app/api/auth/login/route.ts:29-31 | The user found is the one under the collation key of the email, and none is found when that key is absent. |
| Database.Store.LookupFindsCollatingEmail | src/app/api/auth/login/route.ts:29-31 | On a valid store, `findUnique` returns a row of the table whose email collates with the query. It returns none only when no row's email collates with it. |
| Database.Store.FindUniqueByEmail | src/app/api/auth/signup/route.ts:32-34 | The call is recorded. It throws the injected message or returns exactly `Lookup(email)`. |
| Database.Store.CreateSession | src/app/api/auth/login/route.ts:50-56 | It succeeds exactly when nothing is injected and the user exists. It then appends one session with the next id and the given token and expiry, and otherwise changes no table. `Valid` is kept. |
| Database.Store.CreateUser | src/app/api/auth/signup/route.ts:45-51 | It succeeds exactly when nothing is injected and the email's key is free. It then adds one user with the next id under that key, stamped `now`, and otherwise changes no table. `Valid` is kept. |
| Database.Store.constructor | src/app/api/auth/signup/route.ts:9 | A new store is empty and valid, with both counters at zero. |
| LoginRoute.ParseCredentials | src/app/api/auth/login/route.ts:12-26 | Credentials are parsed exactly when the email passes the email check and the password is a non-empty string. They are then the body's strings. |
| LoginRoute.HasPasswordIsTruthy | src/app/api/auth/login/route.ts:33 | `HasPassword`, the guard that lets a user past line 33, holds exactly when the password column is truthy in JavaScript, so a null or empty digest is refused. |
| LoginRoute.SessionCookieOptions | src/app/api/auth/login/route.ts:68-74 | The cookie options are `httpOnly`, `sameSite` lax and path `/`. They are `secure` exactly in production, and `maxAge` times 1000 equals the 30-day session lifetime of line 54. |
| LoginRoute.AuthenticationFailed | src/app/api/auth/login/route.ts:78-86 | A throw gives a 500 "Authentication failed" without cookies, and one error event carrying the thrown message is logged. |
| LoginRoute.IssueToken | src/app/api/auth/login/route.ts:59-76 | If signing throws, the answer is 500. Otherwise it is 200 `{success: true}`, whose only cookie is `session-token` holding the token signed over `{userId, sessionId}` with "30d". Only then is the info event logged. |
| LoginRoute.StartSession | src/app/api/auth/login/route.ts:50-63 | Exactly one session row is added for the user, with the drawn UUID and an expiry of now + 2 592 000 000 ms. It stays in place when signing then throws. A throw from `create` changes no table. |
| LoginRoute.VerifyPassword | src/app/api/auth/login/route.ts:40-47 | A throw from `compare` gives 500, and a mismatch gives 401 "Invalid credentials". Neither changes the session table. A match starts the session. |
| LoginRoute.Authenticate | src/app/api/auth/login/route.ts:28-38 | The store is asked for the email exactly as submitted. A missing user, or one without a password or with an empty one, gives 401 with no session created. A throw gives 500. |
| LoginRoute.Post | src/app/api/auth/login/route.ts:17-86 | An unreadable body gives 500. A body failing the schema gives 400 "Invalid input", and the store is neither consulted nor changed. Otherwise the outcome is as in `Authenticate`. The user table never changes, and `Valid` is kept. |
| SignupRoute.ParseSignup | src/app/api/auth/signup/route.ts:11-29 | Parsing succeeds exactly when the name is non-empty, the email passes the check and the password has at least 8 characters. The input is then the body's strings. A failure has between one and three issues. |
| SignupRoute.InvalidFieldsReported | src/app/api/auth/signup/route.ts:11-27 | An empty name, a refused email and a short password are each reported under the field's name with the schema's message. |
| SignupRoute.InvalidInputBody | src/app/api/auth/signup/route.ts:22-27 | The 400 body is exactly `{ error: "Invalid input", issues }`. |
| SignupRoute.SanitizedUser | src/app/api/auth/signup/route.ts:55-56 | The answered row has no `password` key. It has every other column of the created row with the same value, id, name and email included. |
| SignupRoute.SanitizedUserColumns | src/app/api/auth/signup/route.ts:55-56 | The answered row has exactly the columns `id`, `name`, `email`, `createdAt` and `updatedAt`. |
| SignupRoute.UserCreationFailed | src/app/api/auth/signup/route.ts:57-62 | A throw gives a 500 "Error creating user", and one error event carrying the thrown message is logged. |
| SignupRoute.Insert | src/app/api/auth/signup/route.ts:43-56 | Exactly one user is added, under the email's key, with the name, the email and `hash(password, 12)`, never the plaintext. The answer is that row without `password`. A throw from `hash` or `create` leaves the user table as it was, and `create` is not called after `hash` throws. |
| SignupRoute.Register | src/app/api/auth/signup/route.ts:31-41 | The store is asked for the email exactly as submitted. An existing user gives 400 "User already exists", `create` is never called and the user table is unchanged. A throw gives 500. |
| SignupRoute.Post | src/app/api/auth/signup/route.ts:17-62 | An unreadable body gives 500. A body failing the schema gives 400 with the issues, and the store is neither consulted nor changed. Otherwise the outcome is as in `Register`. No session is written, no cookie is set, and `Valid` is kept. |
| AuthFlow.SignupBodyPassesLogin | src/app/api/auth/login/route.ts:12-15 | A body the signup schema accepts is accepted by the login schema, with the same email and password. |
| AuthFlow.Lower | src/__tests__/app/api/auth/signup/route.test.ts:95-98 | The collation key the test's case-insensitive store implies: it has no upper-case ASCII letter left and differs from the email only in letter case. |
| AuthFlow.LowerIdempotent | src/__tests__/app/api/auth/signup/route.test.ts:95-98 | Taking the key of a key changes nothing. |
| AuthFlow.LowerCollates | src/__tests__/app/api/auth/signup/route.test.ts:95-98 | Two emails get the same key exactly when they differ at most in the case of ASCII letters, as "EXISTING@EXAMPLE.COM" and "existing@example.com" do. |
| AuthFlow.FirstSignup | src/app/api/auth/signup/route.ts:43-56 | On a new store with a case-folding email index, a valid signup answers 200 with the new row minus `password`. The user table is then exactly that row, with id 0, the digest and `now` as both timestamps, under the email's key. No session exists yet. |
| AuthFlow.SignupOnEmptyStore | src/app/api/auth/signup/route.ts:43-56 | A valid signup on an empty store answers 200 with `SanitizedUser` of the stored row. That body has exactly `id`, `name`, `email`, `createdAt` and `updatedAt`, and carries the submitted name and email. The store then holds user 0 with the digest and no session. |
| AuthFlow.SignupThenLogin | src/app/api/auth/login/route.ts:41-74 | After that signup, a login with the same email and password (where `compare` accepts the digest and a secret is set) answers 200 `{success: true}`. Its cookie holds the token signed over user 0 and session 0. |
| AuthFlow.DuplicateSignupIgnoresCase | src/__tests__/app/api/auth/signup/route.test.ts:95-115 | On a store whose email index is case-insensitive, a second signup whose email differs from the first only in the case of ASCII letters answers 400 "User already exists". The user table stays with exactly the first user. The handler itself folds no case (src/app/api/auth/signup/route.ts:32-34). |

## Left out

- bcrypt `hash` and `compare`, jsonwebtoken `sign`, `crypto.randomUUID`,
  `Date.now` and zod's email regular expression are foreign code. They are
  parameters (`Crypto`, `Draws`), and the contracts hold for every choice of
  them.
- `process.env.NEXTAUTH_SECRET` and `process.env.NODE_ENV` are the `Env`
  parameter.
- Logging writes to files and the console through winston. The model records
  each log call as an event in `Logger.events`. A logger that itself throws
  is not modelled.
- The Prisma client and the database are the `Store` class. Ids are natural
  numbers from counters, not cuid strings. The `emailVerified` and `image`
  columns are omitted. The collation of the email index is the store's `key`
  parameter.
- That the store "is not consulted" is stated through a ghost record of store
  calls (`Store.calls`).
- A throw is injected as a parameter naming the one awaited call that throws.
  Several failures on one request cannot happen, because the first one ends
  the `try` block.
- Asynchrony and concurrent requests are not modelled. Each handler call is
  one atomic step.
- The `Set-Cookie` header that Next.js renders from the cookie options
  (section 4.1 of RFC 6265) is not modelled. The model keeps the name, value
  and options that the handler passes to `response.cookies.set`.
- Validation.SafeParse: zod's messages for a value of the wrong type are
  abstracted to "Required", "Expected string" and "Expected object". An
  issue keeps only its path and message, not zod's `code` and other fields.
- Validation.Satisfies: `.min(n)` counts UTF-16 code units in JavaScript. The
  model counts the elements of the string.
- The route-protection middleware, the users API, `src/lib/token.ts`, the
  React components and pages, and the type declarations are not part of this
  model.
- The missing-secret case follows the code. Nothing fails at startup when
  the secret is unset: the handler asserts `NEXTAUTH_SECRET!` without
  checking it, so `sign` throws only after the session row has been written. `Foreign.SignFailure` gives
  that throw, and `LoginRoute.StartSession` keeps the row in place.
