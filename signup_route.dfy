/**
 * `POST /api/auth/signup` (src/app/api/auth/signup/route.ts): validate name,
 * email and password; refuse an email the store already holds; otherwise
 * insert a user carrying the bcrypt digest of the password and answer with
 * the created row minus its `password` field. Every throw inside the
 * handler's `try` ends in 500 "Error creating user" and an error log event.
 */
module SignupRoute {
  import opened Wrappers
  import opened Http
  import opened Logging
  import opened Foreign
  import opened Validation
  import opened Database
  import ObjectUtils

  /** `signupSchema`: a non-empty name, an email that passes the email check, a password of at least 8 characters. */
  const SignupSchema: seq<Rule> := [
    Rule("name", MinLength(1, "Name is required")),
    Rule("email", Email("Invalid email address")),
    Rule("password", MinLength(8, "Password must be at least 8 characters"))
  ]

  /** The bcrypt cost factor passed to `hash`. */
  const BcryptCost: nat := 12

  datatype SignupInput = SignupInput(name: string, email: string, password: string)

  /** The signup body's field predicates, stated directly on the parsed JSON. */
  predicate IsSignupBody(body: Value, isEmail: string -> bool)
  {
    && body.VObject?
    && "name" in body.fields && body.fields["name"].VString? && |body.fields["name"].s| >= 1
    && "email" in body.fields && body.fields["email"].VString? && isEmail(body.fields["email"].s)
    && "password" in body.fields && body.fields["password"].VString? && |body.fields["password"].s| >= 8
  }

  /** `signupSchema.safeParse(body)` followed by `const { name, email, password } = result.data`. */
  function ParseSignup(body: Value, isEmail: string -> bool): (r: Result<SignupInput, seq<Issue>>)
    ensures r.Success? <==> IsSignupBody(body, isEmail)
    ensures r.Success? ==>
      && body.fields["name"] == VString(r.value.name)
      && body.fields["email"] == VString(r.value.email)
      && body.fields["password"] == VString(r.value.password)
    ensures r.Failure? ==> 0 < |r.error| <= |SignupSchema|
  {
    assert body.VObject? ==> (AcceptsAll(SignupSchema, body.fields, isEmail) <==> IsSignupBody(body, isEmail)) by {
      assert SignupSchema[0].key == "name" && SignupSchema[1].key == "email" && SignupSchema[2].key == "password";
    }
    match SafeParse(SignupSchema, body, isEmail)
    case Failure(issues) => Failure(issues)
    case Success(data) =>
      assert "name" in Keys(SignupSchema) && "email" in Keys(SignupSchema) && "password" in Keys(SignupSchema) by {
        assert SignupSchema[0].key == "name" && SignupSchema[1].key == "email" && SignupSchema[2].key == "password";
      }
      Success(SignupInput(data["name"], data["email"], data["password"]))
  }

  /**
   * An empty name, an email the check refuses and a password shorter than
   * eight characters are each reported, under the field's name and with the
   * schema's message for it.
   */
  lemma InvalidFieldsReported(body: Value, isEmail: string -> bool)
    requires body.VObject?
    ensures var r := ParseSignup(body, isEmail);
      && ("name" in body.fields && body.fields["name"] == VString("") ==>
            r.Failure? && Issue(["name"], "Name is required") in r.error)
      && ("email" in body.fields && body.fields["email"].VString? && !isEmail(body.fields["email"].s) ==>
            r.Failure? && Issue(["email"], "Invalid email address") in r.error)
      && ("password" in body.fields && body.fields["password"].VString? && |body.fields["password"].s| < 8 ==>
            r.Failure? && Issue(["password"], "Password must be at least 8 characters") in r.error)
  {
    var f := body.fields;
    if !Accepts(SignupSchema[0], f, isEmail) { FailingFieldReported(SignupSchema, f, isEmail, 0); }
    if !Accepts(SignupSchema[1], f, isEmail) { FailingFieldReported(SignupSchema, f, isEmail, 1); }
    if !Accepts(SignupSchema[2], f, isEmail) { FailingFieldReported(SignupSchema, f, isEmail, 2); }
  }

  /** The body of the 400 for a body that fails the schema: `{ error: "Invalid input", issues }`. */
  function InvalidInputBody(issues: seq<Issue>): (v: Value)
    ensures v.VObject? && v.fields.Keys == {"error", "issues"}
    ensures v.fields["error"] == VString("Invalid input") && v.fields["issues"] == IssuesValue(issues)
  {
    VObject(map["error" := VString("Invalid input"), "issues" := IssuesValue(issues)])
  }

  /** A user row as the store returns it: every column, the digest included. */
  function UserRecord(u: User): map<string, Value>
  {
    map[
      "id" := VNumber(u.id),
      "name" := VString(u.name),
      "email" := VString(u.email),
      "password" := (match u.password case Some(p) => VString(p) case None => VNull),
      "createdAt" := VDate(u.createdAt),
      "updatedAt" := VDate(u.updatedAt)
    ]
  }

  /** `excludeFields(user, ["password"])`: the row without its digest, every other column kept. */
  function SanitizedUser(u: User): (r: map<string, Value>)
    ensures "password" !in r
    ensures r.Keys == UserRecord(u).Keys - {"password"}
    ensures forall k :: k in r ==> r[k] == UserRecord(u)[k]
    ensures r["id"] == VNumber(u.id) && r["name"] == VString(u.name) && r["email"] == VString(u.email)
  {
    ObjectUtils.Without(UserRecord(u), ["password"])
  }

  /** The answered row has exactly the columns `id`, `name`, `email`, `createdAt` and `updatedAt`. */
  lemma SanitizedUserColumns(u: User)
    ensures SanitizedUser(u).Keys == {"id", "name", "email", "createdAt", "updatedAt"}
  {
    assert UserRecord(u).Keys == {"id", "name", "email", "password", "createdAt", "updatedAt"};
  }

  /** The `catch` block: log the thrown message, answer 500. */
  method UserCreationFailed(logger: Logger, message: string) returns (response: Response)
    modifies logger
    ensures fresh(response) && IsError(response, 500, "Error creating user")
    ensures logger.events == old(logger.events) + [Error("Signup failed", message)]
  {
    logger.LogError("Signup failed", message);
    response := new Response.Json(ErrorBody("Error creating user"), 500);
  }

  /**
   * What hashing the password and inserting the user do, for an email the
   * store does not hold: exactly one user is added under the email's key,
   * carrying the digest of the password, and the answer is that row without
   * its digest; a throw leaves the user table as it was.
   */
  ghost predicate InsertOutcome(store: Store, logger: Logger, response: Response,
                                usersBefore: map<string, User>, nextUserIdBefore: nat, eventsBefore: seq<LogEvent>,
                                input: SignupInput, crypto: Crypto, draws: Draws, fault: Option<Fault>)
    reads store, logger, response
  {
    && (Throws(fault, HashPassword) || Throws(fault, CreateUser) ==>
          && IsError(response, 500, "Error creating user")
          && store.users == usersBefore
          && logger.events == eventsBefore + [Error("Signup failed", fault.value.message)])
    && (!Throws(fault, HashPassword) && !Throws(fault, CreateUser) ==>
          var u := User(nextUserIdBefore, input.name, input.email,
                        Some(crypto.hash(input.password, BcryptCost)), draws.now, draws.now);
          && store.users == usersBefore[store.key(input.email) := u]
          && response.status == 200 && response.body == VObject(SanitizedUser(u)) && response.cookies == map[]
          && logger.events == eventsBefore + [Info("User created successfully", u.id)])
  }

  /**
   * What the handler does with a body that passed validation: the store is
   * asked for the email exactly as submitted, and an existing user is a 400
   * that never calls `create`.
   */
  twostate predicate SignupOutcome(store: Store, logger: Logger, new response: Response, input: SignupInput,
                                   crypto: Crypto, draws: Draws, fault: Option<Fault>)
    reads store, logger, response
  {
    var existing := old(store.Lookup(input.email));
    && (Throws(fault, FindUser) ==>
          && IsError(response, 500, "Error creating user")
          && store.calls == old(store.calls) + [FindUniqueUser(input.email)]
          && store.users == old(store.users)
          && logger.events == old(logger.events) + [Error("Signup failed", fault.value.message)])
    && (!Throws(fault, FindUser) && existing.Some? ==>
          && IsError(response, 400, "User already exists")
          && store.calls == old(store.calls) + [FindUniqueUser(input.email)]
          && store.users == old(store.users)
          && logger.events == old(logger.events))
    && (!Throws(fault, FindUser) && existing.None? ==>
          && store.calls == old(store.calls) + [FindUniqueUser(input.email)]
                            + (if Throws(fault, HashPassword) then [] else [CreateUserRow(input.email)])
          && InsertOutcome(store, logger, response, old(store.users), old(store.nextUserId), old(logger.events),
                           input, crypto, draws, fault))
  }

  /** Hash the password, insert the user, answer with the row minus its digest. */
  method Insert(store: Store, logger: Logger, input: SignupInput, crypto: Crypto, draws: Draws, fault: Option<Fault>)
    returns (response: Response)
    requires store.Valid() && store.Lookup(input.email).None?
    modifies store, logger
    ensures fresh(response) && store.Valid()
    ensures store.sessions == old(store.sessions) && store.nextSessionId == old(store.nextSessionId)
    ensures store.calls == old(store.calls) + (if Throws(fault, HashPassword) then [] else [CreateUserRow(input.email)])
    ensures InsertOutcome(store, logger, response, old(store.users), old(store.nextUserId), old(logger.events),
                          input, crypto, draws, fault)
  {
    if Throws(fault, HashPassword) {
      response := UserCreationFailed(logger, fault.value.message);
      return;
    }
    var hashedPassword := crypto.hash(input.password, BcryptCost);
    var created := store.CreateUser(input.name, input.email, Some(hashedPassword), draws.now, FaultAt(fault, CreateUser));
    if created.Failure? {
      response := UserCreationFailed(logger, created.error);
      return;
    }
    var user := created.value;
    logger.LogInfo("User created successfully", user.id);

    var userWithoutPassword := ObjectUtils.ExcludeFields(UserRecord(user), ["password"]);
    response := new Response.Json(VObject(userWithoutPassword), 200);
  }

  /** Refuse an email the store already holds; otherwise insert the user. */
  method Register(store: Store, logger: Logger, input: SignupInput, crypto: Crypto, draws: Draws, fault: Option<Fault>)
    returns (response: Response)
    requires store.Valid()
    modifies store, logger
    ensures fresh(response) && store.Valid()
    ensures store.sessions == old(store.sessions) && store.nextSessionId == old(store.nextSessionId)
    ensures SignupOutcome(store, logger, response, input, crypto, draws, fault)
  {
    ghost var before := store.Lookup(input.email);
    var found := store.FindUniqueByEmail(input.email, FaultAt(fault, FindUser));
    if found.Failure? {
      response := UserCreationFailed(logger, found.error);
      return;
    }
    var existingUser := found.value;
    assert existingUser == before;
    if existingUser.Some? {
      response := new Response.Json(ErrorBody("User already exists"), 400);
      return;
    }
    response := Insert(store, logger, input, crypto, draws, fault);
  }

  /** The signup handler. `fault` names the awaited call that throws, if any. */
  method Post(store: Store, logger: Logger, body: Value, crypto: Crypto, draws: Draws, fault: Option<Fault>)
    returns (response: Response)
    requires store.Valid()
    modifies store, logger
    ensures fresh(response) && store.Valid()
    // signup never writes the session table and never sets a cookie
    ensures store.sessions == old(store.sessions) && store.nextSessionId == old(store.nextSessionId)
    ensures response.cookies == map[]
    // reading the body throws
    ensures Throws(fault, ReadBody) ==>
      && IsError(response, 500, "Error creating user")
      && store.calls == old(store.calls) && store.users == old(store.users)
      && logger.events == old(logger.events) + [Error("Signup failed", fault.value.message)]
    // invalid input: 400 with the issues, and the store is neither consulted nor changed
    ensures !Throws(fault, ReadBody) && !IsSignupBody(body, crypto.isEmail) ==>
      && response.status == 400
      && response.body == InvalidInputBody(ParseSignup(body, crypto.isEmail).error)
      && store.calls == old(store.calls) && store.users == old(store.users)
      && logger.events == old(logger.events)
    ensures !Throws(fault, ReadBody) && IsSignupBody(body, crypto.isEmail) ==>
      SignupOutcome(store, logger, response,
                    SignupInput(body.fields["name"].s, body.fields["email"].s, body.fields["password"].s),
                    crypto, draws, fault)
  {
    if Throws(fault, ReadBody) {
      response := UserCreationFailed(logger, fault.value.message);
      return;
    }
    var result := ParseSignup(body, crypto.isEmail);
    if result.Failure? {
      response := new Response.Json(InvalidInputBody(result.error), 400);
      return;
    }
    response := Register(store, logger, result.value, crypto, draws, fault);
  }
}
