/**
 * `POST /api/auth/login` (src/app/api/auth/login/route.ts): validate the
 * credentials, look the user up, check the password, create a session row,
 * sign a bearer token and set it as the `session-token` cookie. Every throw
 * inside the handler's `try` ends in 500 "Authentication failed" and an error
 * log event; nothing done before the throw is undone.
 */
module LoginRoute {
  import opened Wrappers
  import opened Http
  import opened Logging
  import opened Foreign
  import opened Validation
  import opened Database

  /** `loginSchema`: a string email that passes the email check, and a non-empty string password. */
  const LoginSchema: seq<Rule> := [
    Rule("email", Email("Invalid email address")),
    Rule("password", MinLength(1, "Password is required"))
  ]

  const SessionCookieName: string := "session-token"

  /** Thirty days in milliseconds: how long a session row lives. */
  const SessionLifetimeMs: int := 30 * 24 * 60 * 60 * 1000

  /** Thirty days in seconds: the session cookie's `maxAge`. */
  const CookieMaxAgeSeconds: int := 30 * 24 * 60 * 60

  /** The `expiresIn` option passed to `sign`. */
  const TokenExpiresIn: string := "30d"

  /** `{ success: true }`, the body of a successful login. */
  const SuccessBody: Value := VObject(map["success" := VBool(true)])

  datatype Credentials = Credentials(email: string, password: string)

  /** The login body's field predicates, stated directly on the parsed JSON. */
  predicate IsLoginBody(body: Value, isEmail: string -> bool)
  {
    && body.VObject?
    && "email" in body.fields && body.fields["email"].VString? && isEmail(body.fields["email"].s)
    && "password" in body.fields && body.fields["password"].VString? && body.fields["password"].s != ""
  }

  /** `loginSchema.safeParse(body)` followed by `const { email, password } = result.data`. */
  function ParseCredentials(body: Value, isEmail: string -> bool): (r: Option<Credentials>)
    ensures r.Some? <==> IsLoginBody(body, isEmail)
    ensures r.Some? ==>
      && body.fields["email"] == VString(r.value.email)
      && body.fields["password"] == VString(r.value.password)
  {
    assert body.VObject? ==> (AcceptsAll(LoginSchema, body.fields, isEmail) <==> IsLoginBody(body, isEmail)) by {
      assert LoginSchema[0].key == "email" && LoginSchema[1].key == "password";
    }
    match SafeParse(LoginSchema, body, isEmail)
    case Failure(_) => None
    case Success(data) =>
      assert "email" in Keys(LoginSchema) && "password" in Keys(LoginSchema) by {
        assert LoginSchema[0].key == "email" && LoginSchema[1].key == "password";
      }
      Some(Credentials(data["email"], data["password"]))
  }

  /** The negation of `!user.password`: the digest is present and not the empty string. */
  predicate HasPassword(u: User)
  {
    u.password.Some? && u.password.value != ""
  }

  /** `HasPassword` is JavaScript truthiness of the password column, `null` when the digest is absent. */
  lemma HasPasswordIsTruthy(u: User)
    ensures HasPassword(u) <==> Truthy(if u.password.Some? then VString(u.password.value) else VNull)
  {
  }

  /** The options of the session cookie. */
  function SessionCookieOptions(env: Env): (o: CookieOptions)
    ensures o.httpOnly && o.sameSite == Lax && o.path == "/"
    ensures o.secure <==> env.nodeEnv == Some("production")
    ensures o.maxAge * 1000 == SessionLifetimeMs
  {
    CookieOptions(
      httpOnly := true,
      secure := env.nodeEnv == Some("production"),
      sameSite := Lax,
      maxAge := CookieMaxAgeSeconds,
      path := "/")
  }

  /** The `catch` block: log the thrown message, answer 500. */
  method AuthenticationFailed(logger: Logger, message: string) returns (response: Response)
    modifies logger
    ensures fresh(response) && IsError(response, 500, "Authentication failed")
    ensures logger.events == old(logger.events) + [Error("Login failed", message)]
  {
    logger.LogError("Login failed", message);
    response := new Response.Json(ErrorBody("Authentication failed"), 500);
  }

  /**
   * What creating the session and signing the token do, for a user `u` whose
   * password matched: exactly one session row for `u`, carrying the drawn UUID
   * and expiring thirty days from now; a 200 with the signed token in the
   * cookie; or a 500 with the row left in place when signing throws.
   */
  ghost predicate SessionOutcome(store: Store, logger: Logger, response: Response,
                                 sessionsBefore: seq<Session>, nextSessionIdBefore: nat, eventsBefore: seq<LogEvent>,
                                 u: User, env: Env, crypto: Crypto, draws: Draws, fault: Option<Fault>)
    reads store, logger, response
  {
    && (Throws(fault, CreateSession) ==>
          && IsError(response, 500, "Authentication failed")
          && store.sessions == sessionsBefore
          && logger.events == eventsBefore + [Error("Login failed", fault.value.message)])
    && (!Throws(fault, CreateSession) ==>
          var session := Session(nextSessionIdBefore, u.id, draws.uuid, draws.now + SessionLifetimeMs);
          && store.sessions == sessionsBefore + [session]
          && TokenOutcome(logger, response, eventsBefore, u, session, env, crypto, fault))
  }

  /**
   * What signing the token does once the session row exists: a 200 with the
   * token, signed over the user's and the session's ids, in the cookie; or a
   * 500 when signing throws.
   */
  ghost predicate TokenOutcome(logger: Logger, response: Response, eventsBefore: seq<LogEvent>,
                               u: User, session: Session, env: Env, crypto: Crypto, fault: Option<Fault>)
    reads logger, response
  {
    && (SignFailure(fault, env).Some? ==>
          && IsError(response, 500, "Authentication failed")
          && logger.events == eventsBefore + [Error("Login failed", SignFailure(fault, env).value)])
    && (SignFailure(fault, env).None? ==>
          && response.status == 200 && response.body == SuccessBody
          && response.cookies == map[SessionCookieName := Cookie(
               crypto.sign(Claims(u.id, session.id), env.secret.value, TokenExpiresIn),
               SessionCookieOptions(env))]
          && logger.events == eventsBefore + [Info("User logged in successfully", u.id)])
  }

  /**
   * What checking the password does, for a user `u` that has one: a throw or
   * a mismatch changes no table; a match goes on to the session.
   */
  ghost predicate PasswordOutcome(store: Store, logger: Logger, response: Response,
                                  sessionsBefore: seq<Session>, nextSessionIdBefore: nat, eventsBefore: seq<LogEvent>,
                                  u: User, password: string, env: Env, crypto: Crypto, draws: Draws, fault: Option<Fault>)
    requires HasPassword(u)
    reads store, logger, response
  {
    && (Throws(fault, ComparePassword) ==>
          && IsError(response, 500, "Authentication failed")
          && store.sessions == sessionsBefore
          && logger.events == eventsBefore + [Error("Login failed", fault.value.message)])
    && (!Throws(fault, ComparePassword) && !crypto.compare(password, u.password.value) ==>
          && IsError(response, 401, "Invalid credentials")
          && store.sessions == sessionsBefore
          && logger.events == eventsBefore)
    && (!Throws(fault, ComparePassword) && crypto.compare(password, u.password.value) ==>
          SessionOutcome(store, logger, response, sessionsBefore, nextSessionIdBefore, eventsBefore,
                         u, env, crypto, draws, fault))
  }

  /** Whether the password check lets the handler go on to create a session. */
  predicate PasswordMatches(u: User, password: string, crypto: Crypto, fault: Option<Fault>)
    requires HasPassword(u)
  {
    !Throws(fault, ComparePassword) && crypto.compare(password, u.password.value)
  }

  /**
   * What the handler does with credentials that passed validation: the store
   * is asked for `email` exactly as submitted; a missing user, a user without
   * a password or a wrong password is a 401 that changes no table; a throw
   * before the session row exists leaves the session table as it was.
   */
  twostate predicate AuthenticationOutcome(store: Store, logger: Logger, new response: Response, email: string, password: string,
                                           env: Env, crypto: Crypto, draws: Draws, fault: Option<Fault>)
    reads store, logger, response
  {
    var user := old(store.Lookup(email));
    && (Throws(fault, FindUser) ==>
          && IsError(response, 500, "Authentication failed")
          && store.calls == old(store.calls) + [FindUniqueUser(email)]
          && store.sessions == old(store.sessions)
          && logger.events == old(logger.events) + [Error("Login failed", fault.value.message)])
    && (!Throws(fault, FindUser) && (user.None? || !HasPassword(user.value)) ==>
          && IsError(response, 401, "Invalid credentials")
          && store.calls == old(store.calls) + [FindUniqueUser(email)]
          && store.sessions == old(store.sessions)
          && logger.events == old(logger.events))
    && (!Throws(fault, FindUser) && user.Some? && HasPassword(user.value) ==>
          && store.calls == old(store.calls) + [FindUniqueUser(email)]
                            + (if PasswordMatches(user.value, password, crypto, fault) then [CreateSessionRow(user.value.id)] else [])
          && PasswordOutcome(store, logger, response, old(store.sessions), old(store.nextSessionId), old(logger.events),
                             user.value, password, env, crypto, draws, fault))
  }

  /** Create the session row for `u`, sign the token, set the cookie. */
  method StartSession(store: Store, logger: Logger, u: User, env: Env, crypto: Crypto, draws: Draws, fault: Option<Fault>)
    returns (response: Response)
    requires store.Valid() && store.HasUser(u.id)
    modifies store, logger
    ensures fresh(response) && store.Valid()
    ensures store.users == old(store.users)
    ensures store.calls == old(store.calls) + [CreateSessionRow(u.id)]
    ensures SessionOutcome(store, logger, response, old(store.sessions), old(store.nextSessionId), old(logger.events),
                           u, env, crypto, draws, fault)
  {
    var created := store.CreateSession(u.id, draws.uuid, draws.now + SessionLifetimeMs, FaultAt(fault, CreateSession));
    if created.Failure? {
      assert Throws(fault, CreateSession) && created.error == fault.value.message;
      response := AuthenticationFailed(logger, created.error);
      return;
    }
    response := IssueToken(logger, u, created.value, env, crypto, fault);
  }

  /** Sign the token over the user's and the session's ids and set it as the session cookie. */
  method IssueToken(logger: Logger, u: User, session: Session, env: Env, crypto: Crypto, fault: Option<Fault>)
    returns (response: Response)
    modifies logger
    ensures fresh(response)
    ensures TokenOutcome(logger, response, old(logger.events), u, session, env, crypto, fault)
  {
    var signFailure := SignFailure(fault, env);
    if signFailure.Some? {
      response := AuthenticationFailed(logger, signFailure.value);
      return;
    }
    var token := crypto.sign(Claims(u.id, session.id), env.secret.value, TokenExpiresIn);

    response := new Response.Json(SuccessBody, 200);
    response.SetCookie(SessionCookieName, token, SessionCookieOptions(env));
    logger.LogInfo("User logged in successfully", u.id);
  }

  /** Compare the submitted password with the stored digest; on a match, start the session. */
  method VerifyPassword(store: Store, logger: Logger, u: User, password: string,
                        env: Env, crypto: Crypto, draws: Draws, fault: Option<Fault>)
    returns (response: Response)
    requires store.Valid() && store.HasUser(u.id) && HasPassword(u)
    modifies store, logger
    ensures fresh(response) && store.Valid()
    ensures store.users == old(store.users)
    ensures store.calls == old(store.calls)
                           + (if PasswordMatches(u, password, crypto, fault) then [CreateSessionRow(u.id)] else [])
    ensures PasswordOutcome(store, logger, response, old(store.sessions), old(store.nextSessionId), old(logger.events),
                            u, password, env, crypto, draws, fault)
  {
    if Throws(fault, ComparePassword) {
      response := AuthenticationFailed(logger, fault.value.message);
      return;
    }
    var isValidPassword := crypto.compare(password, u.password.value);
    if !isValidPassword {
      response := new Response.Json(ErrorBody("Invalid credentials"), 401);
      return;
    }
    response := StartSession(store, logger, u, env, crypto, draws, fault);
  }

  /** Look the user up by email; a user with a password goes on to the password check. */
  method Authenticate(store: Store, logger: Logger, email: string, password: string,
                      env: Env, crypto: Crypto, draws: Draws, fault: Option<Fault>)
    returns (response: Response)
    requires store.Valid()
    modifies store, logger
    ensures fresh(response) && store.Valid()
    ensures store.users == old(store.users)
    ensures AuthenticationOutcome(store, logger, response, email, password, env, crypto, draws, fault)
  {
    ghost var before := store.Lookup(email);
    var found := store.FindUniqueByEmail(email, FaultAt(fault, FindUser));
    if found.Failure? {
      response := AuthenticationFailed(logger, found.error);
      return;
    }
    var user := found.value;
    assert user == before;
    if user.None? || !HasPassword(user.value) {
      response := new Response.Json(ErrorBody("Invalid credentials"), 401);
      return;
    }
    assert store.HasUser(user.value.id) by {
      assert store.key(email) in store.users && store.users[store.key(email)] == user.value;
    }
    response := VerifyPassword(store, logger, user.value, password, env, crypto, draws, fault);
  }

  /**
   * The login handler. `fault` names the awaited call that throws, if any;
   * the store's own failures (a missing user row) throw as well.
   */
  method Post(store: Store, logger: Logger, body: Value, env: Env, crypto: Crypto, draws: Draws, fault: Option<Fault>)
    returns (response: Response)
    requires store.Valid()
    modifies store, logger
    ensures fresh(response) && store.Valid()
    // login never writes the user table
    ensures store.users == old(store.users)
    // reading the body throws
    ensures Throws(fault, ReadBody) ==>
      && IsError(response, 500, "Authentication failed")
      && store.calls == old(store.calls) && store.sessions == old(store.sessions)
      && logger.events == old(logger.events) + [Error("Login failed", fault.value.message)]
    // invalid input: 400, and the store is neither consulted nor changed
    ensures !Throws(fault, ReadBody) && !IsLoginBody(body, crypto.isEmail) ==>
      && IsError(response, 400, "Invalid input")
      && store.calls == old(store.calls) && store.sessions == old(store.sessions)
      && logger.events == old(logger.events)
    ensures !Throws(fault, ReadBody) && IsLoginBody(body, crypto.isEmail) ==>
      AuthenticationOutcome(store, logger, response, body.fields["email"].s, body.fields["password"].s,
                            env, crypto, draws, fault)
  {
    if Throws(fault, ReadBody) {
      response := AuthenticationFailed(logger, fault.value.message);
      return;
    }
    var credentials := ParseCredentials(body, crypto.isEmail);
    if credentials.None? {
      response := new Response.Json(ErrorBody("Invalid input"), 400);
      return;
    }
    response := Authenticate(store, logger, credentials.value.email, credentials.value.password,
                             env, crypto, draws, fault);
  }
}
