/**
 * The two handlers used together on one store: what a client that signs up
 * can then do with the login handler, and what the store's email collation
 * means for duplicate signups.
 */
module AuthFlow {
  import opened Wrappers
  import opened Http
  import opened Logging
  import opened Foreign
  import opened Database
  import LoginRoute
  import SignupRoute

  /** A body the signup schema accepts is one the login schema accepts, with the same credentials. */
  lemma SignupBodyPassesLogin(body: Value, isEmail: string -> bool)
    requires SignupRoute.ParseSignup(body, isEmail).Success?
    ensures LoginRoute.ParseCredentials(body, isEmail)
         == Some(LoginRoute.Credentials(SignupRoute.ParseSignup(body, isEmail).value.email,
                                        SignupRoute.ParseSignup(body, isEmail).value.password))
  {
  }

  predicate IsUpper(c: char)
  {
    'A' <= c <= 'Z'
  }

  /** Two characters are equal, or are the upper- and lower-case forms of one ASCII letter. */
  predicate SameCharIgnoringCase(a: char, b: char)
  {
    || a == b
    || (IsUpper(a) && b as int == a as int + 32)
    || (IsUpper(b) && a as int == b as int + 32)
  }

  /** Two strings that differ at most in the case of ASCII letters. */
  predicate SameIgnoringCase(s: string, t: string)
  {
    |s| == |t| && forall i :: 0 <= i < |s| ==> SameCharIgnoringCase(s[i], t[i])
  }

  function LowerChar(c: char): (d: char)
    ensures !IsUpper(d) && SameCharIgnoringCase(c, d)
  {
    if IsUpper(c) then (c as int + 32) as char else c
  }

  /**
   * ASCII lower-casing, the collation key of a case-insensitive email index:
   * the string with no upper-case letter left that differs from `s` only in
   * the case of its letters (there is exactly one).
   */
  function Lower(s: string): (r: string)
    ensures |r| == |s| && forall i :: 0 <= i < |r| ==> !IsUpper(r[i])
    ensures SameIgnoringCase(s, r)
  {
    seq(|s|, i requires 0 <= i < |s| => LowerChar(s[i]))
  }

  /** Two characters that agree ignoring case, neither of them upper-case, are equal. */
  lemma LowerCaseCharsEqual(a: char, b: char)
    requires !IsUpper(a) && !IsUpper(b) && SameCharIgnoringCase(a, b)
    ensures a == b
  {
  }

  /** Agreeing ignoring case is symmetric and transitive for characters. */
  lemma SameCharIgnoringCaseTransitive(a: char, b: char, c: char)
    requires SameCharIgnoringCase(a, b) && SameCharIgnoringCase(b, c)
    ensures SameCharIgnoringCase(a, c) && SameCharIgnoringCase(c, a)
  {
  }

  /** Lower-casing twice is lower-casing once. */
  lemma LowerIdempotent(s: string)
    ensures Lower(Lower(s)) == Lower(s)
  {
    var r := Lower(s);
    forall i | 0 <= i < |r|
      ensures Lower(r)[i] == r[i]
    {
      LowerCaseCharsEqual(Lower(r)[i], r[i]);
    }
  }

  /** Two emails collate to the same key exactly when they differ at most in the case of ASCII letters. */
  lemma {:induction false} LowerCollates(s: string, t: string)
    ensures Lower(s) == Lower(t) <==> SameIgnoringCase(s, t)
  {
    var ls, lt := Lower(s), Lower(t);
    if SameIgnoringCase(s, t) {
      forall i | 0 <= i < |s|
        ensures ls[i] == lt[i]
      {
        SameCharIgnoringCaseTransitive(ls[i], s[i], t[i]);
        SameCharIgnoringCaseTransitive(ls[i], t[i], lt[i]);
        LowerCaseCharsEqual(ls[i], lt[i]);
      }
    }
    if ls == lt {
      forall i | 0 <= i < |s|
        ensures SameCharIgnoringCase(s[i], t[i])
      {
        SameCharIgnoringCaseTransitive(s[i], ls[i], lt[i]);
        SameCharIgnoringCaseTransitive(s[i], lt[i], t[i]);
      }
    }
  }

  /** The row a valid signup on an empty store creates: the first id, the digest, stamped `now`. */
  function FirstUser(name: string, email: string, password: string, crypto: Crypto, draws: Draws): User
  {
    User(0, name, email, Some(crypto.hash(password, SignupRoute.BcryptCost)), draws.now, draws.now)
  }

  /** The signup handler called once on a new store whose email index folds ASCII case. */
  method FirstSignup(name: string, email: string, password: string, crypto: Crypto, draws: Draws)
    returns (store: Store, logger: Logger, signup: Response)
    requires |name| >= 1 && crypto.isEmail(email) && |password| >= 8
    ensures fresh(store) && fresh(logger) && store.Valid() && store.key == Lower
    ensures store.users == map[Lower(email) := FirstUser(name, email, password, crypto, draws)]
    ensures store.nextSessionId == 0
    ensures signup.status == 200
    ensures signup.body == VObject(SignupRoute.SanitizedUser(FirstUser(name, email, password, crypto, draws)))
  {
    store := new Store(Lower);
    logger := new Logger();
    var body := VObject(map["name" := VString(name), "email" := VString(email), "password" := VString(password)]);
    assert SignupRoute.IsSignupBody(body, crypto.isEmail);
    assert store.Lookup(email).None?;
    signup := SignupRoute.Post(store, logger, body, crypto, draws, None);
  }

  /**
   * A signup with a valid name, email and password on an empty store: the
   * response is the new row minus its password, with exactly the columns
   * `id`, `name`, `email`, `createdAt` and `updatedAt`, and the store then
   * holds that row, with the first user id and no session yet.
   */
  method SignupOnEmptyStore(name: string, email: string, password: string, crypto: Crypto, draws: Draws)
    returns (store: Store, logger: Logger, signup: Response)
    requires |name| >= 1 && crypto.isEmail(email) && |password| >= 8
    ensures fresh(store) && fresh(logger) && store.Valid()
    ensures store.Lookup(email) == Some(User(0, name, email, Some(crypto.hash(password, SignupRoute.BcryptCost)), draws.now, draws.now))
    ensures store.nextSessionId == 0
    ensures signup.status == 200 && signup.body.VObject?
    ensures "password" !in signup.body.fields
    ensures "name" in signup.body.fields && signup.body.fields["name"] == VString(name)
    ensures "email" in signup.body.fields && signup.body.fields["email"] == VString(email)
    ensures signup.body == VObject(SignupRoute.SanitizedUser(store.Lookup(email).value))
    ensures signup.body.fields.Keys == {"id", "name", "email", "createdAt", "updatedAt"}
  {
    store, logger, signup := FirstSignup(name, email, password, crypto, draws);
    SignupRoute.SanitizedUserColumns(FirstUser(name, email, password, crypto, draws));
  }

  /**
   * On an empty store, a signup with a valid name, email and password answers
   * 200 with the new row minus its password, and a login with the same email
   * and password then answers 200 with a cookie holding a token signed over
   * the new user's id and the new session's id (both the first the store hands out).
   */
  method SignupThenLogin(name: string, email: string, password: string, crypto: Crypto, env: Env, draws: Draws)
    returns (signup: Response, login: Response)
    requires |name| >= 1 && crypto.isEmail(email) && |password| >= 8
    requires crypto.hash(password, SignupRoute.BcryptCost) != ""
    requires crypto.compare(password, crypto.hash(password, SignupRoute.BcryptCost))
    requires env.secret.Some? && env.secret.value != ""
    ensures signup.status == 200 && signup.body.VObject?
    ensures "password" !in signup.body.fields
    ensures "name" in signup.body.fields && signup.body.fields["name"] == VString(name)
    ensures "email" in signup.body.fields && signup.body.fields["email"] == VString(email)
    ensures login.status == 200 && login.body == LoginRoute.SuccessBody
    ensures LoginRoute.SessionCookieName in login.cookies
    ensures login.cookies[LoginRoute.SessionCookieName].value
         == crypto.sign(Claims(0, 0), env.secret.value, LoginRoute.TokenExpiresIn)
  {
    var store, logger;
    store, logger, signup := SignupOnEmptyStore(name, email, password, crypto, draws);
    var user := store.Lookup(email).value;
    var body := VObject(map["email" := VString(email), "password" := VString(password)]);
    assert LoginRoute.IsLoginBody(body, crypto.isEmail);
    assert LoginRoute.HasPassword(user) && crypto.compare(password, user.password.value);
    assert SignFailure(None, env).None?;
    login := LoginRoute.Post(store, logger, body, env, crypto, draws, None);
  }

  /**
   * With a case-insensitive email index, a second signup whose email differs
   * from the first only in case is refused with 400 "User already exists",
   * and the user table is left as the first signup made it.
   */
  method DuplicateSignupIgnoresCase(first: SignupRoute.SignupInput, second: SignupRoute.SignupInput,
                                    crypto: Crypto, draws: Draws)
    returns (r1: Response, r2: Response, users1: map<string, User>, users2: map<string, User>)
    requires |first.name| >= 1 && crypto.isEmail(first.email) && |first.password| >= 8
    requires |second.name| >= 1 && crypto.isEmail(second.email) && |second.password| >= 8
    requires SameIgnoringCase(first.email, second.email)
    ensures r1.status == 200
    ensures r2.status == 400 && r2.body == ErrorBody("User already exists")
    ensures users2 == users1 && |users1| == 1
  {
    LowerCollates(first.email, second.email);
    var store := new Store(Lower);
    var logger := new Logger();
    var body1 := VObject(map["name" := VString(first.name), "email" := VString(first.email),
                             "password" := VString(first.password)]);
    assert SignupRoute.IsSignupBody(body1, crypto.isEmail);
    r1 := SignupRoute.Post(store, logger, body1, crypto, draws, None);
    users1 := store.users;
    assert Lower(first.email) in users1;

    var body2 := VObject(map["name" := VString(second.name), "email" := VString(second.email),
                             "password" := VString(second.password)]);
    assert SignupRoute.IsSignupBody(body2, crypto.isEmail);
    assert store.Lookup(second.email).Some?;
    r2 := SignupRoute.Post(store, logger, body2, crypto, draws, None);
    users2 := store.users;
  }
}
