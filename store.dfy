/**
 * The datastore as the two handlers use it through the Prisma client: a user
 * table with a unique email index, and a session table. The store assigns
 * identifiers; the collation of the email index is a parameter of the store.
 */
module Database {
  import opened Wrappers

  /** A user row; `password` is the stored digest and is absent for OAuth-only accounts. */
  datatype User = User(
    id: nat,
    name: string,
    email: string,
    password: Option<string>,
    createdAt: int,
    updatedAt: int)

  /** A session row; `expires` is in milliseconds since the epoch. */
  datatype Session = Session(id: nat, userId: nat, sessionToken: string, expires: int)

  /** A call a handler makes on the store, kept so that contracts can say which calls happened. */
  datatype Call =
    | FindUniqueUser(email: string)
    | CreateSessionRow(userId: nat)
    | CreateUserRow(email: string)

  const UniqueEmailViolation: string := "Unique constraint failed on the fields: (`email`)"
  const ForeignKeyViolation: string := "Foreign key constraint failed on the field: `userId`"

  class Store {
    /** The collation of the unique email index: two emails with the same key are the same entry. */
    const key: string -> string
    /** The user table, indexed by the collation key of each user's email. */
    var users: map<string, User>
    var sessions: seq<Session>
    var nextUserId: nat
    var nextSessionId: nat
    ghost var calls: seq<Call>

    /**
     * Every user sits under the key of its own email; user ids and session
     * ids are distinct and below the next id to hand out (session ids grow
     * with the table); every session belongs to a user in the table.
     */
    ghost predicate Valid()
      reads this`users, this`sessions, this`nextUserId, this`nextSessionId
    {
      && (forall k :: k in users ==> key(users[k].email) == k)
      && (forall k :: k in users ==> users[k].id < nextUserId)
      && (forall k, k' :: k in users && k' in users && k != k' ==> users[k].id != users[k'].id)
      && (forall i :: 0 <= i < |sessions| ==> sessions[i].id < nextSessionId)
      && (forall i, j :: 0 <= i < j < |sessions| ==> sessions[i].id < sessions[j].id)
      && (forall i :: 0 <= i < |sessions| ==> HasUser(sessions[i].userId))
    }

    predicate HasUser(id: nat)
      reads this`users
    {
      exists k | k in users :: users[k].id == id
    }

    /** The user whose email the index considers equal to `email`, if any. */
    function Lookup(email: string): (u: Option<User>)
      reads this`users
      ensures u.Some? ==> key(email) in users && u.value == users[key(email)]
      ensures u.None? ==> key(email) !in users
    {
      if key(email) in users then Some(users[key(email)]) else None
    }

    /**
     * What `findUnique` on the unique email index promises of a valid store:
     * the row found has an email that collates with the query, and when none
     * is found no row's email does.
     */
    lemma LookupFindsCollatingEmail(email: string)
      requires Valid()
      ensures Lookup(email).Some? ==> Lookup(email).value in users.Values && key(Lookup(email).value.email) == key(email)
      ensures Lookup(email).None? ==> forall u :: u in users.Values ==> key(u.email) != key(email)
    {
    }

    constructor (key: string -> string)
      ensures Valid() && this.key == key
      ensures users == map[] && sessions == [] && calls == []
      ensures nextUserId == 0 && nextSessionId == 0
    {
      this.key := key;
      users := map[];
      sessions := [];
      nextUserId := 0;
      nextSessionId := 0;
      calls := [];
    }

    /** `prisma.user.findUnique({ where: { email } })`; `fault` is the error the call throws, if any. */
    method FindUniqueByEmail(email: string, fault: Option<string>) returns (r: Result<Option<User>, string>)
      modifies this`calls
      ensures calls == old(calls) + [FindUniqueUser(email)]
      ensures fault.Some? ==> r == Failure(fault.value)
      ensures fault.None? ==> r == Success(Lookup(email))
    {
      calls := calls + [FindUniqueUser(email)];
      if fault.Some? {
        return Failure(fault.value);
      }
      r := Success(Lookup(email));
    }

    /**
     * `prisma.session.create({ data: { userId, sessionToken, expires } })`:
     * appends one row with a fresh id. Throws, leaving the table as it was,
     * on an injected fault or when no user has that id.
     */
    method CreateSession(userId: nat, sessionToken: string, expires: int, fault: Option<string>)
      returns (r: Result<Session, string>)
      requires Valid()
      modifies this
      ensures Valid()
      ensures users == old(users) && nextUserId == old(nextUserId)
      ensures calls == old(calls) + [CreateSessionRow(userId)]
      ensures r.Success? <==> fault.None? && old(HasUser(userId))
      ensures r.Success? ==>
        && r.value == Session(old(nextSessionId), userId, sessionToken, expires)
        && sessions == old(sessions) + [r.value]
      ensures r.Failure? ==> sessions == old(sessions) && nextSessionId == old(nextSessionId)
      ensures fault.Some? ==> r == Failure(fault.value)
    {
      calls := calls + [CreateSessionRow(userId)];
      if fault.Some? {
        return Failure(fault.value);
      }
      if !HasUser(userId) {
        return Failure(ForeignKeyViolation);
      }
      var s := Session(nextSessionId, userId, sessionToken, expires);
      sessions := sessions + [s];
      nextSessionId := nextSessionId + 1;
      r := Success(s);
    }

    /**
     * `prisma.user.create({ data: { name, email, password } })`: inserts one
     * row with a fresh id, stamped `now`. Throws, leaving the table as it
     * was, on an injected fault or when the email index already holds the email.
     */
    method CreateUser(name: string, email: string, password: Option<string>, now: int, fault: Option<string>)
      returns (r: Result<User, string>)
      requires Valid()
      modifies this
      ensures Valid()
      ensures sessions == old(sessions) && nextSessionId == old(nextSessionId)
      ensures calls == old(calls) + [CreateUserRow(email)]
      ensures r.Success? <==> fault.None? && old(Lookup(email)).None?
      ensures r.Success? ==>
        && r.value == User(old(nextUserId), name, email, password, now, now)
        && users == old(users)[key(email) := r.value]
      ensures r.Failure? ==> users == old(users) && nextUserId == old(nextUserId)
      ensures fault.Some? ==> r == Failure(fault.value)
    {
      calls := calls + [CreateUserRow(email)];
      if fault.Some? {
        return Failure(fault.value);
      }
      if key(email) in users {
        return Failure(UniqueEmailViolation);
      }
      var u := User(nextUserId, name, email, password, now, now);
      ghost var before := users;
      users := users[key(email) := u];
      nextUserId := nextUserId + 1;
      forall i | 0 <= i < |sessions|
        ensures HasUser(sessions[i].userId)
      {
        assert old(HasUser(sessions[i].userId));
        var k :| k in before && before[k].id == sessions[i].userId;
        assert k in users && users[k] == before[k];
      }
      r := Success(u);
    }
  }
}
