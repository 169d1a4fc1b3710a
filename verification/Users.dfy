/** Login accounts and the users table (internal/storage/models.go, internal/storage/repo.go). */
module Users {
  import opened Prelude

  datatype Json =
    | JNull
    | JBool(flag: bool)
    | JNumber(number: real)
    | JString(text: string)
    | JArray(items: seq<Json>)
    | JObject(fields: map<string, Json>)

  type Claims = map<string, Json>

  /** Extra claims for a client and scopes; an empty client id or scope list matches anything. */
  datatype Rule = Rule(clientId: string, scopes: seq<string>, claims: Claims)

  datatype User = User(
    id: string, subject: string, username: string, email: string, emailVerified: bool,
    phone: string, phoneVerified: bool, firstName: string, lastName: string,
    preferredLanguage: string, isAdmin: bool, claims: Claims, conditionalClaims: seq<Rule>,
    acr: string, amr: seq<string>)
  {
    function SubjectOrId(): string {
      if subject != "" then subject else id
    }
  }

  type UserTable = map<string, User>

  /** The primary key, and the unique index on usernames. */
  ghost predicate TableOk(users: UserTable) {
    && (forall x :: x in users ==> users[x].id == x)
    && (forall x, y | x in users && y in users :: users[x].username == users[y].username ==> x == y)
  }

  function SubjectRows(users: UserTable, sub: string): set<string> {
    set x | x in users && users[x].subject == sub
  }

  /** What GetUserBySubject may return, whichever row LIMIT 1 picks. */
  predicate Resolves(users: UserTable, sub: string, u: Option<User>) {
    if sub == "" then u == None
    else if SubjectRows(users, sub) != {} then u.Some? && exists x :: x in SubjectRows(users, sub) && u.value == users[x]
    else u == if sub in users then Some(users[sub]) else None
  }

  ghost predicate InjectiveSubjects(users: UserTable) {
    forall x, y | x in users && y in users :: users[x].SubjectOrId() == users[y].SubjectOrId() ==> x == y
  }

  ghost predicate ResolvesBack(users: UserTable, x: string)
    requires x in users
  {
    forall u :: Resolves(users, users[x].SubjectOrId(), u) ==> u == Some(users[x])
  }

  lemma InjectiveResolvesBack(users: UserTable, x: string)
    requires TableOk(users) && "" !in users && InjectiveSubjects(users) && x in users
    ensures ResolvesBack(users, x)
  {
    var sub := users[x].SubjectOrId();
    forall y | y in SubjectRows(users, sub)
      ensures y == x
    {
      assert users[y].SubjectOrId() == sub;
    }
    if users[x].subject != "" {
      assert x in SubjectRows(users, sub);
    } else {
      assert x !in SubjectRows(users, sub);
    }
  }

  lemma ResolutionExists(users: UserTable, sub: string) returns (u: Option<User>)
    ensures Resolves(users, sub, u)
  {
    if sub == "" {
      u := None;
    } else if SubjectRows(users, sub) != {} {
      var x :| x in SubjectRows(users, sub);
      u := Some(users[x]);
    } else {
      u := if sub in users then Some(users[sub]) else None;
    }
  }

  /** A token's subject leads back to the user it was issued to, whichever row is picked, for every
      stored user if and only if no two users have the same effective subject. */
  lemma SubjectsResolveBackIffInjective(users: UserTable)
    requires TableOk(users) && "" !in users
    ensures (forall x :: x in users ==> ResolvesBack(users, x)) <==> InjectiveSubjects(users)
  {
    if InjectiveSubjects(users) {
      forall x | x in users ensures ResolvesBack(users, x) {
        InjectiveResolvesBack(users, x);
      }
    }
    if forall x :: x in users ==> ResolvesBack(users, x) {
      forall x, y | x in users && y in users && users[x].SubjectOrId() == users[y].SubjectOrId()
        ensures x == y
      {
        assert ResolvesBack(users, x) && ResolvesBack(users, y);
        var u := ResolutionExists(users, users[x].SubjectOrId());
        assert users[x] == users[y];
      }
    }
  }

  class UserStore {
    var users: UserTable

    constructor ()
      ensures users == map[]
    {
      users := map[];
    }

    method GetUser(id: string) returns (u: Option<User>)
      ensures u == if id in users then Some(users[id]) else None
    {
      return if id in users then Some(users[id]) else None;
    }

    method GetUserByUsername(username: string) returns (u: Option<User>)
      requires TableOk(users)
      ensures u.Some? ==> u.value.id in users && users[u.value.id] == u.value && u.value.username == username
      ensures u.None? ==> forall x :: x in users ==> users[x].username != username
    {
      var rows := set x | x in users && users[x].username == username;
      if rows == {} {
        assert forall x :: x in users && users[x].username == username ==> x in rows;
        return None;
      }
      var x :| x in rows;
      return Some(users[x]);
    }

    method GetUserBySubject(sub: string) returns (u: Option<User>)
      ensures Resolves(users, sub, u)
      ensures sub == "" ==> u == None
      ensures sub != "" && (exists x :: x in users && users[x].subject == sub) ==>
        u.Some? && u.value.subject == sub && exists x :: x in users && users[x] == u.value
      ensures sub != "" && !(exists x :: x in users && users[x].subject == sub) ==>
        u == if sub in users then Some(users[sub]) else None
    {
      assert forall x :: x in users && users[x].subject == sub ==> x in SubjectRows(users, sub);
      if sub == "" {
        return None;
      }
      var rows := SubjectRows(users, sub);
      if rows != {} {
        var x :| x in rows;
        return Some(users[x]);
      }
      u := GetUser(sub);
    }

    /** Inserts or replaces by id; a username held by another row violates the unique index. */
    method SaveUser(u: User) returns (ok: bool)
      requires TableOk(users)
      modifies this
      ensures TableOk(users)
      ensures ok <==> forall x :: x in old(users) && x != u.id ==> old(users)[x].username != u.username
      ensures users == if ok then old(users)[u.id := u] else old(users)
    {
      if x :| x in users && x != u.id && users[x].username == u.username {
        return false;
      }
      users := users[u.id := u];
      return true;
    }

    method DeleteUser(id: string)
      requires TableOk(users)
      modifies this
      ensures TableOk(users) && users == old(users) - {id}
    {
      users := users - {id};
    }
  }
}
