/** The three ways to become authenticated agree; what can come between a sign-in and its tokens;
    and how tokens lead back to the user who signed in. */
module SignIn {
  import opened Prelude
  import opened Users
  import opened AuthRequests
  import opened LoginIdentity
  import opened LoginStorage
  import LM = LoginMachine
  import LS = LoginSerial
  import C = Claims
  import TT = TokenTables
  import TM = TokenMachine
  import TS = TokenSafety

  // ---- The handlers ---------------------------------------------------------------------------------

  predicate Stored(db: LM.Tables, id: string) {
    id in db.requests && db.requests[id].id == id
  }

  lemma CompleteSteps(db: LM.Tables, id: string, user: string, now: Time)
    requires Stored(db, id)
    ensures Steps(db, now, LM.Entry(LM.Complete(id, user)), "", 3).0 ==
      LM.Upsert(db, Completed(db.requests[id], user, db.users, now))
  {
    var copy := db.requests[id].(done := true, authTime := now, userId := user);
    var stamped := LM.Stamped(copy, LM.Account(db.users, user));
    assert Steps(db, now, LM.CompleteLoad(id, user), "", 3) == Steps(db, now, LM.CompleteGetUser(copy), "", 2);
    assert Steps(db, now, LM.CompleteGetUser(copy), "", 2) == Steps(db, now, LM.CompleteSave(stamped), "", 1);
  }

  lemma SetUserSteps(db: LM.Tables, id: string, user: string, now: Time)
    requires Stored(db, id)
    ensures Steps(db, now, LM.Entry(LM.SetUser(id, user)), "", 2).0 ==
      LM.Upsert(db, db.requests[id].(userId := user))
  {
    var copy := db.requests[id].(userId := user);
    assert Steps(db, now, LM.SetUserLoad(id, user), "", 2) == Steps(db, now, LM.SetUserSave(copy), "", 1);
  }

  lemma CompletedIdentity(users: UserTable, x: string, req: AuthRequest, now: Time)
    requires TableOk(users) && x in users
    ensures IdentityIn(Completed(req, x, users, now)) == IdentityOf(users[x])
    ensures Completed(req, x, users, now).done && Completed(req, x, users, now).id == req.id
  {
  }

  predicate WantsConsent(db: LM.Tables, clients: map<string, Client>, id: string)
    requires id in db.requests && db.requests[id].applicationId in clients
  {
    clients[db.requests[id].applicationId].requireConsent
  }

  /** Signing in as a stored user authenticates the same identity each way, whatever the request
      looked like before: POST /login for a client without consent, POST /login and an allowed
      POST /consent for a client with it, and the password grant for the user's name. */
  lemma ThreeWaysOneIdentity(db: LM.Tables, clients: map<string, Client>, id: string, x: string, now: Time, later: Time,
                             client: string, scopes: seq<string>, drawn: string, req: AuthRequest)
    requires TableOk(db.users) && x in db.users && Stored(db, id) && db.requests[id].applicationId in clients
    ensures !WantsConsent(db, clients, id) ==>
      var (db1, page) := LoginEffect(db, clients, id, x, now);
      page == ToCallback && Stored(db1, id) && IdentityIn(db1.requests[id]) == IdentityOf(db.users[x])
    ensures WantsConsent(db, clients, id) ==>
      var (db1, page1) := LoginEffect(db, clients, id, x, now); var (db2, page2) := ConsentEffect(db1, id, true, later);
      page1 == ToConsent && page2 == ToCallback && Stored(db2, id) && IdentityIn(db2.requests[id]) == IdentityOf(db.users[x])
    ensures RopcAnswer(db.users, client, db.users[x].username, scopes, drawn, now, req) ==>
      IdentityIn(req) == IdentityOf(db.users[x])
  {
    if WantsConsent(db, clients, id) {
      SetUserSteps(db, id, x, now);
      var db1 := LM.Upsert(db, db.requests[id].(userId := x));
      CompleteSteps(db1, id, x, later);
      CompletedIdentity(db.users, x, db1.requests[id], later);
    } else {
      CompleteSteps(db, id, x, now);
      CompletedIdentity(db.users, x, db.requests[id], now);
    }
  }

  /** No other account has the custom subject of x as its row id. */
  predicate SubjectIsNoOtherId(users: UserTable, x: string)
    requires x in users
  {
    users[x].SubjectOrId() in users ==> users[x].SubjectOrId() == x
  }

  /** The consent form submitted once more after it completed the request for x authenticates
      whoever has x's custom subject as row id; it changes nothing exactly if there is no such
      account, or its tokens would say the same. */
  lemma ConsentRepeatsIff(db: LM.Tables, id: string, x: string, now: Time, later: Time)
    requires TableOk(db.users) && x in db.users && Stored(db, id) && db.requests[id].userId == x
    ensures var (db1, _) := ConsentEffect(db, id, true, now); var (db2, _) := ConsentEffect(db1, id, true, later);
      var sub := db.users[x].SubjectOrId();
      && Stored(db1, id) && Stored(db2, id)
      && IdentityIn(db2.requests[id]) == (if sub in db.users then IdentityOf(db.users[sub]) else IdentityOf(db.users[x]))
      && (IdentityIn(db2.requests[id]) == IdentityIn(db1.requests[id]) <==>
            SubjectIsNoOtherId(db.users, x) || IdentityOf(db.users[sub]) == IdentityOf(db.users[x]))
  {
    var once := Completed(db.requests[id], x, db.users, now);
    var db1 := LM.Upsert(db, once);
    CompleteSteps(db, id, x, now);
    CompletedIdentity(db.users, x, db.requests[id], now);
    CompleteSteps(db1, id, once.userId, later);
    if once.userId in db.users {
      CompletedIdentity(db.users, once.userId, once, later);
    }
  }

  /** Repeating the consent step changes nothing if no other account's id is this user's custom
      subject. */
  lemma ConsentIsRepeatable(db: LM.Tables, id: string, x: string, now: Time, later: Time)
    requires TableOk(db.users) && x in db.users && Stored(db, id) && db.requests[id].userId == x
    requires SubjectIsNoOtherId(db.users, x)
    ensures var (db1, _) := ConsentEffect(db, id, true, now); var (db2, _) := ConsentEffect(db1, id, true, later);
      && Stored(db1, id) && Stored(db2, id)
      && IdentityIn(db2.requests[id]) == IdentityIn(db1.requests[id]) == IdentityOf(db.users[x])
  {
    ConsentRepeatsIff(db, id, x, now, later);
  }

  /** It is not always harmless: two accounts, the custom subject of one being the id of the other,
      whose acr differs. */
  lemma RepeatedConsentCanSwitchUser(db: LM.Tables, id: string, x: User, y: User, now: Time, later: Time)
    requires x.id != y.id && x.username != y.username && x.subject == y.id && y.id != "" && x.acr != y.acr
    requires db.users == map[x.id := x, y.id := y] && Stored(db, id) && db.requests[id].userId == x.id
    ensures var (db1, _) := ConsentEffect(db, id, true, now); var (db2, _) := ConsentEffect(db1, id, true, later);
      && TableOk(db.users) && Stored(db1, id) && Stored(db2, id)
      && db1.requests[id].acr == x.acr && db2.requests[id].acr == y.acr
  {
    ConsentRepeatsIff(db, id, x.id, now, later);
    CompleteSteps(db, id, x.id, now);
  }

  /** Nor is a second login for a request that is already done: for a client that wants consent, the
      request stays done, its subject becomes the raw row id of the second account, which never
      consented, and acr and amr stay those of the first. */
  lemma SecondLoginMixesAccounts(db: LM.Tables, clients: map<string, Client>, id: string, a: string, b: string,
                                 t1: Time, t2: Time, t3: Time)
    requires TableOk(db.users) && a in db.users && Stored(db, id)
    requires db.requests[id].applicationId in clients && WantsConsent(db, clients, id)
    ensures var (db1, page1) := LoginEffect(db, clients, id, a, t1);
      var (db2, page2) := ConsentEffect(db1, id, true, t2);
      var (db3, page3) := LoginEffect(db2, clients, id, b, t3);
      && page1 == ToConsent && page2 == ToCallback && page3 == ToConsent
      && Stored(db3, id) && db3.requests[id].done
      && IdentityIn(db3.requests[id]) == IdentityOf(db.users[a]).(subject := b)
  {
    SetUserSteps(db, id, a, t1);
    var db1 := LM.Upsert(db, db.requests[id].(userId := a));
    CompleteSteps(db1, id, a, t2);
    CompletedIdentity(db.users, a, db1.requests[id], t2);
    var db2 := LM.Upsert(db1, Completed(db1.requests[id], a, db.users, t2));
    SetUserSteps(db2, id, b, t3);
  }

  // ---- From the sign-in to the tokens -----------------------------------------------------------------

  /** Thread t is about to redeem a code for a request that is done. */
  predicate Redeems(s: LM.System, t: nat) {
    && t in s.threads && s.threads[t].pc.CodeLoad?
    && s.threads[t].pc.id in s.db.requests && s.db.requests[s.threads[t].pc.id].done
  }

  /** The request that the redemption yields. */
  function Redemption(s: LM.System, t: nat): AuthRequest
    requires Redeems(s, t)
    ensures LM.Exec(s, LM.Move(t, "")).threads[t].pc == LM.Done(LM.Redeemed(Redemption(s, t)))
  {
    s.db.requests[s.threads[t].pc.id]
  }

  /** r is a refresh token, with its access token, of a chain that started from this request. */
  predicate InChainOf(s: TM.System, r: string, req: AuthRequest) {
    && r in s.db.refreshTokens && s.db.refreshTokens[r].accessToken in s.db.tokens
    && TM.Root(s.history, r) in s.history.grants
    && s.history.grants[TM.Root(s.history, r)] == TM.GrantOf(TT.FromAuth(req))
  }

  lemma SubjectOfChain(ls: seq<TM.Label>, r: string, req: AuthRequest)
    requires InChainOf(TM.Run(ls), r, req)
    ensures var s := TM.Run(ls); s.db.tokens[s.db.refreshTokens[r].accessToken].subject == req.userId
  {
    TS.RefreshRowsCarryTheirGrant(ls);
    var s := TM.Run(ls);
    assert TS.GrantIn(s.db.refreshTokens[r]) == s.history.grants[TM.Root(s.history, r)];
  }

  /** The account a redeemed request was last completed for. */
  function SignedIn(s: LM.System, t: nat): string
    requires Redeems(s, t) && s.threads[t].pc.id in s.history.completed
  {
    s.history.completed[s.threads[t].pc.id]
  }

  /** After any renewals in any interleaving, every access token of the chain started by a redeemed
      request has the effective subject of the account that signed in, if and only if
      SetAuthRequestUser did not save another user between the completion and the redemption. */
  lemma TokensCarryTheSubjectIff(login: seq<LM.Label>, t: nat, users: UserTable, ls: seq<TM.Label>, r: string)
    requires LS.Serial(login) && AccountsFixed(login, users) && Redeems(LM.Run(login), t)
    requires InChainOf(TM.Run(ls), r, Redemption(LM.Run(login), t))
    ensures var l := LM.Run(login); var s := TM.Run(ls); var id := l.threads[t].pc.id;
      && id in l.history.completed
      && (s.db.tokens[s.db.refreshTokens[r].accessToken].subject == SubjectOf(users, SignedIn(l, t)) <==>
            StillChosen(l.history, users, id))
  {
    DoneCarriesIdentityIff(login, users, LM.Run(login).threads[t].pc.id);
    SubjectOfChain(ls, r, Redemption(LM.Run(login), t));
  }

  /** Then, if no two users share an effective subject, that subject resolves to the account that
      signed in, whichever row a lookup picks. */
  lemma TokensLeadBackToTheUser(login: seq<LM.Label>, t: nat, users: UserTable, ls: seq<TM.Label>, r: string,
                                found: Option<User>)
    requires TableOk(users) && "" !in users && InjectiveSubjects(users)
    requires LS.Serial(login) && AccountsFixed(login, users) && Redeems(LM.Run(login), t)
    requires InChainOf(TM.Run(ls), r, Redemption(LM.Run(login), t))
    requires var l := LM.Run(login); var id := l.threads[t].pc.id;
      id in l.history.completed && SignedIn(l, t) in users && StillChosen(l.history, users, id)
    requires var s := TM.Run(ls); Resolves(users, s.db.tokens[s.db.refreshTokens[r].accessToken].subject, found)
    ensures found == Some(users[SignedIn(LM.Run(login), t)])
  {
    TokensCarryTheSubjectIff(login, t, users, ls, r);
    InjectiveResolvesBack(users, SignedIn(LM.Run(login), t));
  }

  /** Hence userinfo for that access token is the userinfo of the user who signed in, and its
      subject is the token's as soon as the openid scope was granted. */
  lemma UserinfoIsTheSignedInUsers(login: seq<LM.Label>, t: nat, users: UserTable, ls: seq<TM.Label>, r: string,
                                   parseTag: string -> Option<string>, start: C.UserInfo, custom: Option<Claims>, info: C.UserInfo)
    requires TableOk(users) && "" !in users && InjectiveSubjects(users)
    requires LS.Serial(login) && AccountsFixed(login, users) && Redeems(LM.Run(login), t)
    requires InChainOf(TM.Run(ls), r, Redemption(LM.Run(login), t))
    requires var l := LM.Run(login); var id := l.threads[t].pc.id;
      id in l.history.completed && SignedIn(l, t) in users && StillChosen(l.history, users, id)
    requires var s := TM.Run(ls); var row := s.db.tokens[s.db.refreshTokens[r].accessToken];
      C.UserinfoFor(users, parseTag, start, row.subject, custom, row.applicationId, C.ScopeSet(row.scopes), info)
    ensures var s := TM.Run(ls); var row := s.db.tokens[s.db.refreshTokens[r].accessToken];
      var u := users[SignedIn(LM.Run(login), t)];
      && info == C.UserinfoOf(parseTag, start, Some(u), row.subject, custom, row.applicationId, C.ScopeSet(row.scopes))
      && row.subject == u.SubjectOrId()
      && ("openid" in row.scopes ==> info.subject == row.subject)
  {
    var s := TM.Run(ls);
    var row := s.db.tokens[s.db.refreshTokens[r].accessToken];
    var found :| Resolves(users, row.subject, found)
      && info == C.UserinfoOf(parseTag, start, found, row.subject, custom, row.applicationId, C.ScopeSet(row.scopes));
    TokensCarryTheSubjectIff(login, t, users, ls, r);
    TokensLeadBackToTheUser(login, t, users, ls, r, found);
    if "openid" in row.scopes {
      OpenIdReleasesSubject(C.ScopeSet(row.scopes));
    }
  }

  lemma OpenIdReleasesSubject(scopes: set<string>)
    requires "openid" in scopes
    ensures C.OpenId in C.Kinds(scopes)
  {
    assert C.Kind("openid") == C.OpenId;
  }
}
