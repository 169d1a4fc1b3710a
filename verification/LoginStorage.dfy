/** The authorization request methods of the storage object, and the login handlers on top of them
    (internal/storage/storage.go, internal/auth/auth.go, internal/oidc/ropc.go). Each storage method
    leaves the tables exactly as the steps of LoginMachine do for a caller that is alone. */
module LoginStorage {
  import opened Prelude
  import opened Users
  import opened AuthRequests
  import opened LoginMachine
  import AdminText

  /** n steps with nothing in between. */
  function Steps(db: Tables, now: Time, pc: Pc, drawn: string, n: nat): (Tables, Pc)
    decreases n
  {
    if n == 0 then (db, pc)
    else
      var (db', pc') := Advance(db, now, pc, drawn);
      Steps(db', now, pc', drawn, n - 1)
  }

  lemma MoveIsStep(s: System, t: nat, drawn: string)
    requires t in s.threads && (s.threads[t].pc.CreateDraw? ==> drawn !in s.history.sent)
    ensures var s' := Exec(s, Move(t, drawn)); var (db, pc) := Advance(s.db, s.clock, s.threads[t].pc, drawn);
      && s'.db == db && s'.clock == s.clock && s'.threads == s.threads[t := Thread(s.threads[t].call, pc)]
      && !pc.CreateDraw?
  {
  }

  /** Moving one thread n times in the machine is running its program for n steps. */
  lemma {:induction false} MovesAreSteps(s: System, t: nat, drawn: string, n: nat)
    requires t in s.threads && (s.threads[t].pc.CreateDraw? ==> drawn !in s.history.sent)
    decreases n
    ensures var s' := RunFrom(s, Moves(t, drawn, n)); var (db, pc) := Steps(s.db, s.clock, s.threads[t].pc, drawn, n);
      && s'.db == db && s'.clock == s.clock
      && s'.threads == s.threads[t := Thread(s.threads[t].call, pc)]
  {
    if n > 0 {
      RunOne(s, Move(t, drawn));
      RunAppend(s, [Move(t, drawn)], Moves(t, drawn, n - 1));
      assert Moves(t, drawn, n) == [Move(t, drawn)] + Moves(t, drawn, n - 1);
      MoveIsStep(s, t, drawn);
      MovesAreSteps(Exec(s, Move(t, drawn)), t, drawn, n - 1);
    }
  }

  /** The request after CompleteAuthRequest for this user. */
  function Completed(req: AuthRequest, user: string, users: UserTable, now: Time): AuthRequest {
    Stamped(req.(done := true, authTime := now, userId := user), Account(users, user))
  }

  datatype Client = Client(secret: string, requireConsent: bool, grantTypes: seq<string>)

  const PASSWORD := "password"

  method HasGrantType(c: Client, grantType: string) returns (found: bool)
    ensures found <==> grantType in c.grantTypes
  {
    for i := 0 to |c.grantTypes|
      invariant grantType !in c.grantTypes[..i]
    {
      if c.grantTypes[i] == grantType {
        return true;
      }
    }
    return false;
  }

  datatype Page = BadRequest | ToConsent | ToCallback | DeniedPage

  datatype TokenError = InvalidClient | UnauthorizedClient | InvalidRequest | InvalidGrant

  datatype Exchange = Granted(req: AuthRequest) | Refused(error: TokenError)

  // ---- What the handlers do to the tables ---------------------------------------------------------

  /** doLogin: a missing request or client is an error; otherwise one storage call. */
  function LoginEffect(db: Tables, clients: map<string, Client>, id: string, user: string, now: Time): (Tables, Page) {
    if id !in db.requests || db.requests[id].applicationId !in clients then (db, BadRequest)
    else if clients[db.requests[id].applicationId].requireConsent then (Steps(db, now, Entry(SetUser(id, user)), "", 2).0, ToConsent)
    else (Steps(db, now, Entry(Complete(id, user)), "", 3).0, ToCallback)
  }

  /** doConsent: it completes for the user that is recorded, or deletes. */
  function ConsentEffect(db: Tables, id: string, allow: bool, now: Time): (Tables, Page) {
    if id !in db.requests then (db, BadRequest)
    else if allow then (Steps(db, now, Entry(Complete(id, db.requests[id].userId)), "", 3).0, ToCallback)
    else (Steps(db, now, Entry(Delete(id)), "", 2).0, DeniedPage)
  }

  /** The request the password grant issues tokens for belongs to an account of that username. */
  ghost predicate RopcAnswer(users: UserTable, client: string, username: string, scopes: seq<string>, id: string, now: Time,
                             req: AuthRequest)
  {
    exists x | x in users :: users[x].username == username && req == NewAuthenticated(id, client, users[x], scopes, now)
  }

  /** Client id and secret as presented with HTTP basic authentication or in the form. */
  datatype Credentials = Credentials(clientId: string, secret: string)

  class AuthStore {
    var requests: map<string, AuthRequest>
    var codes: map<string, string>
    var clients: map<string, Client>
    const users: UserStore

    /** Rows sit under their own id. */
    ghost predicate Valid()
      reads `requests
    {
      forall x :: x in requests ==> requests[x].id == x
    }

    constructor (users: UserStore)
      ensures Valid()
      ensures requests == map[] && codes == map[] && clients == map[] && this.users == users
    {
      requests, codes, clients := map[], map[], map[];
      this.users := users;
    }

    ghost function State(): Tables
      reads this, users
    {
      Tables(requests, codes, users.users)
    }

    /** A prompt of exactly none fails; id is the id drawn. */
    method CreateAuthRequest(incoming: IncomingRequest, userId: string, id: string, now: Time)
      returns (created: Option<AuthRequest>)
      requires Valid()
      modifies `requests
      ensures Valid()
      ensures MustNotPrompt(incoming) ==> created == None && requests == old(requests)
      ensures !MustNotPrompt(incoming) ==> created.Some?
      ensures !MustNotPrompt(incoming) ==>
        Steps(old(State()), now, Entry(Create(incoming, userId)), id, 2) == (State(), Done(Created(created.value)))
      ensures created.None? <==> incoming.prompt == ["none"]
      ensures created.Some? ==> var req := created.value;
        && requests == old(requests)[id := req] && CarriesSent(req, incoming)
        && req.id == id && req.userId == userId && req.creationDate == now
        && !req.done && req.authTime == 0 && req.acr == "" && req.amr == []
    {
      if |incoming.prompt| == 1 && incoming.prompt[0] == "none" {
        return None;
      }
      var prompt := PromptToInternal(incoming.prompt);
      var challenge := if incoming.codeChallenge != ""
        then Some(CodeChallenge(incoming.codeChallenge, incoming.codeChallengeMethod)) else None;
      var req := AuthRequest(id, incoming.clientId, incoming.redirectUri, incoming.state, prompt, userId,
                             incoming.scopes, incoming.responseType, incoming.responseMode, incoming.nonce,
                             challenge, "", [], false, 0, now,
                             Hints(incoming.uiLocales, incoming.loginHint, incoming.maxAge));
      SaveAuthRequest(req);
      return Some(req);
    }

    method SaveAuthRequest(req: AuthRequest)
      requires Valid()
      modifies `requests
      ensures Valid()
      ensures State() == Upsert(old(State()), req)
    {
      requests := requests[req.id := req];
    }

    method AuthRequestByID(id: string) returns (req: Option<AuthRequest>)
      ensures req == if id in requests then Some(requests[id]) else None
    {
      return if id in requests then Some(requests[id]) else None;
    }

    method AuthRequestByCode(code: string) returns (req: Option<AuthRequest>)
      ensures Steps(State(), 0, Entry(ByCode(code)), "", 2).1
           == Done(if req.Some? then Redeemed(req.value) else if code in codes then NotFound else CodeInvalid)
      ensures req == if code in codes && codes[code] in requests then Some(requests[codes[code]]) else None
    {
      if code !in codes {
        return None;
      }
      req := AuthRequestByID(codes[code]);
    }

    method SaveAuthCode(id: string, code: string) returns (ok: bool)
      modifies `codes
      ensures Steps(old(State()), 0, Entry(SaveCode(id, code)), "", 1) == (State(), Done(if ok then CodeSaved else CodeTaken))
      ensures ok <==> code !in old(codes)
      ensures codes == if ok then old(codes)[code := id] else old(codes)
    {
      if code in codes {
        return false;
      }
      codes := codes[code := id];
      return true;
    }

    method DeleteAuthRequest(id: string)
      requires Valid()
      modifies `requests, `codes
      ensures Valid()
      ensures Steps(old(State()), 0, Entry(Delete(id)), "", 2) == (State(), Done(Deleted))
      ensures requests == old(requests) - {id} && codes == old(codes) - CodesOf(old(State()), id)
      ensures forall c :: c in codes <==> c in old(codes) && old(codes)[c] != id
      ensures forall c :: c in codes ==> codes[c] == old(codes)[c]
    {
      codes := codes - set c | c in codes && codes[c] == id;
      requests := requests - {id};
    }

    method SetAuthRequestUser(id: string, user: string) returns (ok: bool)
      requires Valid()
      modifies `requests
      ensures Valid()
      ensures Steps(old(State()), 0, Entry(SetUser(id, user)), "", 2) == (State(), Done(if ok then Saved else NotFound))
      ensures ok == (id in old(requests))
      ensures requests == if ok then old(requests)[id := old(requests)[id].(userId := user)] else old(requests)
    {
      var req := AuthRequestByID(id);
      if req.None? {
        return false;
      }
      SaveAuthRequest(req.value.(userId := user));
      return true;
    }

    method CompleteAuthRequest(id: string, user: string, now: Time) returns (ok: bool)
      requires Valid()
      modifies `requests
      ensures Valid()
      ensures Steps(old(State()), now, Entry(Complete(id, user)), "", 3) == (State(), Done(if ok then Saved else NotFound))
      ensures ok == (id in old(requests))
      ensures requests == if ok then old(requests)[id := Completed(old(requests)[id], user, users.users, now)] else old(requests)
      ensures ok ==> var req := requests[id];
        && req == old(requests)[id].(done := true, authTime := now, userId := req.userId, acr := req.acr, amr := req.amr)
        && (user !in users.users ==> req.userId == user && req.acr == old(requests)[id].acr && req.amr == old(requests)[id].amr)
        && (user in users.users ==> var u := users.users[user];
              && req.acr == u.acr && req.amr == u.amr && req.userId == if u.subject == "" then u.id else u.subject)
    {
      var req := AuthRequestByID(id);
      if req.None? {
        return false;
      }
      var r := req.value.(done := true, authTime := now);
      r := r.(userId := user);
      var u := users.GetUser(user);
      if u.Some? {
        r := r.(userId := u.value.SubjectOrId(), acr := u.value.acr, amr := u.value.amr);
      }
      SaveAuthRequest(r);
      return true;
    }

    /** POST /login: a client that wants consent only gets the chosen user recorded. */
    method DoLogin(id: string, user: string, now: Time) returns (page: Page)
      requires Valid()
      modifies `requests
      ensures Valid()
      ensures (State(), page) == LoginEffect(old(State()), clients, id, user, now)
      ensures page == (
        if id !in old(requests) || old(requests)[id].applicationId !in clients then BadRequest
        else if clients[old(requests)[id].applicationId].requireConsent then ToConsent else ToCallback)
      ensures page.BadRequest? ==> requests == old(requests)
      ensures page.ToConsent? ==> requests == old(requests)[id := old(requests)[id].(userId := user)]
      ensures page.ToCallback? ==> requests == old(requests)[id := Completed(old(requests)[id], user, users.users, now)]
    {
      var req := AuthRequestByID(id);
      if req.None? || req.value.applicationId !in clients {
        return BadRequest;
      }
      if clients[req.value.applicationId].requireConsent {
        var _ := SetAuthRequestUser(id, user);
        return ToConsent;
      }
      var _ := CompleteAuthRequest(id, user, now);
      return ToCallback;
    }

    /** POST /consent: anything but allow deletes the request and its codes. */
    method DoConsent(id: string, allow: bool, now: Time) returns (page: Page)
      requires Valid()
      modifies `requests, `codes
      ensures Valid()
      ensures (State(), page) == ConsentEffect(old(State()), id, allow, now)
      ensures page == if id !in old(requests) then BadRequest else if allow then ToCallback else DeniedPage
      ensures page.BadRequest? ==> State() == old(State())
      ensures page.DeniedPage? ==> requests == old(requests) - {id} && codes == old(codes) - CodesOf(old(State()), id)
      ensures page.ToCallback? ==> codes == old(codes)
      ensures page.ToCallback? ==>
        requests == old(requests)[id := Completed(old(requests)[id], old(requests)[id].userId, users.users, now)]
    {
      var req := AuthRequestByID(id);
      if req.None? {
        return BadRequest;
      }
      if !allow {
        DeleteAuthRequest(id);
        return DeniedPage;
      }
      var _ := CompleteAuthRequest(id, req.value.userId, now);
      return ToCallback;
    }

    /** The password grant up to the request it issues tokens for; the password is not looked at.
        Basic authentication counts unless its user name is empty. */
    method RopcExchange(basic: Option<Credentials>, form: Credentials, username: string, scope: string,
                        ws: char -> bool, id: string, now: Time)
      returns (result: Exchange)
      requires TableOk(users.users)
      ensures var c := if basic.Some? && basic.value.clientId != "" then basic.value else form;
        var accepted := c.clientId != "" && c.clientId in clients && clients[c.clientId].secret in {"", c.secret};
        && (result.Granted? <==>
              && accepted && "password" in clients[c.clientId].grantTypes && username != ""
              && exists y :: y in users.users && users.users[y].username == username)
        && (result == Refused(InvalidClient) <==> !accepted)
        && (result == Refused(UnauthorizedClient) <==> accepted && "password" !in clients[c.clientId].grantTypes)
        && (result == Refused(InvalidRequest) <==>
              accepted && "password" in clients[c.clientId].grantTypes && username == "")
      ensures result.Granted? ==> var c := if basic.Some? && basic.value.clientId != "" then basic.value else form;
        && RopcAnswer(users.users, c.clientId, username, AdminText.Fields(scope, ws), id, now, result.req)
        && result.req.applicationId == c.clientId
      ensures result.Granted? ==> var req := result.req;
        && req.id == id && req.done && req.authTime == now && req.creationDate == now
        && req.scopes == AdminText.Fields(scope, ws) && req.responseType == "code" && req.codeChallenge == None
        && exists x | x in users.users && users.users[x].username == username :: var u := users.users[x];
             req.acr == u.acr && req.amr == u.amr && req.userId == if u.subject == "" then u.id else u.subject
    {
      var c := form;
      if basic.Some? && basic.value.clientId != "" {
        c := basic.value;
      }
      if c.clientId == "" || c.clientId !in clients {
        return Refused(InvalidClient);
      }
      var client := clients[c.clientId];
      if client.secret != "" && client.secret != c.secret {
        return Refused(InvalidClient);
      }
      var allowed := HasGrantType(client, PASSWORD);
      if !allowed {
        return Refused(UnauthorizedClient);
      }
      if username == "" {
        return Refused(InvalidRequest);
      }
      var u := users.GetUserByUsername(username);
      if u.None? {
        return Refused(InvalidGrant);
      }
      var req := NewAuthenticated(id, c.clientId, u.value, AdminText.Fields(scope, ws), now);
      assert RopcAnswer(users.users, c.clientId, username, AdminText.Fields(scope, ws), id, now, req);
      return Granted(req);
    }
  }
}
