/** The token methods of internal/storage/storage.go as programs over the tables, one SQL
    statement per step, run by any number of callers in any interleaving. There are no
    transactions; internal/storage/db.go:31 serialises single statements only. */
module TokenMachine {
  import opened Prelude
  import opened TokenTables

  datatype Call =
    | IssueAccess(request: TokenRequest)                         // CreateAccessToken
    | Issue(request: TokenRequest)                               // CreateAccessAndRefreshTokens, no current token
    | Renew(current: string)                                     // TokenRequestByRefreshToken, then the renewal
    | Revoke(token: string, user: string, client: string)        // RevokeToken
    | Terminate(user: string, client: string)                    // TerminateSession

  datatype Reason = IdTaken | InvalidRefreshToken | ExpiredRefreshToken | WrongClient

  datatype Outcome =
    | AccessIssued(access: string, expires: Time)
    | Issued(access: string, refresh: string, expires: Time)
    | Renewed(access: string, refresh: string, expires: Time)
    | RevokedAccess
    | RevokedRefresh
    | RevokedUnknown
    | Terminated
    | Failed(reason: Reason)
    | Abandoned

  // ---- The programs. A constructor is the next statement a call will execute, with its
  // ---- local variables; a draft is the access token row under construction.

  /** CreateAccessToken and accessToken. */
  datatype AccessPc =
    | AccessStart(request: TokenRequest)
    | AccessLookup(draft: TokenRow)
    | AccessInsert(draft: TokenRow)

  /** CreateAccessAndRefreshTokens without a current token, accessToken and createRefreshToken. */
  datatype IssuePc =
    | IssueStart(request: TokenRequest)
    | IssueLookup(draft: TokenRow, amr: seq<string>, authTime: Time)
    | IssueInsert(draft: TokenRow, amr: seq<string>, authTime: Time)
    | IssueRefreshLookup(draft: TokenRow, amr: seq<string>, authTime: Time)
    | IssueRefreshInsert(draft: TokenRow, amr: seq<string>, authTime: Time, lifetime: Time)

  /** TokenRequestByRefreshToken, then CreateAccessAndRefreshTokens with the loaded request
      and renewRefreshToken. */
  datatype RenewPc =
    | RenewLoad(current: string)
    | RenewLoaded(current: string, loaded: RefreshRow)
    | RenewLookup(current: string, draft: TokenRow)
    | RenewInsert(current: string, draft: TokenRow)
    | RenewReload(current: string, draft: TokenRow)
    | RenewDeleteRefresh(current: string, draft: TokenRow, prior: RefreshRow)
    | RenewDeleteAccess(current: string, draft: TokenRow, prior: RefreshRow)
    | RenewInsertRefresh(current: string, draft: TokenRow, prior: RefreshRow)

  /** RevokeToken. */
  datatype RevokePc =
    | RevokeLookup(token: string, client: string)
    | RevokeDeleteAccess(token: string)
    | RevokeLoad(token: string, client: string)
    | RevokeDeleteRefresh(prior: RefreshRow)
    | RevokeDeletePartner(prior: RefreshRow)

  /** TerminateSession. */
  datatype TerminatePc =
    | TerminateRefresh(user: string, client: string)
    | TerminateAccess(user: string, client: string)

  datatype Pc =
    | InAccess(access: AccessPc)
    | InIssue(issue: IssuePc)
    | InRenew(renew: RenewPc)
    | InRevoke(revoke: RevokePc)
    | InTerminate(terminate: TerminatePc)
    | Done(outcome: Outcome)

  function Entry(call: Call): Pc {
    match call
    case IssueAccess(req) => InAccess(AccessStart(req))
    case Issue(req) => InIssue(IssueStart(req))
    case Renew(current) => InRenew(RenewLoad(current))
    case Revoke(token, _, client) => InRevoke(RevokeLookup(token, client))
    case Terminate(user, client) => InTerminate(TerminateRefresh(user, client))
  }

  predicate AtEntry(pc: Pc) {
    match pc
    case InAccess(p) => p.AccessStart?
    case InIssue(p) => p.IssueStart?
    case InRenew(p) => p.RenewLoad?
    case InRevoke(p) => p.RevokeLookup?
    case InTerminate(p) => p.TerminateRefresh?
    case Done(_) => false
  }

  /** The method draws its ids and reads the clock before its first statement. */
  predicate AwaitsIds(pc: Pc) {
    match pc
    case InAccess(p) => p.AccessStart?
    case InIssue(p) => p.IssueStart?
    case InRenew(p) => p.RenewLoaded?
    case _ => false
  }

  function WithIds(pc: Pc, refreshId: string, accessId: string, now: Time): Pc
    requires AwaitsIds(pc)
  {
    match pc
    case InAccess(AccessStart(req)) =>
      InAccess(AccessLookup(Draft(accessId, req.AccessApplication(), "", req, now)))
    case InIssue(IssueStart(req)) =>
      InIssue(IssueLookup(Draft(accessId, req.Application(), refreshId, req, now), req.Amr(), req.AuthTime()))
    case InRenew(RenewLoaded(current, row)) =>
      InRenew(RenewLookup(current, Draft(accessId, row.applicationId, refreshId, FromRefresh(row), now)))
  }

  predicate CanMove(pc: Pc) {
    !AwaitsIds(pc) && !pc.Done?
  }

  /** The statement that reads the client's access token lifetime. */
  function Dated(db: Tables, t: TokenRow): TokenRow {
    t.(expiration := t.expiration + AccessLifetime(db.clients, t.applicationId))
  }

  function AdvanceAccess(db: Tables, pc: AccessPc): (Tables, Pc)
    requires !pc.AccessStart?
  {
    match pc
    case AccessLookup(t) => (db, InAccess(AccessInsert(Dated(db, t))))
    case AccessInsert(t) =>
      if t.id in db.tokens then (db, Done(Failed(IdTaken)))
      else (db.(tokens := db.tokens[t.id := t]), Done(AccessIssued(t.id, t.expiration)))
  }

  function AdvanceIssue(db: Tables, now: Time, pc: IssuePc): (Tables, Pc)
    requires !pc.IssueStart?
  {
    match pc
    case IssueLookup(t, amr, authTime) => (db, InIssue(IssueInsert(Dated(db, t), amr, authTime)))
    case IssueInsert(t, amr, authTime) =>
      if t.id in db.tokens then (db, Done(Failed(IdTaken)))
      else (db.(tokens := db.tokens[t.id := t]), InIssue(IssueRefreshLookup(t, amr, authTime)))
    case IssueRefreshLookup(t, amr, authTime) =>
      (db, InIssue(IssueRefreshInsert(t, amr, authTime, RefreshLifetime(db.clients, t.applicationId))))
    case IssueRefreshInsert(t, amr, authTime, lifetime) =>
      if t.refreshTokenId in db.refreshTokens then (db, Done(Failed(IdTaken)))
      else (db.(refreshTokens := db.refreshTokens[t.refreshTokenId :=
                  FirstRefreshRow(t, amr, authTime, now + lifetime)]),
            Done(Issued(t.id, t.refreshTokenId, t.expiration)))
  }

  function AdvanceRenew(db: Tables, now: Time, pc: RenewPc): (Tables, Pc)
    requires !pc.RenewLoaded?
  {
    match pc
    case RenewLoad(current) =>
      if current in db.refreshTokens then (db, InRenew(RenewLoaded(current, db.refreshTokens[current])))
      else (db, Done(Failed(InvalidRefreshToken)))
    case RenewLookup(current, t) => (db, InRenew(RenewInsert(current, Dated(db, t))))
    case RenewInsert(current, t) =>
      if t.id in db.tokens then (db, Done(Failed(IdTaken)))
      else (db.(tokens := db.tokens[t.id := t]), InRenew(RenewReload(current, t)))
    case RenewReload(current, t) =>
      if current !in db.refreshTokens then (db, Done(Failed(InvalidRefreshToken)))
      else if db.refreshTokens[current].expiration < now then (db, Done(Failed(ExpiredRefreshToken)))
      else (db, InRenew(RenewDeleteRefresh(current, t, db.refreshTokens[current])))
    case RenewDeleteRefresh(current, t, prior) =>
      (db.(refreshTokens := db.refreshTokens - {current}), InRenew(RenewDeleteAccess(current, t, prior)))
    case RenewDeleteAccess(current, t, prior) =>
      (db.(tokens := db.tokens - {prior.accessToken}), InRenew(RenewInsertRefresh(current, t, prior)))
    case RenewInsertRefresh(current, t, prior) =>
      if t.refreshTokenId in db.refreshTokens then (db, Done(Failed(IdTaken)))
      else (db.(refreshTokens := db.refreshTokens[t.refreshTokenId :=
                  RenewedRow(prior, t.refreshTokenId, t.id, now + FIVE_HOURS)]),
            Done(Renewed(t.id, t.refreshTokenId, t.expiration)))
  }

  function AdvanceRevoke(db: Tables, pc: RevokePc): (Tables, Pc) {
    match pc
    case RevokeLookup(token, client) =>
      if token !in db.tokens then (db, InRevoke(RevokeLoad(token, client)))
      else if db.tokens[token].applicationId != client then (db, Done(Failed(WrongClient)))
      else (db, InRevoke(RevokeDeleteAccess(token)))
    case RevokeDeleteAccess(token) =>
      (db.(tokens := db.tokens - {token}), Done(RevokedAccess))
    case RevokeLoad(token, client) =>
      if token !in db.refreshTokens then (db, Done(RevokedUnknown))
      else if db.refreshTokens[token].applicationId != client then (db, Done(Failed(WrongClient)))
      else (db, InRevoke(RevokeDeleteRefresh(db.refreshTokens[token])))
    case RevokeDeleteRefresh(prior) =>
      (db.(refreshTokens := db.refreshTokens - {prior.id}), InRevoke(RevokeDeletePartner(prior)))
    case RevokeDeletePartner(prior) =>
      (db.(tokens := db.tokens - {prior.accessToken}), Done(RevokedRefresh))
  }

  function RefreshTokensOf(db: Tables, user: string, client: string): set<string> {
    set r | r in db.refreshTokens && db.refreshTokens[r].userId == user && db.refreshTokens[r].applicationId == client
  }

  function AccessTokensOf(db: Tables, user: string, client: string): set<string> {
    set a | a in db.tokens && db.tokens[a].subject == user && db.tokens[a].applicationId == client
  }

  function AdvanceTerminate(db: Tables, pc: TerminatePc): (Tables, Pc) {
    match pc
    case TerminateRefresh(user, client) =>
      (db.(refreshTokens := db.refreshTokens - RefreshTokensOf(db, user, client)),
       InTerminate(TerminateAccess(user, client)))
    case TerminateAccess(user, client) =>
      (db.(tokens := db.tokens - AccessTokensOf(db, user, client)), Done(Terminated))
  }

  /** One SQL statement of the call's program, and the local computation after it. */
  function Advance(db: Tables, now: Time, pc: Pc): (Tables, Pc)
    requires CanMove(pc)
  {
    match pc
    case InAccess(p) => AdvanceAccess(db, p)
    case InIssue(p) => AdvanceIssue(db, now, p)
    case InRenew(p) => AdvanceRenew(db, now, p)
    case InRevoke(p) => AdvanceRevoke(db, p)
    case InTerminate(p) => AdvanceTerminate(db, p)
  }

  // ---------------------------------------------------------------------------------
  // The system: the tables, the clock, all calls ever made, and what has happened.

  /** What a login handed out: the content every refresh token descending from it must carry. */
  datatype Grant = Grant(
    user: string, client: string, audience: seq<string>, amr: seq<string>,
    authTime: Time, scopes: seq<string>)

  function GrantOf(request: TokenRequest): Grant {
    Grant(request.Subject(), request.Application(), request.Audience(), request.Amr(),
          request.AuthTime(), request.Scopes())
  }

  /** Record of an id drawn from the generator: by which call, and for what. A refresh token
      id remembers the first refresh token of its chain, an access token id its refresh token. */
  datatype Minted =
    | Refresh(owner: nat, access: string, root: string)
    | Access(owner: nat, refresh: string)

  datatype History = History(
    minted: map<string, Minted>,
    grants: map<string, Grant>,      // by the first refresh token of the chain
    inserted: set<string>,           // ids that were the key of a row at some time
    returned: set<string>)           // access tokens handed to a caller

  /** `mark` holds the ids already inserted when the call executed its first statement. */
  datatype Thread = Thread(call: Call, pc: Pc, mark: set<string>)

  datatype System = System(db: Tables, clock: Time, threads: map<nat, Thread>, history: History)

  datatype Label =
    | Start(t: nat, call: Call)
    | DrawIds(t: nat, refreshId: string, accessId: string)
    | Narrow(t: nat, scopes: seq<string>)                        // SetCurrentScopes
    | Move(t: nat)
    | Abandon(t: nat)                                            // the process dies during the call
    | Tick(now: Time)
    | Reconfigure(clients: map<string, Lifetimes>)

  function Init(): System {
    System(Tables(map[], map[], map[]), 0, map[], History(map[], map[], {}, {}))
  }

  /** Section 4.4 of RFC 4122: a drawn id was never drawn before. */
  predicate FreshIds(h: History, refreshId: string, accessId: string) {
    && refreshId !in h.minted && accessId !in h.minted
    && refreshId != accessId && refreshId != "" && accessId != ""
  }

  function Record(h: History, t: nat, pc: Pc, refreshId: string, accessId: string): History
    requires AwaitsIds(pc)
  {
    match pc
    case InAccess(_) => h.(minted := h.minted[accessId := Access(t, "")])
    case InIssue(IssueStart(req)) =>
      h.(minted := h.minted[accessId := Access(t, refreshId)][refreshId := Refresh(t, accessId, refreshId)],
         grants := h.grants[refreshId := GrantOf(req)])
    case InRenew(RenewLoaded(current, _)) =>
      var root := if current in h.minted && h.minted[current].Refresh? then h.minted[current].root else current;
      h.(minted := h.minted[accessId := Access(t, refreshId)][refreshId := Refresh(t, accessId, root)])
  }

  /** The access tokens in callers' hands once a call stands at pc. */
  function Returned(returned: set<string>, pc: Pc): set<string> {
    if pc.Done? && (pc.outcome.AccessIssued? || pc.outcome.Issued? || pc.outcome.Renewed?)
    then returned + {pc.outcome.access} else returned
  }

  /** The system once thread t has turned the tables into db and stands at pc. */
  function After(s: System, t: nat, db: Tables, pc: Pc): System
    requires t in s.threads
  {
    var th := s.threads[t];
    var mark := if AtEntry(th.pc) then s.history.inserted else th.mark;
    System(db, s.clock, s.threads[t := Thread(th.call, pc, mark)],
           s.history.(inserted := s.history.inserted + db.tokens.Keys + db.refreshTokens.Keys,
                      returned := Returned(s.history.returned, pc)))
  }

  function MoveThread(s: System, t: nat): System
    requires t in s.threads && CanMove(s.threads[t].pc)
  {
    var (db, pc) := Advance(s.db, s.clock, s.threads[t].pc);
    After(s, t, db, pc)
  }

  /** A label that is not enabled leaves the system as it is. */
  function Exec(s: System, l: Label): System {
    match l
    case Start(t, call) =>
      if t in s.threads then s else s.(threads := s.threads[t := Thread(call, Entry(call), {})])
    case DrawIds(t, refreshId, accessId) =>
      if t in s.threads && AwaitsIds(s.threads[t].pc) && FreshIds(s.history, refreshId, accessId) then
        var th := s.threads[t];
        s.(threads := s.threads[t := th.(pc := WithIds(th.pc, refreshId, accessId, s.clock))],
           history := Record(s.history, t, th.pc, refreshId, accessId))
      else s
    case Narrow(t, scopes) =>
      if t in s.threads && s.threads[t].pc.InRenew? && s.threads[t].pc.renew.RenewLoaded? then
        var th := s.threads[t];
        var row := th.pc.renew.loaded.(scopes := scopes);
        s.(threads := s.threads[t := th.(pc := InRenew(RenewLoaded(th.pc.renew.current, row)))])
      else s
    case Move(t) =>
      if t in s.threads && CanMove(s.threads[t].pc) then MoveThread(s, t) else s
    case Abandon(t) =>
      if t in s.threads && !s.threads[t].pc.Done? then
        s.(threads := s.threads[t := s.threads[t].(pc := Done(Abandoned))])
      else s
    case Tick(now) => if s.clock <= now then s.(clock := now) else s
    case Reconfigure(clients) => s.(db := s.db.(clients := clients))
  }

  function RunFrom(s: System, ls: seq<Label>): System {
    if ls == [] then s else Exec(RunFrom(s, ls[..|ls| - 1]), ls[|ls| - 1])
  }

  lemma {:induction false} RunAppend(s: System, a: seq<Label>, b: seq<Label>)
    ensures RunFrom(s, a + b) == RunFrom(RunFrom(s, a), b)
  {
    if b == [] {
      assert a + b == a;
    } else {
      RunAppend(s, a, b[..|b| - 1]);
      assert (a + b)[..|a + b| - 1] == a + b[..|b| - 1];
    }
  }

  lemma RunOne(s: System, l: Label)
    ensures RunFrom(s, [l]) == Exec(s, l)
  {
    assert RunFrom(s, [l][..0]) == s;
  }

  function Run(ls: seq<Label>): System {
    RunFrom(Init(), ls)
  }

  /** The first refresh token of r's chain. */
  function Root(h: History, r: string): string {
    if r in h.minted && h.minted[r].Refresh? then h.minted[r].root else r
  }
}
