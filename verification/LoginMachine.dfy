/** Authorization requests and codes (internal/storage/storage.go): the methods as programs over
    the tables, one SQL statement per step, run by any number of callers in any interleaving. */
module LoginMachine {
  import opened Prelude
  import opened Users
  import opened AuthRequests

  datatype Tables = Tables(requests: map<string, AuthRequest>, codes: map<string, string>, users: UserTable)

  datatype Call =
    | Create(incoming: IncomingRequest, userId: string)    // CreateAuthRequest
    | SetUser(id: string, user: string)                    // SetAuthRequestUser
    | Complete(id: string, user: string)                   // CompleteAuthRequest
    | SaveCode(id: string, code: string)                   // SaveAuthCode
    | Delete(id: string)                                   // DeleteAuthRequest
    | ByCode(code: string)                                 // AuthRequestByCode

  datatype Outcome =
    | Created(req: AuthRequest)
    | LoginRequired
    | Saved
    | CodeSaved
    | CodeTaken
    | Deleted
    | Redeemed(req: AuthRequest)
    | CodeInvalid
    | NotFound
    | Abandoned

  /** The next statement of a call, with its local variables. */
  datatype Pc =
    | CreateDraw(incoming: IncomingRequest, userId: string)
    | CreateSave(req: AuthRequest)
    | SetUserLoad(id: string, user: string)
    | SetUserSave(req: AuthRequest)
    | CompleteLoad(id: string, user: string)
    | CompleteGetUser(req: AuthRequest)
    | CompleteSave(req: AuthRequest)
    | SaveCodeInsert(id: string, code: string)
    | DeleteCodes(id: string)
    | DeleteRow(id: string)
    | CodeLookup(code: string)
    | CodeLoad(id: string)
    | Done(outcome: Outcome)

  /** prompt=none cannot be satisfied: nobody is ever signed in beforehand. */
  predicate MustNotPrompt(incoming: IncomingRequest) {
    |incoming.prompt| == 1 && incoming.prompt[0] == "none"
  }

  function Entry(call: Call): Pc {
    match call
    case Create(incoming, userId) =>
      if MustNotPrompt(incoming) then Done(LoginRequired) else CreateDraw(incoming, userId)
    case SetUser(id, user) => SetUserLoad(id, user)
    case Complete(id, user) => CompleteLoad(id, user)
    case SaveCode(id, code) => SaveCodeInsert(id, code)
    case Delete(id) => DeleteCodes(id)
    case ByCode(code) => CodeLookup(code)
  }

  /** saveAuthRequest: insert, or update the row that has this id. */
  function Upsert(db: Tables, req: AuthRequest): Tables {
    db.(requests := db.requests[req.id := req])
  }

  function CodesOf(db: Tables, id: string): set<string> {
    set c | c in db.codes && db.codes[c] == id
  }

  /** The account found for the user id replaces it by the subject and stamps acr and amr. */
  function Stamped(req: AuthRequest, account: Option<User>): AuthRequest {
    match account
    case None => req
    case Some(u) => req.(userId := u.SubjectOrId(), acr := u.acr, amr := u.amr)
  }

  function Account(users: UserTable, id: string): Option<User> {
    if id in users then Some(users[id]) else None
  }

  /** One statement and the local computation after it; `drawn` is the id taken by a creation. */
  function Advance(db: Tables, now: Time, pc: Pc, drawn: string): (Tables, Pc) {
    match pc
    case CreateDraw(incoming, userId) => (db, CreateSave(FromIncoming(incoming, userId, drawn, now)))
    case CreateSave(req) => (Upsert(db, req), Done(Created(req)))
    case SetUserLoad(id, user) =>
      (db, if id in db.requests then SetUserSave(db.requests[id].(userId := user)) else Done(NotFound))
    case SetUserSave(req) => (Upsert(db, req), Done(Saved))
    case CompleteLoad(id, user) =>
      (db, if id in db.requests then CompleteGetUser(db.requests[id].(done := true, authTime := now, userId := user))
           else Done(NotFound))
    case CompleteGetUser(req) => (db, CompleteSave(Stamped(req, Account(db.users, req.userId))))
    case CompleteSave(req) => (Upsert(db, req), Done(Saved))
    case SaveCodeInsert(id, code) =>
      if code in db.codes then (db, Done(CodeTaken)) else (db.(codes := db.codes[code := id]), Done(CodeSaved))
    case DeleteCodes(id) => (db.(codes := db.codes - CodesOf(db, id)), DeleteRow(id))
    case DeleteRow(id) => (db.(requests := db.requests - {id}), Done(Deleted))
    case CodeLookup(code) => (db, if code in db.codes then CodeLoad(db.codes[code]) else Done(CodeInvalid))
    case CodeLoad(id) => (db, Done(if id in db.requests then Redeemed(db.requests[id]) else NotFound))
    case Done(_) => (db, pc)
  }

  // ---- The system -----------------------------------------------------------------------------------

  datatype Sent = Sent(incoming: IncomingRequest, userId: string, at: Time)

  function Original(sent: Sent, id: string): AuthRequest {
    FromIncoming(sent.incoming, sent.userId, id, sent.at)
  }

  /** What was sent for each id drawn; which codes were saved for which id; the user that the last
      saved completion was for; the user that SetAuthRequestUser saved last since then; the drawn
      ids that a deletion ran for. */
  datatype History = History(
    sent: map<string, Sent>, saved: set<(string, string)>, completed: map<string, string>,
    chosen: map<string, string>, deleted: set<string>)

  datatype Thread = Thread(call: Call, pc: Pc)

  datatype System = System(db: Tables, clock: Time, threads: map<nat, Thread>, history: History)

  datatype Label =
    | Start(t: nat, call: Call)
    | Move(t: nat, drawn: string)
    | Abandon(t: nat)                     // the process dies during the call
    | Tick(now: Time)
    | Accounts(users: UserTable)          // an administrator edits the users

  function Init(): System {
    System(Tables(map[], map[], map[]), 0, map[], History(map[], {}, map[], map[], {}))
  }

  /** Section 4.4 of RFC 4122: a drawn id was never drawn before. */
  predicate CanMove(h: History, pc: Pc, drawn: string) {
    !pc.Done? && (pc.CreateDraw? ==> drawn !in h.sent)
  }

  function Noted(h: History, now: Time, th: Thread, drawn: string, pc': Pc): History {
    match th.pc
    case CreateDraw(incoming, userId) => h.(sent := h.sent[drawn := Sent(incoming, userId, now)])
    case SetUserSave(req) => h.(chosen := h.chosen[req.id := req.userId])
    case CompleteSave(req) =>
      if th.call.Complete? then h.(completed := h.completed[req.id := th.call.user], chosen := h.chosen - {req.id}) else h
    case SaveCodeInsert(id, code) => if pc' == Done(CodeSaved) then h.(saved := h.saved + {(code, id)}) else h
    case DeleteRow(id) => if id in h.sent then h.(deleted := h.deleted + {id}) else h
    case _ => h
  }

  function MoveThread(s: System, t: nat, drawn: string): System
    requires t in s.threads
  {
    var th := s.threads[t];
    var (db, pc) := Advance(s.db, s.clock, th.pc, drawn);
    System(db, s.clock, s.threads[t := Thread(th.call, pc)], Noted(s.history, s.clock, th, drawn, pc))
  }

  function Exec(s: System, l: Label): System {
    match l
    case Start(t, call) =>
      if t in s.threads then s else s.(threads := s.threads[t := Thread(call, Entry(call))])
    case Move(t, drawn) =>
      if t in s.threads && CanMove(s.history, s.threads[t].pc, drawn) then MoveThread(s, t, drawn) else s
    case Abandon(t) =>
      if t in s.threads && !s.threads[t].pc.Done? then
        s.(threads := s.threads[t := s.threads[t].(pc := Done(Abandoned))])
      else s
    case Tick(now) => if s.clock <= now then s.(clock := now) else s
    case Accounts(users) => s.(db := s.db.(users := users))
  }

  function RunFrom(s: System, ls: seq<Label>): System {
    if ls == [] then s else Exec(RunFrom(s, ls[..|ls| - 1]), ls[|ls| - 1])
  }

  function Run(ls: seq<Label>): System {
    RunFrom(Init(), ls)
  }

  lemma RunOne(s: System, l: Label)
    ensures RunFrom(s, [l]) == Exec(s, l)
  {
    assert RunFrom(s, [l][..0]) == s;
  }

  lemma {:induction false} RunAppend(s: System, a: seq<Label>, b: seq<Label>)
    ensures RunFrom(s, a + b) == RunFrom(RunFrom(s, a), b)
  {
    if b == [] {
      assert a + b == a;
    } else {
      RunAppend(s, a, b[..|b| - 1]);
      assert (a + b)[..|a + b| - 1] == a + b[..|b| - 1];
    }
  }

  /** Thread t makes n moves, drawing the given id if it creates a request. */
  function Moves(t: nat, drawn: string, n: nat): seq<Label> {
    seq(n, _ => Move(t, drawn))
  }

  lemma MovesOne(s: System, t: nat, drawn: string, n: nat)
    ensures RunFrom(s, Moves(t, drawn, n + 1)) == Exec(RunFrom(s, Moves(t, drawn, n)), Move(t, drawn))
  {
    assert Moves(t, drawn, n + 1)[..n] == Moves(t, drawn, n);
  }
}
