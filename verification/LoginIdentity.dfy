/** Whose identity a completed request carries, when the storage methods do not overlap and nobody
    edits the accounts. */
module LoginIdentity {
  import opened Users
  import opened AuthRequests
  import opened LoginMachine
  import opened LoginSafety
  import opened LoginSerial

  /** Who a request says was authenticated, and how. */
  datatype Identity = Identity(subject: string, acr: string, amr: seq<string>)

  function IdentityIn(req: AuthRequest): Identity {
    Identity(req.userId, req.acr, req.Amr())
  }

  /** What tokens should say about an account. */
  function IdentityOf(u: User): Identity {
    Identity(if u.subject == "" then u.id else u.subject, u.acr, if u.amr == [] then ["pwd"] else u.amr)
  }

  /** The accounts are set once, at the start. */
  predicate AccountsFixed(ls: seq<Label>, users: UserTable) {
    && |ls| > 0 && ls[0] == Accounts(users)
    && forall i :: 1 <= i < |ls| ==> !ls[i].Accounts?
  }

  /** The request was completed for this user id, and is to carry this subject. */
  predicate Carries(users: UserTable, req: AuthRequest, user: string, subject: string) {
    && req.userId == subject
    && (user in users ==> req.acr == users[user].acr && req.amr == users[user].amr)
  }

  function SubjectOf(users: UserTable, user: string): string {
    if user in users then users[user].SubjectOrId() else user
  }

  /** The subject a request should carry, by what was saved for it. */
  function SavedSubject(h: History, users: UserTable, id: string): string
    requires id in h.completed
  {
    if id in h.chosen then h.chosen[id] else SubjectOf(users, h.completed[id])
  }

  predicate RowsCarry(s: System, users: UserTable) {
    && s.db.users == users
    && forall id :: id in s.db.requests && id in s.history.completed ==>
         Carries(users, s.db.requests[id], s.history.completed[id], SavedSubject(s.history, users, id))
  }

  /** The same for the copy in the hands of the one active method. */
  predicate CopyCarries(s: System, users: UserTable, th: Thread) {
    match th.pc
    case SetUserSave(req) =>
      req.id in s.db.requests && req.acr == s.db.requests[req.id].acr && req.amr == s.db.requests[req.id].amr
    case CompleteGetUser(req) => th.call.Complete? && req.userId == th.call.user
    case CompleteSave(req) => th.call.Complete? && Carries(users, req, th.call.user, SubjectOf(users, th.call.user))
    case _ => true
  }

  predicate IdentityInv(s: System, users: UserTable) {
    RowsCarry(s, users) && forall t :: t in s.threads ==> CopyCarries(s, users, s.threads[t])
  }

  lemma RowsCarryMove(s: System, users: UserTable, t: nat, drawn: string)
    requires RowsOk(s) && RowsCarry(s, users) && t in s.threads && CanMove(s.history, s.threads[t].pc, drawn)
    requires CopyCarries(s, users, s.threads[t]) && ActiveOk(s, s.threads[t].pc)
    ensures RowsCarry(MoveThread(s, t, drawn), users)
  {
  }

  lemma CopyCarriesMove(s: System, users: UserTable, t: nat, drawn: string)
    requires RowsOk(s) && RowsCarry(s, users) && t in s.threads && CanMove(s.history, s.threads[t].pc, drawn)
    requires CopyCarries(s, users, s.threads[t]) && LocalsOk(s.history, s.threads[t])
    ensures CopyCarries(MoveThread(s, t, drawn), users, MoveThread(s, t, drawn).threads[t])
  {
  }

  lemma IdentityMove(s: System, users: UserTable, t: nat, drawn: string)
    requires RowsOk(s) && IdentityInv(s, users) && OthersIdle(s, t)
    requires t in s.threads && CanMove(s.history, s.threads[t].pc, drawn)
    requires LocalsOk(s.history, s.threads[t]) && ActiveOk(s, s.threads[t].pc)
    ensures IdentityInv(MoveThread(s, t, drawn), users)
  {
    RowsCarryMove(s, users, t, drawn);
    CopyCarriesMove(s, users, t, drawn);
  }

  lemma IdentityStep(s: System, users: UserTable, l: Label)
    requires SerialInv(s) && IdentityInv(s, users) && (l.Move? ==> OthersIdle(s, l.t)) && !l.Accounts?
    ensures IdentityInv(Exec(s, l), users)
  {
    if l.Move? {
      if l.t in s.threads && CanMove(s.history, s.threads[l.t].pc, l.drawn) { IdentityMove(s, users, l.t, l.drawn); }
    } else {
      forall u | u in Exec(s, l).threads
        ensures CopyCarries(Exec(s, l), users, Exec(s, l).threads[u])
      {
        QuietIsQuiet(s, l, u);
        assert u in s.threads ==> CopyCarries(s, users, s.threads[u]);
      }
    }
  }

  lemma {:induction false} IdentityRun(ls: seq<Label>, users: UserTable)
    requires Serial(ls) && AccountsFixed(ls, users)
    ensures IdentityInv(Run(ls), users)
  {
    var front := ls[..|ls| - 1];
    if |ls| == 1 {
      assert ls == [ls[0]];
      RunOne(Init(), ls[0]);
    } else {
      IdentityRun(front, users);
      SerialRun(front);
      IdentityStep(Run(front), users, ls[|ls| - 1]);
    }
  }

  /** The user recorded last for the request, if any was recorded since it was completed, is the
      completing account's effective subject. */
  predicate StillChosen(h: History, users: UserTable, id: string)
    requires id in h.completed
  {
    id in h.chosen ==> h.chosen[id] == SubjectOf(users, h.completed[id])
  }

  /** A request that is done carries subject, acr and effective amr of the account it was last
      completed for, if and only if SetAuthRequestUser has not saved another user id over the
      account's effective subject since. */
  lemma DoneCarriesIdentityIff(ls: seq<Label>, users: UserTable, id: string)
    requires Serial(ls) && AccountsFixed(ls, users)
    requires id in Run(ls).db.requests && Run(ls).db.requests[id].done
    ensures var h := Run(ls).history; var req := Run(ls).db.requests[id];
      && id in h.completed
      && (req.userId == SubjectOf(users, h.completed[id]) <==> StillChosen(h, users, id))
      && (h.completed[id] in users ==>
            (IdentityIn(req) == IdentityOf(users[h.completed[id]]) <==> StillChosen(h, users, id)))
      && (h.completed[id] in users ==> var u := users[h.completed[id]];
            && req.acr == u.acr && req.Amr() == (if u.amr == [] then ["pwd"] else u.amr)
            && (id !in h.chosen ==> req.userId == if u.subject == "" then u.id else u.subject))
  {
    SerialRun(ls);
    IdentityRun(ls, users);
    var h := Run(ls).history;
    assert id in h.completed;
    assert Carries(users, Run(ls).db.requests[id], h.completed[id], SavedSubject(h, users, id));
  }
}
