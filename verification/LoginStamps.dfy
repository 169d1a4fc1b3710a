/** Whose identity a completed request carries in every interleaving, nobody editing the accounts: where
    the acr and amr of the stored request come from. */
module LoginStamps {
  import opened Prelude
  import opened Users
  import opened AuthRequests
  import opened LoginMachine
  import opened LoginSafety
  import opened LoginOverlap
  import opened LoginIdentity
  import opened LoginTraces

  /** The account that stamped acr and amr of each stored request and of each call's copy, if any did:
      a load passes the stamp to the copy, finding an account for a completion replaces it, and a save
      passes it back. */
  datatype Trail = Trail(stamps: map<string, Option<string>>, copies: map<nat, Option<string>>)

  function StampOf(tr: Trail, id: string): Option<string> {
    if id in tr.stamps then tr.stamps[id] else None
  }

  function CopyOf(tr: Trail, t: nat): Option<string> {
    if t in tr.copies then tr.copies[t] else None
  }

  function Follow(tr: Trail, users: UserTable, t: nat, pc: Pc): Trail {
    match pc
    case SetUserLoad(id, _) => tr.(copies := tr.copies[t := StampOf(tr, id)])
    case CompleteLoad(id, _) => tr.(copies := tr.copies[t := StampOf(tr, id)])
    case CompleteGetUser(req) => if req.userId in users then tr.(copies := tr.copies[t := Some(req.userId)]) else tr
    case CreateSave(req) => tr.(stamps := tr.stamps[req.id := CopyOf(tr, t)])
    case SetUserSave(req) => tr.(stamps := tr.stamps[req.id := CopyOf(tr, t)])
    case CompleteSave(req) => tr.(stamps := tr.stamps[req.id := CopyOf(tr, t)])
    case _ => tr
  }

  function TrailAfter(tr: Trail, s: System, l: Label): Trail {
    if l.Move? && l.t in s.threads && CanMove(s.history, s.threads[l.t].pc, l.drawn)
    then Follow(tr, s.db.users, l.t, s.threads[l.t].pc) else tr
  }

  function TrailOf(ls: seq<Label>): Trail {
    if ls == [] then Trail(map[], map[])
    else TrailAfter(TrailOf(ls[..|ls| - 1]), Run(ls[..|ls| - 1]), ls[|ls| - 1])
  }

  // ---- What every step keeps ----------------------------------------------------------------------------

  predicate StampedBy(users: UserTable, req: AuthRequest, stamp: Option<string>) {
    match stamp
    case None => req.acr == "" && req.amr == []
    case Some(x) => x in users && req.acr == users[x].acr && req.amr == users[x].amr
  }

  predicate RowStamped(s: System, users: UserTable, tr: Trail, id: string)
    requires id in s.db.requests
  {
    && StampedBy(users, s.db.requests[id], StampOf(tr, id))
    && (id in s.history.completed ==>
          && s.db.requests[id].userId == SavedSubject(s.history, users, id)
          && (id !in s.history.chosen && s.history.completed[id] in users ==> StampOf(tr, id) == Some(s.history.completed[id])))
  }

  predicate RowsStamped(s: System, users: UserTable, tr: Trail) {
    s.db.users == users && forall id :: id in s.db.requests ==> RowStamped(s, users, tr, id)
  }

  predicate CopyStamped(s: System, users: UserTable, tr: Trail, t: nat)
    requires t in s.threads
  {
    var th := s.threads[t];
    match th.pc
    case CreateDraw(_, _) => CopyOf(tr, t) == None
    case CreateSave(req) => CopyOf(tr, t) == None && req.acr == "" && req.amr == [] && req.id !in s.history.completed
    case SetUserSave(req) => StampedBy(users, req, CopyOf(tr, t))
    case CompleteGetUser(req) => StampedBy(users, req, CopyOf(tr, t)) && th.call.Complete? && req.userId == th.call.user
    case CompleteSave(req) =>
      && StampedBy(users, req, CopyOf(tr, t)) && th.call.Complete? && req.userId == SubjectOf(users, th.call.user)
      && (th.call.user in users ==> CopyOf(tr, t) == Some(th.call.user))
    case _ => true
  }

  predicate StampInv(s: System, users: UserTable, tr: Trail) {
    && RowsStamped(s, users, tr)
    && (forall t :: t in s.threads ==> CopyStamped(s, users, tr, t))
    && (forall t :: t in tr.copies ==> t in s.threads)
    && s.history.completed.Keys <= s.history.sent.Keys
  }

  /** The call's next statement writes its copy of the request. */
  predicate Saves(pc: Pc, id: string) {
    Writes(pc, id) && !pc.CompleteGetUser?
  }

  lemma UntouchedFacts(s: System, t: nat, drawn: string, id: string)
    requires t in s.threads && !Saves(s.threads[t].pc, id) && id in MoveThread(s, t, drawn).db.requests
    ensures var s' := MoveThread(s, t, drawn);
      && id in s.db.requests && s'.db.requests[id] == s.db.requests[id]
      && (id in s'.history.completed <==> id in s.history.completed)
      && (id in s.history.completed ==> s'.history.completed[id] == s.history.completed[id])
      && (id in s'.history.chosen <==> id in s.history.chosen)
      && (id in s.history.chosen ==> s'.history.chosen[id] == s.history.chosen[id])
  {
  }

  lemma UntouchedStamp(tr: Trail, users: UserTable, t: nat, pc: Pc, id: string)
    requires !Saves(pc, id)
    ensures StampOf(Follow(tr, users, t, pc), id) == StampOf(tr, id)
  {
  }

  lemma RowUntouched(s: System, users: UserTable, tr: Trail, t: nat, drawn: string, id: string)
    requires t in s.threads && !Saves(s.threads[t].pc, id) && id in MoveThread(s, t, drawn).db.requests
    requires id in s.db.requests ==> RowStamped(s, users, tr, id)
    ensures RowStamped(MoveThread(s, t, drawn), users, Follow(tr, users, t, s.threads[t].pc), id)
  {
    UntouchedFacts(s, t, drawn, id);
    UntouchedStamp(tr, users, t, s.threads[t].pc, id);
  }

  lemma RowSaved(s: System, users: UserTable, tr: Trail, t: nat, drawn: string)
    requires t in s.threads && CopyStamped(s, users, tr, t) && (s.threads[t].pc.CreateSave? || s.threads[t].pc.SetUserSave?)
    ensures var s' := MoveThread(s, t, drawn); var id := s.threads[t].pc.req.id;
      id in s'.db.requests && RowStamped(s', users, Follow(tr, users, t, s.threads[t].pc), id)
  {
  }

  lemma RowCompleted(s: System, users: UserTable, tr: Trail, t: nat, drawn: string)
    requires t in s.threads && CopyStamped(s, users, tr, t) && s.threads[t].pc.CompleteSave?
    ensures var s' := MoveThread(s, t, drawn); var id := s.threads[t].pc.req.id;
      id in s'.db.requests && RowStamped(s', users, Follow(tr, users, t, s.threads[t].pc), id)
  {
  }

  lemma RowsMove(s: System, users: UserTable, tr: Trail, t: nat, drawn: string, id: string)
    requires RowsStamped(s, users, tr) && t in s.threads && CopyStamped(s, users, tr, t)
    requires id in MoveThread(s, t, drawn).db.requests
    ensures RowStamped(MoveThread(s, t, drawn), users, Follow(tr, users, t, s.threads[t].pc), id)
  {
    if !Saves(s.threads[t].pc, id) {
      RowUntouched(s, users, tr, t, drawn, id);
    } else if s.threads[t].pc.CompleteSave? {
      RowCompleted(s, users, tr, t, drawn);
    } else {
      RowSaved(s, users, tr, t, drawn);
    }
  }

  lemma MoverStamped(s: System, users: UserTable, tr: Trail, t: nat, drawn: string)
    requires RowsStamped(s, users, tr) && t in s.threads && CopyStamped(s, users, tr, t)
    requires LocalsOk(s.history, s.threads[t]) && CanMove(s.history, s.threads[t].pc, drawn)
    requires s.history.completed.Keys <= s.history.sent.Keys
    ensures CopyStamped(MoveThread(s, t, drawn), users, Follow(tr, users, t, s.threads[t].pc), t)
  {
    var pc := s.threads[t].pc;
    if pc.SetUserLoad? || pc.CompleteLoad? {
      assert pc.id in s.db.requests ==> RowStamped(s, users, tr, pc.id);
    }
  }

  /** Completions do not reach a request that is only being created. */
  lemma OtherStamped(s: System, users: UserTable, tr: Trail, t: nat, drawn: string, u: nat)
    requires t in s.threads && u in s.threads && u != t && CopyStamped(s, users, tr, u) && CopyOk(s, u)
    requires CanMove(s.history, s.threads[t].pc, drawn)
    ensures CopyStamped(MoveThread(s, t, drawn), users, Follow(tr, users, t, s.threads[t].pc), u)
  {
    assert s.threads[u].pc.CreateSave? ==> !Writes(s.threads[t].pc, s.threads[u].pc.req.id);
  }

  lemma CompletedWasSent(s: System, t: nat, drawn: string)
    requires t in s.threads && LocalsOk(s.history, s.threads[t]) && CanMove(s.history, s.threads[t].pc, drawn)
    requires s.history.completed.Keys <= s.history.sent.Keys
    ensures var h := MoveThread(s, t, drawn).history; h.completed.Keys <= h.sent.Keys
  {
  }

  lemma StampMove(s: System, users: UserTable, tr: Trail, t: nat, drawn: string)
    requires Inv(s) && CopiesOk(s) && StampInv(s, users, tr)
    requires t in s.threads && CanMove(s.history, s.threads[t].pc, drawn)
    ensures StampInv(MoveThread(s, t, drawn), users, Follow(tr, users, t, s.threads[t].pc))
  {
    var s' := MoveThread(s, t, drawn);
    var tr' := Follow(tr, users, t, s.threads[t].pc);
    CompletedWasSent(s, t, drawn);
    forall id | id in s'.db.requests
      ensures RowStamped(s', users, tr', id)
    {
      RowsMove(s, users, tr, t, drawn, id);
    }
    forall u | u in s'.threads
      ensures CopyStamped(s', users, tr', u)
    {
      if u == t { MoverStamped(s, users, tr, t, drawn); } else { assert CopyOk(s, u); OtherStamped(s, users, tr, t, drawn, u); }
    }
  }

  lemma StampQuiet(s: System, users: UserTable, tr: Trail, l: Label)
    requires StampInv(s, users, tr) && !l.Move? && !l.Accounts?
    ensures StampInv(Exec(s, l), users, tr)
  {
    var s' := Exec(s, l);
    forall id | id in s'.db.requests
      ensures RowStamped(s', users, tr, id)
    {
      assert RowStamped(s, users, tr, id);
    }
    forall u | u in s'.threads
      ensures CopyStamped(s', users, tr, u)
    {
      assert u in s.threads ==> CopyStamped(s, users, tr, u);
    }
  }

  lemma {:induction false} StampRun(ls: seq<Label>, users: UserTable)
    requires AccountsFixed(ls, users)
    ensures StampInv(Run(ls), users, TrailOf(ls))
  {
    var front := ls[..|ls| - 1];
    var l := ls[|ls| - 1];
    if |ls| == 1 {
      assert ls == [ls[0]];
      RunOne(Init(), ls[0]);
      assert TrailOf(front) == Trail(map[], map[]);
    } else {
      StampRun(front, users);
      RunFromKeeps(Init(), front);
      CopiesRun(front);
      if !l.Move? {
        StampQuiet(Run(front), users, TrailOf(front), l);
      } else if l.t in Run(front).threads && CanMove(Run(front).history, Run(front).threads[l.t].pc, l.drawn) {
        StampMove(Run(front), users, TrailOf(front), l.t, l.drawn);
      }
    }
  }

  // ---- The identity --------------------------------------------------------------------------------------

  /** acr and effective amr as stamped, with this subject. */
  function StampedIdentity(users: UserTable, stamp: Option<string>, subject: string): Identity {
    match stamp
    case None => Identity(subject, "", ["pwd"])
    case Some(x) => if x in users then IdentityOf(users[x]).(subject := subject) else Identity(subject, "", ["pwd"])
  }

  /** In every interleaving: a request that is done has the subject saved last, and acr and amr of the
      account that stamped them. So it carries the identity of the account it was last completed for if
      and only if SetAuthRequestUser did not last save another subject since, and the stamp says the
      same acr and amr as that account; both hold if SetAuthRequestUser saved nothing since. */
  lemma DoneCarriesStampIff(ls: seq<Label>, users: UserTable, id: string)
    requires AccountsFixed(ls, users) && id in Run(ls).db.requests && Run(ls).db.requests[id].done
    ensures var h := Run(ls).history; var req := Run(ls).db.requests[id]; var stamp := StampOf(TrailOf(ls), id);
      && id in h.completed
      && IdentityIn(req) == StampedIdentity(users, stamp, SavedSubject(h, users, id))
      && (h.completed[id] in users ==>
            var sub := SubjectOf(users, h.completed[id]); var account := IdentityOf(users[h.completed[id]]);
            && (IdentityIn(req) == account <==> StillChosen(h, users, id) && StampedIdentity(users, stamp, sub) == account)
            && (id !in h.chosen ==> IdentityIn(req) == account))
  {
    RunFromKeeps(Init(), ls);
    StampRun(ls, users);
    assert RowStamped(Run(ls), users, TrailOf(ls), id);
  }

  // ---- A run in which the stamp is another account's --------------------------------------------------

  lemma CompletionParts(s: System, t: nat, id: string, x: string)
    ensures RunFrom(s, [Start(t, Complete(id, x))] + Moves(t, "", 3))
      == RunFrom(RunFrom(RunFrom(s, [Start(t, Complete(id, x))]), Moves(t, "", 1)), Moves(t, "", 2))
  {
    RunThree(s, [Start(t, Complete(id, x))], Moves(t, "", 1), Moves(t, "", 2));
    assert [Start(t, Complete(id, x))] + Moves(t, "", 1) + Moves(t, "", 2) == [Start(t, Complete(id, x))] + Moves(t, "", 3);
  }

  function Marked(req: AuthRequest, user: string, now: Time): AuthRequest {
    req.(done := true, authTime := now, userId := user)
  }

  lemma CompletionBegins(s: System, t: nat, id: string, x: string)
    requires t !in s.threads && id in s.db.requests
    ensures var s' := RunFrom(RunFrom(s, [Start(t, Complete(id, x))]), Moves(t, "", 1));
      && s'.db == s.db && s'.history == s.history
      && s'.threads == s.threads[t := Thread(Complete(id, x), CompleteGetUser(Marked(s.db.requests[id], x, s.clock)))]
  {
    Started(s, t, Complete(id, x));
    CompletionLoads(RunFrom(s, [Start(t, Complete(id, x))]), t, id, x);
  }

  lemma CompletesAs(s: System, t: nat, id: string, x: string)
    requires t !in s.threads && id in s.db.requests && s.db.requests[id].id == id && x in s.db.users
    ensures var s' := RunFrom(s, [Start(t, Complete(id, x))] + Moves(t, "", 3));
      && s'.db == Upsert(s.db, Stamped(Marked(s.db.requests[id], x, s.clock), Some(s.db.users[x])))
      && s'.threads == s.threads[t := Thread(Complete(id, x), Done(Saved))]
      && s'.history == s.history.(completed := s.history.completed[id := x], chosen := s.history.chosen - {id})
  {
    CompletionParts(s, t, id, x);
    CompletionBegins(s, t, id, x);
    CompletionWrites(RunFrom(RunFrom(s, [Start(t, Complete(id, x))]), Moves(t, "", 1)), t, Marked(s.db.requests[id], x, s.clock));
  }

  lemma SetUserLoads(s: System, t: nat, id: string, user: string)
    requires t !in s.threads && id in s.db.requests
    ensures var s' := RunFrom(s, [Start(t, SetUser(id, user))] + Moves(t, "", 1));
      && s'.db == s.db && s'.history == s.history
      && s'.threads == s.threads[t := Thread(SetUser(id, user), SetUserSave(s.db.requests[id].(userId := user)))]
  {
    RunAppend(s, [Start(t, SetUser(id, user))], Moves(t, "", 1));
    RunOne(s, Start(t, SetUser(id, user)));
    MovesOne(Exec(s, Start(t, SetUser(id, user))), t, "", 0);
    Moved(Exec(s, Start(t, SetUser(id, user))), t);
  }

  lemma SetUserSaves(s: System, t: nat, req: AuthRequest)
    requires t in s.threads && s.threads[t].pc == SetUserSave(req)
    ensures var s' := RunFrom(s, Moves(t, "", 1));
      s'.db == Upsert(s.db, req) && s'.history == s.history.(chosen := s.history.chosen[req.id := req.userId])
  {
    MovesOne(s, t, "", 0);
    Moved(s, t);
  }

  /** A completion for a; SetAuthRequestUser loads, with b's subject; a completion for b; the save. */
  function CompletedTwice(id: string, a: string, b: string, subject: string): seq<Label> {
    ([Start(2, Complete(id, a))] + Moves(2, "", 3)) + (([Start(3, SetUser(id, subject))] + Moves(3, "", 1))
    + (([Start(4, Complete(id, b))] + Moves(4, "", 3)) + Moves(3, "", 1)))
  }

  function Mixed(users: UserTable, incoming: IncomingRequest, id: string, a: string, b: string, subject: string): seq<Label> {
    [Accounts(users)] + (Creation(incoming, id) + CompletedTwice(id, a, b, subject))
  }

  lemma AfterCompletedTwice(s: System, id: string, a: string, b: string, subject: string)
    requires s.threads.Keys == {1} && id in s.db.requests && s.db.requests[id].id == id && a in s.db.users && b in s.db.users
    ensures var s' := RunFrom(s, CompletedTwice(id, a, b, subject)); var u := s.db.users[a];
      && id in s'.db.requests && s'.db.requests[id].done && s'.db.requests[id].userId == subject
      && s'.db.requests[id].acr == u.acr && s'.db.requests[id].amr == u.amr
      && id in s'.history.completed && s'.history.completed[id] == b
      && id in s'.history.chosen && s'.history.chosen[id] == subject
  {
    var first := [Start(2, Complete(id, a))] + Moves(2, "", 3);
    var load := [Start(3, SetUser(id, subject))] + Moves(3, "", 1);
    var second := [Start(4, Complete(id, b))] + Moves(4, "", 3);
    var s1 := RunFrom(s, first);
    var s2 := RunFrom(s1, load);
    var s3 := RunFrom(s2, second);
    RunAppend(s, first, load + (second + Moves(3, "", 1)));
    RunAppend(s1, load, second + Moves(3, "", 1));
    RunAppend(s2, second, Moves(3, "", 1));
    CompletesAs(s, 2, id, a);
    SetUserLoads(s1, 3, id, subject);
    CompletesAs(s2, 4, id, b);
    SetUserSaves(s3, 3, s1.db.requests[id].(userId := subject));
  }

  /** Between statements the subject saved last is not enough: the request was last completed for b and
      carries b's subject, with the acr and amr of a. */
  lemma StaleSaveMixesAccounts(users: UserTable, incoming: IncomingRequest, id: string, a: string, b: string)
    requires !MustNotPrompt(incoming) && a in users && b in users
    ensures var ls := Mixed(users, incoming, id, a, b, SubjectOf(users, b)); var s := Run(ls);
      && AccountsFixed(ls, users) && id in s.db.requests && s.db.requests[id].done
      && id in s.history.completed && s.history.completed[id] == b && StillChosen(s.history, users, id)
      && IdentityIn(s.db.requests[id]) == IdentityOf(users[a]).(subject := SubjectOf(users, b))
  {
    var subject := SubjectOf(users, b);
    var s0 := Exec(Init(), Accounts(users));
    var s1 := RunFrom(s0, Creation(incoming, id));
    RunAppend(Init(), [Accounts(users)], Creation(incoming, id) + CompletedTwice(id, a, b, subject));
    RunOne(Init(), Accounts(users));
    RunAppend(s0, Creation(incoming, id), CompletedTwice(id, a, b, subject));
    CreatedIn(s0, incoming, id);
    AfterCompletedTwice(s1, id, a, b, subject);
    MixedKeepsAccounts(users, incoming, id, a, b, subject);
  }

  lemma MixedKeepsAccounts(users: UserTable, incoming: IncomingRequest, id: string, a: string, b: string, subject: string)
    ensures AccountsFixed(Mixed(users, incoming, id, a, b, subject), users)
  {
  }
}
