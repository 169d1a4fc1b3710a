/** Runs in which overlapping methods undo a deletion and a completion: saveAuthRequest inserts or
    updates, and writes back the whole row that its caller loaded earlier. */
module LoginTraces {
  import opened AuthRequests
  import opened LoginMachine
  import opened LoginSafety

  lemma RunThree(s: System, a: seq<Label>, b: seq<Label>, c: seq<Label>)
    ensures RunFrom(s, a + b + c) == RunFrom(RunFrom(RunFrom(s, a), b), c)
  {
    RunAppend(s, a, b);
    RunAppend(s, a + b, c);
  }

  /** One move of a call past its draw, as far as tables and threads go. */
  lemma Moved(s: System, t: nat)
    requires t in s.threads && !s.threads[t].pc.Done? && !s.threads[t].pc.CreateDraw?
    ensures var s' := Exec(s, Move(t, "")); var next := Advance(s.db, s.clock, s.threads[t].pc, "");
      && s'.db == next.0 && s'.clock == s.clock
      && s'.threads == s.threads[t := Thread(s.threads[t].call, next.1)]
      && s'.history == Noted(s.history, s.clock, s.threads[t], "", next.1)
  {
  }

  /** The request that the runs below are about. */
  function Creation(incoming: IncomingRequest, id: string): seq<Label> {
    [Start(1, Create(incoming, "")), Move(1, id), Move(1, "")]
  }

  lemma CreatedIn(s: System, incoming: IncomingRequest, id: string)
    requires !MustNotPrompt(incoming) && s.threads == map[] && id !in s.history.sent
    ensures var s' := RunFrom(s, Creation(incoming, id));
      && s'.db == Upsert(s.db, FromIncoming(incoming, "", id, s.clock)) && s'.clock == s.clock
      && s'.threads.Keys == {1} && s'.threads[1].pc.Done?
      && s'.history == s.history.(sent := s.history.sent[id := Sent(incoming, "", s.clock)])
  {
    var s1 := Exec(s, Start(1, Create(incoming, "")));
    var s2 := Exec(s1, Move(1, id));
    var ls := Creation(incoming, id);
    assert ls[..2] == [ls[0], ls[1]] && ls[..2][..1] == [ls[0]];
    RunOne(s, ls[0]);
    assert RunFrom(s, ls[..2]) == s2;
    Moved(s2, 1);
  }

  lemma AfterCreation(incoming: IncomingRequest, id: string)
    requires !MustNotPrompt(incoming)
    ensures var s := RunFrom(Init(), Creation(incoming, id));
      && s.db == Tables(map[id := FromIncoming(incoming, "", id, 0)], map[], map[])
      && s.threads.Keys == {1} && s.threads[1].pc.Done?
      && s.history == History(map[id := Sent(incoming, "", 0)], {}, map[], map[], {})
  {
    CreatedIn(Init(), incoming, id);
  }

  /** CompleteAuthRequest loads, then looks the account up and writes. */
  lemma CompletionLoads(s: System, t: nat, id: string, user: string)
    requires t in s.threads && s.threads[t].pc == CompleteLoad(id, user) && id in s.db.requests
    ensures var s' := RunFrom(s, Moves(t, "", 1)); var req := s.db.requests[id].(done := true, authTime := s.clock, userId := user);
      && s'.db == s.db && s'.clock == s.clock && s'.history == s.history
      && s'.threads == s.threads[t := Thread(s.threads[t].call, CompleteGetUser(req))]
  {
    MovesOne(s, t, "", 0);
    Moved(s, t);
  }

  lemma CompletionWrites(s: System, t: nat, req: AuthRequest)
    requires t in s.threads && s.threads[t].pc == CompleteGetUser(req) && s.threads[t].call.Complete?
    ensures var s' := RunFrom(s, Moves(t, "", 2));
      && s'.db == Upsert(s.db, Stamped(req, Account(s.db.users, req.userId)))
      && s'.threads == s.threads[t := Thread(s.threads[t].call, Done(Saved))]
      && s'.history == s.history.(completed := s.history.completed[req.id := s.threads[t].call.user],
                                  chosen := s.history.chosen - {req.id})
  {
    MovesOne(s, t, "", 0);
    MovesOne(s, t, "", 1);
    Moved(s, t);
    Moved(Exec(s, Move(t, "")), t);
  }

  lemma Deletes(s: System, t: nat, id: string)
    requires t in s.threads && s.threads[t].pc == DeleteCodes(id) && id in s.history.sent
    ensures var s' := RunFrom(s, Moves(t, "", 2));
      && s'.db == s.db.(codes := s.db.codes - CodesOf(s.db, id), requests := s.db.requests - {id})
      && s'.threads == s.threads[t := Thread(s.threads[t].call, Done(Deleted))]
      && s'.history == s.history.(deleted := s.history.deleted + {id})
  {
    MovesOne(s, t, "", 0);
    MovesOne(s, t, "", 1);
    Moved(s, t);
    Moved(Exec(s, Move(t, "")), t);
  }

  lemma Started(s: System, t: nat, call: Call)
    requires t !in s.threads
    ensures var s' := RunFrom(s, [Start(t, call)]);
      s'.db == s.db && s'.clock == s.clock && s'.history == s.history && s'.threads == s.threads[t := Thread(call, Entry(call))]
  {
    RunOne(s, Start(t, call));
  }

  /** A completion that straddles the deletion of its request. */
  function CompletionLoaded(incoming: IncomingRequest, id: string, user: string): seq<Label> {
    Creation(incoming, id) + [Start(2, Complete(id, user))] + Moves(2, "", 1)
  }

  function CompletionBegun(incoming: IncomingRequest, id: string, user: string): seq<Label> {
    CompletionLoaded(incoming, id, user) + [Start(3, Delete(id))]
  }

  function Straddle(incoming: IncomingRequest, id: string, user: string): seq<Label> {
    CompletionBegun(incoming, id, user) + Moves(3, "", 2) + Moves(2, "", 2)
  }

  /** The completion has loaded its copy. */
  predicate HoldsCopy(s: System, id: string) {
    && 2 in s.threads && s.threads[2].call.Complete? && s.threads[2].pc.CompleteGetUser? && s.threads[2].pc.req.id == id
    && s.db.users == map[] && s.db.codes == map[] && id in s.history.sent
  }

  lemma Loaded(incoming: IncomingRequest, id: string, user: string)
    requires !MustNotPrompt(incoming)
    ensures var s := Run(CompletionLoaded(incoming, id, user)); s.threads.Keys == {1, 2} && HoldsCopy(s, id)
  {
    RunThree(Init(), Creation(incoming, id), [Start(2, Complete(id, user))], Moves(2, "", 1));
    AfterCreation(incoming, id);
    Started(Run(Creation(incoming, id)), 2, Complete(id, user));
    CompletionLoads(RunFrom(Run(Creation(incoming, id)), [Start(2, Complete(id, user))]), 2, id, user);
  }

  lemma Begun(incoming: IncomingRequest, id: string, user: string)
    requires !MustNotPrompt(incoming)
    ensures var s := Run(CompletionBegun(incoming, id, user));
      s.threads.Keys == {1, 2, 3} && s.threads[3] == Thread(Delete(id), DeleteCodes(id)) && HoldsCopy(s, id)
  {
    RunAppend(Init(), CompletionLoaded(incoming, id, user), [Start(3, Delete(id))]);
    Loaded(incoming, id, user);
    Started(Run(CompletionLoaded(incoming, id, user)), 3, Delete(id));
  }

  lemma Straddled(incoming: IncomingRequest, id: string, user: string)
    requires !MustNotPrompt(incoming)
    ensures var s := Run(Straddle(incoming, id, user));
      && s.threads.Keys == {1, 2, 3} && s.threads[3] == Thread(Delete(id), Done(Deleted)) && id in s.history.deleted
      && id in s.db.requests && s.db.requests[id].id == id && s.db.codes == map[]
  {
    var s1 := Run(CompletionBegun(incoming, id, user));
    var s2 := RunFrom(s1, Moves(3, "", 2));
    RunThree(Init(), CompletionBegun(incoming, id, user), Moves(3, "", 2), Moves(2, "", 2));
    Begun(incoming, id, user);
    Deletes(s1, 3, id);
    CompletionWrites(s2, 2, s1.threads[2].pc.req);
  }

  /** The deletion has returned, and still the row is back and a code saved afterwards redeems it:
      single use does not survive overlapping statements. */
  lemma CompletionUndoesDeletion(incoming: IncomingRequest, id: string, user: string, code: string)
    requires !MustNotPrompt(incoming)
    ensures var before := Run(Straddle(incoming, id, user));
      var s := RunFrom(before, [Start(4, SaveCode(id, code))] + Moves(4, "", 1) + [Start(5, ByCode(code))] + Moves(5, "", 2));
      && id in before.history.deleted && 5 !in before.threads
      && 5 in s.threads && !NotRedeemed(s, 5, id)
  {
    Straddled(incoming, id, user);
    var before := Run(Straddle(incoming, id, user));
    CodeSavedAndRedeemed(before, 4, 5, id, code);
  }

  /** A new code saved for a stored request redeems it. */
  lemma CodeSavedAndRedeemed(s: System, t: nat, u: nat, id: string, code: string)
    requires t !in s.threads && u !in s.threads && t != u && code !in s.db.codes && id in s.db.requests
    ensures var s' := RunFrom(s, [Start(t, SaveCode(id, code))] + Moves(t, "", 1) + [Start(u, ByCode(code))] + Moves(u, "", 2));
      u in s'.threads && s'.threads[u].pc == Done(Redeemed(s.db.requests[id]))
  {
    var save := [Start(t, SaveCode(id, code))] + Moves(t, "", 1);
    RunAppend(s, save, [Start(u, ByCode(code))]);
    RunAppend(s, save + [Start(u, ByCode(code))], Moves(u, "", 2));
    NewCode(s, t, id, code);
    NewLookup(RunFrom(s, save), u, code);
  }

  lemma NewCode(s: System, t: nat, id: string, code: string)
    requires t !in s.threads && code !in s.db.codes
    ensures var s' := RunFrom(s, [Start(t, SaveCode(id, code))] + Moves(t, "", 1));
      s'.db == s.db.(codes := s.db.codes[code := id]) && s'.threads.Keys == s.threads.Keys + {t}
  {
    RunAppend(s, [Start(t, SaveCode(id, code))], Moves(t, "", 1));
    Started(s, t, SaveCode(id, code));
    CodeInserted(RunFrom(s, [Start(t, SaveCode(id, code))]), t, id, code);
  }

  lemma NewLookup(s: System, u: nat, code: string)
    requires u !in s.threads && code in s.db.codes && s.db.codes[code] in s.db.requests
    ensures var s' := RunFrom(RunFrom(s, [Start(u, ByCode(code))]), Moves(u, "", 2));
      u in s'.threads && s'.threads[u].pc == Done(Redeemed(s.db.requests[s.db.codes[code]]))
  {
    Started(s, u, ByCode(code));
    CodeRedeems(RunFrom(s, [Start(u, ByCode(code))]), u, code);
  }

  lemma CodeInserted(s: System, t: nat, id: string, code: string)
    requires t in s.threads && s.threads[t].pc == SaveCodeInsert(id, code) && code !in s.db.codes
    ensures var s' := RunFrom(s, Moves(t, "", 1));
      s'.db == s.db.(codes := s.db.codes[code := id]) && s'.threads.Keys == s.threads.Keys
  {
    MovesOne(s, t, "", 0);
    Moved(s, t);
  }

  lemma CodeRedeems(s: System, t: nat, code: string)
    requires t in s.threads && s.threads[t].pc == CodeLookup(code) && code in s.db.codes && s.db.codes[code] in s.db.requests
    ensures var s' := RunFrom(s, Moves(t, "", 2));
      t in s'.threads && s'.threads[t].pc == Done(Redeemed(s.db.requests[s.db.codes[code]]))
  {
    MovesOne(s, t, "", 0);
    MovesOne(s, t, "", 1);
    Moved(s, t);
    Moved(Exec(s, Move(t, "")), t);
  }

  /** SetAuthRequestUser loads before a completion and saves after it. */
  function Stale(incoming: IncomingRequest, id: string, user: string): seq<Label> {
    Creation(incoming, id) + [Start(2, SetUser(id, user))] + Moves(2, "", 1)
    + [Start(3, Complete(id, user))] + Moves(3, "", 1) + Moves(3, "", 2)
  }

  lemma StaleSaveUnsetsDone(incoming: IncomingRequest, id: string, user: string)
    requires !MustNotPrompt(incoming)
    ensures var before := Run(Stale(incoming, id, user)); var s := RunFrom(before, Moves(2, "", 1));
      && id in before.db.requests && before.db.requests[id].done && id in before.history.completed
      && id in s.db.requests && !s.db.requests[id].done
  {
    var a := Creation(incoming, id);
    var b := a + [Start(2, SetUser(id, user))];
    var c := b + Moves(2, "", 1);
    var d := c + [Start(3, Complete(id, user))];
    var e := d + Moves(3, "", 1);
    RunAppend(Init(), a, [Start(2, SetUser(id, user))]);
    RunAppend(Init(), b, Moves(2, "", 1));
    RunAppend(Init(), c, [Start(3, Complete(id, user))]);
    RunAppend(Init(), d, Moves(3, "", 1));
    RunAppend(Init(), e, Moves(3, "", 2));
    AfterCreation(incoming, id);
    Started(Run(a), 2, SetUser(id, user));
    MovesOne(Run(b), 2, "", 0);
    Moved(Run(b), 2);
    Started(Run(c), 3, Complete(id, user));
    CompletionLoads(Run(d), 3, id, user);
    CompletionWrites(Run(e), 3, Run(e).threads[3].pc.req);
    var before := Run(Stale(incoming, id, user));
    MovesOne(before, 2, "", 0);
    Moved(before, 2);
  }
}
