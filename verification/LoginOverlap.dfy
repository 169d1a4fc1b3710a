/** Exactly when a deletion is final and a completion stays, under every interleaving of single
    statements: it depends on the copies of the request that other calls have in flight. */
module LoginOverlap {
  import opened LoginMachine
  import opened LoginSafety
  import opened LoginTraces

  /** A call that holds a copy of request id and will write it back. */
  predicate Writes(pc: Pc, id: string) {
    match pc
    case CreateSave(req) => req.id == id
    case SetUserSave(req) => req.id == id
    case CompleteGetUser(req) => req.id == id
    case CompleteSave(req) => req.id == id
    case _ => false
  }

  predicate NoWriter(s: System, id: string) {
    forall t :: t in s.threads ==> !Writes(s.threads[t].pc, id)
  }

  // ---- Single use ------------------------------------------------------------------------------------

  /** The request is not stored and no call will store it. */
  predicate Vanished(s: System, id: string) {
    id in s.history.sent && id !in s.db.requests && NoWriter(s, id)
  }

  lemma VanishedMove(s: System, t: nat, drawn: string, id: string)
    requires RowsOk(s) && Vanished(s, id) && t in s.threads && CanMove(s.history, s.threads[t].pc, drawn)
    ensures Vanished(MoveThread(s, t, drawn), id)
  {
    var s' := MoveThread(s, t, drawn);
    assert !Writes(s.threads[t].pc, id);
    assert !Writes(s'.threads[t].pc, id);
  }

  lemma VanishedStep(s: System, l: Label, u: nat, id: string)
    requires RowsOk(s) && Vanished(s, id) && NotRedeemed(s, u, id)
    ensures Vanished(Exec(s, l), id) && NotRedeemed(Exec(s, l), u, id)
  {
    if l.Move? && l.t in s.threads && CanMove(s.history, s.threads[l.t].pc, l.drawn) {
      VanishedMove(s, l.t, l.drawn, id);
    }
  }

  lemma {:induction false} VanishedRun(s: System, ls: seq<Label>, u: nat, id: string)
    requires Inv(s) && Vanished(s, id) && NotRedeemed(s, u, id)
    ensures Vanished(RunFrom(s, ls), id) && NotRedeemed(RunFrom(s, ls), u, id)
  {
    if ls != [] {
      var front := ls[..|ls| - 1];
      VanishedRun(s, front, u, id);
      RunFromKeeps(s, front);
      VanishedStep(RunFrom(s, front), ls[|ls| - 1], u, id);
    }
  }

  /** A call that holds a copy of the request brings its row back with its next two moves. */
  lemma WriterRevives(s: System, w: nat, id: string)
    requires w in s.threads && Writes(s.threads[w].pc, id)
    ensures var s' := RunFrom(s, Moves(w, "", 2));
      id in s'.db.requests && s'.db.codes == s.db.codes && s'.threads.Keys == s.threads.Keys
  {
    MovesOne(s, w, "", 0);
    MovesOne(s, w, "", 1);
    WriterMoves(s, w, id);
    var s1 := Exec(s, Move(w, ""));
    if s.threads[w].pc.CompleteGetUser? {
      WriterMoves(s1, w, id);
    } else {
      assert Exec(s1, Move(w, "")) == s1;
    }
  }

  lemma WriterMoves(s: System, w: nat, id: string)
    requires w in s.threads && Writes(s.threads[w].pc, id)
    ensures var s' := Exec(s, Move(w, ""));
      && s'.db.codes == s.db.codes && s'.threads.Keys == s.threads.Keys
      && (if s.threads[w].pc.CompleteGetUser? then s'.threads[w].pc.CompleteSave? && s'.threads[w].pc.req.id == id
          else id in s'.db.requests && s'.threads[w].pc.Done?)
  {
  }

  lemma DeletionLeavesNoRow(s: System, t: nat, id: string)
    requires t in s.threads && s.threads[t].pc == DeleteRow(id)
    ensures var s' := Exec(s, Move(t, ""));
      && id !in s'.db.requests && s'.history.sent == s.history.sent && s'.threads.Keys == s.threads.Keys
      && (forall w :: w in s.threads ==> (Writes(s'.threads[w].pc, id) <==> Writes(s.threads[w].pc, id)))
  {
  }

  /** Whatever runs afterwards, the request is not stored again. */
  ghost predicate StaysDeleted(s: System, id: string) {
    forall more :: id !in RunFrom(s, more).db.requests
  }

  /** Whatever runs afterwards, no lookup that starts later yields the request. */
  ghost predicate NeverRedeemed(s: System, id: string) {
    forall more, u | u !in s.threads :: NotRedeemed(RunFrom(s, more), u, id)
  }

  lemma FinalWithoutWriter(s: System, id: string)
    requires Inv(s) && Vanished(s, id)
    ensures StaysDeleted(s, id) && NeverRedeemed(s, id)
  {
    forall more
      ensures id !in RunFrom(s, more).db.requests
    {
      UnusedThread(s.threads.Keys, 0);
      var u :| u !in s.threads;
      VanishedRun(s, more, u, id);
    }
    forall more, u | u !in s.threads
      ensures NotRedeemed(RunFrom(s, more), u, id)
    {
      VanishedRun(s, more, u, id);
    }
  }

  /** There is always a thread that was not started yet. */
  lemma {:induction false} UnusedThread(threads: set<nat>, least: nat)
    ensures exists u :: u !in threads && u >= least
    decreases |threads|
  {
    if least in threads {
      UnusedThread(threads - {least}, least + 1);
    }
  }

  function Repeat(n: nat): string {
    seq(n, _ => 'x')
  }

  lemma {:induction false} UnusedCode(codes: set<string>, n: nat)
    ensures exists code :: code !in codes && |code| >= n
    decreases |codes|
  {
    if Repeat(n) in codes {
      UnusedCode(codes - {Repeat(n)}, n + 1);
      var code :| code !in codes - {Repeat(n)} && |code| >= n + 1;
      assert code != Repeat(n);
    } else {
      assert |Repeat(n)| == n;
    }
  }

  lemma StoredIsRedeemable(s: System, id: string)
    requires id in s.db.requests && s.db.requests[id].id == id
    ensures exists more, u :: u !in s.threads && !NotRedeemed(RunFrom(s, more), u, id)
  {
    UnusedThread(s.threads.Keys, 0);
    var t: nat :| t !in s.threads;
    UnusedThread(s.threads.Keys, t + 1);
    var u: nat :| u !in s.threads && u >= t + 1;
    UnusedCode(s.db.codes.Keys, 0);
    var code :| code !in s.db.codes;
    RedeemableBy(s, t, u, id, code);
  }

  lemma RedeemableBy(s: System, t: nat, u: nat, id: string, code: string)
    requires t !in s.threads && u !in s.threads && t != u && code !in s.db.codes
    requires id in s.db.requests && s.db.requests[id].id == id
    ensures exists more :: !NotRedeemed(RunFrom(s, more), u, id)
  {
    CodeSavedAndRedeemed(s, t, u, id, code);
    var more := [Start(t, SaveCode(id, code))] + Moves(t, "", 1) + [Start(u, ByCode(code))] + Moves(u, "", 2);
    assert !NotRedeemed(RunFrom(s, more), u, id);
  }

  lemma RevivedIsRedeemable(s: System, w: nat, id: string)
    requires Inv(s) && w in s.threads && Writes(s.threads[w].pc, id)
    ensures !StaysDeleted(s, id) && !NeverRedeemed(s, id)
  {
    WriterRevives(s, w, id);
    var s' := RunFrom(s, Moves(w, "", 2));
    RunFromKeeps(s, Moves(w, "", 2));
    StoredIsRedeemable(s', id);
    var more, u :| u !in s'.threads && !NotRedeemed(RunFrom(s', more), u, id);
    RunAppend(s, Moves(w, "", 2), more);
    assert !NotRedeemed(RunFrom(s, Moves(w, "", 2) + more), u, id);
  }

  /** Section 4.1.2 of RFC 6749, in every interleaving: when the last statement of DeleteAuthRequest
      runs, the deletion is final, and no later lookup through any code yields the request, if and
      only if no other call then holds a copy of the request that it is going to save. */
  lemma SingleUseIff(ls: seq<Label>, t: nat, id: string)
    requires t in Run(ls).threads && Run(ls).threads[t].pc == DeleteRow(id) && id in Run(ls).history.sent
    ensures var s := Exec(Run(ls), Move(t, ""));
      && (StaysDeleted(s, id) <==> NoWriter(Run(ls), id))
      && (NeverRedeemed(s, id) <==> NoWriter(Run(ls), id))
  {
    var s := Exec(Run(ls), Move(t, ""));
    RunFromKeeps(Init(), ls);
    ExecKeeps(Run(ls), Move(t, ""));
    DeletionLeavesNoRow(Run(ls), t, id);
    if NoWriter(Run(ls), id) {
      FinalWithoutWriter(s, id);
    } else {
      var w :| w in Run(ls).threads && Writes(Run(ls).threads[w].pc, id);
      RevivedIsRedeemable(s, w, id);
    }
  }

  // ---- done ------------------------------------------------------------------------------------------

  /** A completing call's copy is done; a creating call is the only one that knows its id. */
  ghost predicate CopyOk(s: System, t: nat)
    requires t in s.threads
  {
    match s.threads[t].pc
    case CompleteGetUser(req) => req.done
    case CompleteSave(req) => req.done
    case CreateSave(req) =>
      req.id !in s.db.requests && forall u :: u in s.threads && u != t ==> !Writes(s.threads[u].pc, req.id)
    case _ => true
  }

  ghost predicate CopiesOk(s: System) {
    forall t :: t in s.threads ==> CopyOk(s, t)
  }

  lemma WrittenWasSent(s: System, t: nat, id: string)
    requires Inv(s) && t in s.threads && Writes(s.threads[t].pc, id)
    ensures id in s.history.sent
  {
    assert LocalsOk(s.history, s.threads[t]);
  }

  /** What a move does to the rows and to the copies its thread holds. */
  lemma WhatMoves(s: System, t: nat, drawn: string, id: string)
    requires RowsOk(s) && t in s.threads && CanMove(s.history, s.threads[t].pc, drawn)
    ensures var s' := MoveThread(s, t, drawn); var pc := s.threads[t].pc; var pc' := s'.threads[t].pc;
      && (id in s'.db.requests && id !in s.db.requests ==> Writes(pc, id))
      && (Writes(pc', id) ==> Writes(pc, id) || id in s.db.requests || (pc.CreateDraw? && id == drawn))
      && (pc'.CreateSave? ==> pc.CreateDraw? && pc'.req.id == drawn)
      && (pc'.CompleteGetUser? ==> pc'.req.done)
      && (pc'.CompleteSave? ==> pc.CompleteGetUser? && pc'.req.done == pc.req.done)
  {
  }

  lemma CopyKept(s: System, t: nat, drawn: string, u: nat)
    requires Inv(s) && CopiesOk(s) && t in s.threads && u in s.threads && u != t
    requires CanMove(s.history, s.threads[t].pc, drawn)
    ensures CopyOk(MoveThread(s, t, drawn), u)
  {
    assert CopyOk(s, u);
    if s.threads[u].pc.CreateSave? {
      var id := s.threads[u].pc.req.id;
      WhatMoves(s, t, drawn, id);
      WrittenWasSent(s, u, id);
    }
  }

  lemma CopyOfMover(s: System, t: nat, drawn: string)
    requires Inv(s) && CopiesOk(s) && t in s.threads && CanMove(s.history, s.threads[t].pc, drawn)
    ensures CopyOk(MoveThread(s, t, drawn), t)
  {
    assert CopyOk(s, t);
    WhatMoves(s, t, drawn, drawn);
    if s.threads[t].pc.CreateDraw? {
      forall u | u in s.threads
        ensures !Writes(s.threads[u].pc, drawn)
      {
        if Writes(s.threads[u].pc, drawn) { WrittenWasSent(s, u, drawn); }
      }
    }
  }

  lemma CopiesMove(s: System, t: nat, drawn: string)
    requires Inv(s) && CopiesOk(s) && t in s.threads && CanMove(s.history, s.threads[t].pc, drawn)
    ensures CopiesOk(MoveThread(s, t, drawn))
  {
    var s' := MoveThread(s, t, drawn);
    forall u | u in s'.threads
      ensures CopyOk(s', u)
    {
      if u == t { CopyOfMover(s, u, drawn); } else { CopyKept(s, t, drawn, u); }
    }
  }

  lemma CopiesStep(s: System, l: Label)
    requires Inv(s) && CopiesOk(s)
    ensures CopiesOk(Exec(s, l))
  {
    if l.Move? {
      if l.t in s.threads && CanMove(s.history, s.threads[l.t].pc, l.drawn) { CopiesMove(s, l.t, l.drawn); }
    } else {
      var s' := Exec(s, l);
      forall u | u in s'.threads
        ensures CopyOk(s', u)
      {
        assert u in s.threads ==> CopyOk(s, u);
      }
    }
  }

  lemma {:induction false} CopiesRun(ls: seq<Label>)
    ensures CopiesOk(Run(ls))
  {
    if ls != [] {
      CopiesRun(ls[..|ls| - 1]);
      RunFromKeeps(Init(), ls[..|ls| - 1]);
      CopiesStep(Run(ls[..|ls| - 1]), ls[|ls| - 1]);
    }
  }

  /** The label executes the save of a SetAuthRequestUser that loaded the request before it was done. */
  predicate StaleSave(s: System, l: Label, id: string) {
    && l.Move? && l.t in s.threads && s.threads[l.t].pc.SetUserSave?
    && s.threads[l.t].pc.req.id == id && !s.threads[l.t].pc.req.done
  }

  /** In every interleaving a stored request that is done stops being done exactly when such a stale
      copy is saved. */
  lemma DoneIsUnsetIff(ls: seq<Label>, l: Label, id: string)
    requires id in Run(ls).db.requests && Run(ls).db.requests[id].done && id in Exec(Run(ls), l).db.requests
    ensures !Exec(Run(ls), l).db.requests[id].done <==> StaleSave(Run(ls), l, id)
  {
    CopiesRun(ls);
    RunFromKeeps(Init(), ls);
    if l.Move? && l.t in Run(ls).threads {
      assert CopyOk(Run(ls), l.t);
    }
  }

  predicate DoneAt(ls: seq<Label>, n: nat, id: string)
    requires n <= |ls|
  {
    id in Run(ls[..n]).db.requests && Run(ls[..n]).db.requests[id].done
  }

  /** Step n of the run does not unset done. */
  predicate KeepsDone(ls: seq<Label>, n: nat, id: string)
    requires n < |ls|
  {
    DoneAt(ls, n, id) && id in Run(ls[..n + 1]).db.requests ==> DoneAt(ls, n + 1, id)
  }

  /** Step n of the run saves no stale copy over a request that is done. */
  predicate SavesFreshCopy(ls: seq<Label>, n: nat, id: string)
    requires n < |ls|
  {
    DoneAt(ls, n, id) ==> !StaleSave(Run(ls[..n]), ls[n], id)
  }

  lemma KeepsDoneIff(ls: seq<Label>, n: nat, id: string)
    requires n < |ls|
    ensures KeepsDone(ls, n, id) <==> SavesFreshCopy(ls, n, id)
  {
    assert ls[..n + 1][..n] == ls[..n];
    if DoneAt(ls, n, id) && id in Run(ls[..n + 1]).db.requests {
      DoneIsUnsetIff(ls[..n], ls[n], id);
    }
  }

  /** Over a whole run: done is never unset while the request exists, if and only if no stale copy
      is saved while it is done. */
  lemma DoneIsNeverUnsetIff(ls: seq<Label>, id: string)
    ensures (forall n | 0 <= n < |ls| :: KeepsDone(ls, n, id)) <==> (forall n | 0 <= n < |ls| :: SavesFreshCopy(ls, n, id))
  {
    forall n | 0 <= n < |ls|
      ensures KeepsDone(ls, n, id) <==> SavesFreshCopy(ls, n, id)
    {
      KeepsDoneIff(ls, n, id);
    }
  }
}
