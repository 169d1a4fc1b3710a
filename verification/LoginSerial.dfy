/** What holds of authorization requests when the storage methods do not overlap. */
module LoginSerial {
  import opened LoginMachine
  import opened LoginSafety

  predicate AtBoundary(pc: Pc) {
    pc.CreateDraw? || pc.SetUserLoad? || pc.CompleteLoad? || pc.SaveCodeInsert? || pc.DeleteCodes?
    || pc.CodeLookup? || pc.Done?
  }

  predicate OthersIdle(s: System, t: nat) {
    forall u :: u in s.threads && u != t ==> AtBoundary(s.threads[u].pc)
  }

  /** Only one method is under way at a time; the process may die in the middle of one. */
  predicate SerialFrom(s: System, ls: seq<Label>) {
    ls == [] ||
    (SerialFrom(s, ls[..|ls| - 1])
     && (ls[|ls| - 1].Move? ==> OthersIdle(RunFrom(s, ls[..|ls| - 1]), ls[|ls| - 1].t)))
  }

  predicate Serial(ls: seq<Label>) {
    SerialFrom(Init(), ls)
  }

  /** What the one active method knows of the row it is about to write. */
  predicate ActiveOk(s: System, pc: Pc) {
    match pc
    case CreateSave(req) =>
      req.id !in s.db.requests && req.id !in s.history.completed && req.id !in s.history.deleted && !req.done
    case SetUserSave(req) => req.id in s.db.requests && s.db.requests[req.id].done == req.done
    case CompleteGetUser(req) => req.id in s.db.requests && req.done
    case CompleteSave(req) => req.id in s.db.requests && req.done
    case _ => true
  }

  /** Deleted requests are gone, and done means completed. */
  predicate TablesOk(s: System) {
    && (forall id :: id in s.history.deleted ==> id in s.history.sent && id !in s.db.requests)
    && (forall id :: id in s.history.completed ==> id in s.history.sent)
    && (forall id :: id in s.db.requests ==> (s.db.requests[id].done <==> id in s.history.completed))
  }

  predicate SerialInv(s: System) {
    Inv(s) && TablesOk(s) && forall t :: t in s.threads ==> ActiveOk(s, s.threads[t].pc)
  }

  lemma TablesKept(s: System, t: nat, drawn: string)
    requires RowsOk(s) && TablesOk(s) && t in s.threads && CanMove(s.history, s.threads[t].pc, drawn)
    requires LocalsOk(s.history, s.threads[t]) && ActiveOk(s, s.threads[t].pc)
    ensures TablesOk(MoveThread(s, t, drawn))
  {
  }

  lemma ActiveKept(s: System, t: nat, drawn: string)
    requires RowsOk(s) && TablesOk(s) && t in s.threads && CanMove(s.history, s.threads[t].pc, drawn)
    requires ActiveOk(s, s.threads[t].pc)
    ensures ActiveOk(MoveThread(s, t, drawn), MoveThread(s, t, drawn).threads[t].pc)
  {
    if s.threads[t].pc.CreateDraw? {
      assert drawn !in s.history.sent;
      assert forall id :: id in s.db.requests ==> id in s.history.sent;
    }
  }

  lemma IdleActive(s: System, t: nat)
    requires OthersIdle(s, t)
    ensures forall u :: u in s.threads && u != t ==> ActiveOk(s, s.threads[u].pc)
  {
  }

  lemma MoveKeeps(s: System, t: nat, drawn: string)
    requires SerialInv(s) && OthersIdle(s, t) && t in s.threads && CanMove(s.history, s.threads[t].pc, drawn)
    requires Inv(MoveThread(s, t, drawn))
    ensures SerialInv(MoveThread(s, t, drawn))
  {
    TablesKept(s, t, drawn);
    ActiveKept(s, t, drawn);
    IdleActive(MoveThread(s, t, drawn), t);
  }

  lemma ActiveSame(s: System, s': System, pc: Pc)
    requires ActiveOk(s, pc) && s'.db.requests == s.db.requests && s'.history == s.history
    ensures ActiveOk(s', pc)
  {
  }

  /** Labels other than Move leave requests and history alone. */
  lemma QuietIsQuiet(s: System, l: Label, u: nat)
    requires !l.Move?
    ensures var s' := Exec(s, l);
      && s'.db.requests == s.db.requests && s'.history == s.history
      && (u in s'.threads ==> (u in s.threads && s'.threads[u] == s.threads[u]) || AtBoundary(s'.threads[u].pc))
  {
  }

  lemma QuietKeeps(s: System, l: Label, u: nat)
    requires !l.Move? && TablesOk(s) && (u in s.threads ==> ActiveOk(s, s.threads[u].pc))
    ensures TablesOk(Exec(s, l)) && (u in Exec(s, l).threads ==> ActiveOk(Exec(s, l), Exec(s, l).threads[u].pc))
  {
    QuietIsQuiet(s, l, u);
    if u in s.threads {
      ActiveSame(s, Exec(s, l), s.threads[u].pc);
    }
  }

  lemma SerialKeeps(s: System, l: Label)
    requires SerialInv(s) && (l.Move? ==> OthersIdle(s, l.t))
    ensures SerialInv(Exec(s, l))
  {
    ExecKeeps(s, l);
    if !l.Move? {
      QuietKeeps(s, l, 0);
      forall u | u in Exec(s, l).threads
        ensures ActiveOk(Exec(s, l), Exec(s, l).threads[u].pc)
      {
        QuietKeeps(s, l, u);
      }
    } else if l.t in s.threads && CanMove(s.history, s.threads[l.t].pc, l.drawn) {
      MoveKeeps(s, l.t, l.drawn);
    }
  }

  lemma {:induction false} SerialRun(ls: seq<Label>)
    requires Serial(ls)
    ensures SerialInv(Run(ls))
  {
    if ls != [] {
      SerialRun(ls[..|ls| - 1]);
      SerialKeeps(Run(ls[..|ls| - 1]), ls[|ls| - 1]);
    }
  }

  /** done is set by CompleteAuthRequest and by nothing else. */
  lemma DoneMeansCompleted(ls: seq<Label>, id: string)
    requires Serial(ls) && id in Run(ls).db.requests
    ensures Run(ls).db.requests[id].done <==> id in Run(ls).history.completed
  {
    SerialRun(ls);
  }

  lemma {:induction false} HistoryOfPrefix(ls: seq<Label>, n: nat)
    requires n <= |ls|
    ensures HistoryGrows(Run(ls[..n]).history, Run(ls).history)
  {
    if n == |ls| {
      assert ls[..n] == ls;
    } else {
      var front := ls[..|ls| - 1];
      HistoryOfPrefix(front, n);
      assert front[..n] == ls[..n];
      RunFromKeeps(Init(), front);
      ExecKeeps(Run(front), ls[|ls| - 1]);
    }
  }

  lemma {:induction false} SerialPrefix(ls: seq<Label>, n: nat)
    requires Serial(ls) && n <= |ls|
    ensures Serial(ls[..n])
  {
    if n < |ls| {
      SerialPrefix(ls[..|ls| - 1], n);
      assert ls[..|ls| - 1][..n] == ls[..n];
    } else {
      assert ls[..n] == ls;
    }
  }

  /** Once done, a request stays done for as long as it exists. */
  lemma DoneIsNeverUnset(ls: seq<Label>, n: nat, id: string)
    requires Serial(ls) && n <= |ls|
    requires id in Run(ls[..n]).db.requests && Run(ls[..n]).db.requests[id].done
    ensures id in Run(ls).db.requests ==> Run(ls).db.requests[id].done
  {
    SerialPrefix(ls, n);
    SerialRun(ls[..n]);
    SerialRun(ls);
    HistoryOfPrefix(ls, n);
  }

  lemma DeletedStaysUnredeemed(s: System, l: Label, u: nat, id: string)
    requires SerialInv(s) && id in s.history.deleted && NotRedeemed(s, u, id)
    ensures NotRedeemed(Exec(s, l), u, id)
  {
  }

  lemma {:induction false} Unredeemed(ls: seq<Label>, n: nat, u: nat, id: string)
    requires Serial(ls) && n <= |ls|
    requires id in Run(ls[..n]).history.deleted && u !in Run(ls[..n]).threads
    ensures NotRedeemed(Run(ls), u, id)
  {
    if n == |ls| {
      assert ls[..n] == ls;
    } else {
      var front := ls[..|ls| - 1];
      assert front[..n] == ls[..n];
      Unredeemed(front, n, u, id);
      SerialRun(front);
      HistoryOfPrefix(front, n);
      DeletedStaysUnredeemed(Run(front), ls[|ls| - 1], u, id);
    }
  }

  /** Section 4.1.2 of RFC 6749, single use: once DeleteAuthRequest has run for a request, its row
      never comes back, and no code lookup that starts later yields it, through a code saved before
      or after. */
  lemma CodesAreSingleUse(ls: seq<Label>, n: nat, u: nat, id: string)
    requires Serial(ls) && n <= |ls|
    requires id in Run(ls[..n]).history.deleted && u !in Run(ls[..n]).threads
    ensures id !in Run(ls).db.requests && NotRedeemed(Run(ls), u, id)
  {
    SerialRun(ls);
    HistoryOfPrefix(ls, n);
    Unredeemed(ls, n, u, id);
  }

  /** The deletions meant are those of DeleteAuthRequest: its last statement removes the row of the
      id it was called for, and puts that id on record if it was ever drawn. */
  lemma DeletionIsNoted(ls: seq<Label>, t: nat, drawn: string)
    requires t in Run(ls).threads && Run(ls).threads[t].pc.DeleteRow?
    ensures Run(ls).threads[t].call.Delete?
    ensures var s := Exec(Run(ls), Move(t, drawn)); var id := s.threads[t].call.id;
      s.threads[t].pc == Done(Deleted) && id !in s.db.requests && (id in s.history.sent ==> id in s.history.deleted)
  {
    RunFromKeeps(Init(), ls);
    assert LocalsOk(Run(ls).history, Run(ls).threads[t]);
  }
}
