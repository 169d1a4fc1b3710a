/** What the history puts on record happened: each entry goes back to a call that was made. So a
    redemption goes back to calls, too. */
module LoginRecords {
  import opened AuthRequests
  import opened LoginMachine
  import opened LoginSafety

  /** Some call was made to create this request from what is on record as sent. */
  ghost predicate WasSent(s: System, id: string)
    requires id in s.history.sent
  {
    exists t :: t in s.threads && s.threads[t].call == Create(s.history.sent[id].incoming, s.history.sent[id].userId)
  }

  ghost predicate WasSaved(s: System, code: string, id: string) {
    exists t :: t in s.threads && s.threads[t] == Thread(SaveCode(id, code), Done(CodeSaved))
  }

  ghost predicate WasCompleted(s: System, id: string)
    requires id in s.history.completed
  {
    exists t :: t in s.threads && s.threads[t] == Thread(Complete(id, s.history.completed[id]), Done(Saved))
  }

  ghost predicate WasChosen(s: System, id: string)
    requires id in s.history.chosen
  {
    exists t :: t in s.threads && s.threads[t] == Thread(SetUser(id, s.history.chosen[id]), Done(Saved))
  }

  ghost predicate WasDeleted(s: System, id: string) {
    exists t :: t in s.threads && s.threads[t] == Thread(Delete(id), Done(Deleted))
  }

  ghost predicate RecordsTrue(s: System) {
    && (forall id :: id in s.history.sent ==> WasSent(s, id))
    && (forall entry :: entry in s.history.saved ==> WasSaved(s, entry.0, entry.1))
    && (forall id :: id in s.history.completed ==> WasCompleted(s, id))
    && (forall id :: id in s.history.chosen ==> WasChosen(s, id))
    && (forall id :: id in s.history.deleted ==> WasDeleted(s, id))
  }

  /** What a call is about to do is what it was made for. */
  predicate CallOk(th: Thread) {
    match th.pc
    case CreateDraw(incoming, userId) => th.call == Create(incoming, userId)
    case SetUserLoad(id, user) => th.call == SetUser(id, user)
    case SetUserSave(req) => th.call == SetUser(req.id, req.userId)
    case CompleteLoad(id, user) => th.call == Complete(id, user)
    case CompleteGetUser(req) => th.call.Complete? && th.call.id == req.id
    case CompleteSave(req) => th.call.Complete? && th.call.id == req.id
    case SaveCodeInsert(id, code) => th.call == SaveCode(id, code)
    case DeleteCodes(id) => th.call == Delete(id)
    case DeleteRow(id) => th.call == Delete(id)
    case _ => true
  }

  ghost predicate CallsOk(s: System) {
    forall t :: t in s.threads ==> CallOk(s.threads[t])
  }

  /** Calls stay what they are, and what is over stays over. */
  ghost predicate CallsStay(s: System, s': System) {
    forall t :: t in s.threads ==>
      t in s'.threads && s'.threads[t].call == s.threads[t].call && (s.threads[t].pc.Done? ==> s'.threads[t] == s.threads[t])
  }

  lemma RecordsStay(s: System, s': System)
    requires RecordsTrue(s) && CallsStay(s, s')
    requires s'.history == s.history
    ensures RecordsTrue(s')
  {
    forall id | id in s'.history.sent ensures WasSent(s', id) { SentStays(s, s', id); }
    forall entry | entry in s'.history.saved ensures WasSaved(s', entry.0, entry.1) { SavedStays(s, s', entry.0, entry.1); }
    forall id | id in s'.history.completed ensures WasCompleted(s', id) { CompletedStays(s, s', id); }
    forall id | id in s'.history.chosen ensures WasChosen(s', id) { ChosenStays(s, s', id); }
    forall id | id in s'.history.deleted ensures WasDeleted(s', id) { DeletedStays(s, s', id); }
  }

  lemma SentStays(s: System, s': System, id: string)
    requires CallsStay(s, s') && id in s.history.sent && WasSent(s, id)
    requires id in s'.history.sent && s'.history.sent[id] == s.history.sent[id]
    ensures WasSent(s', id)
  {
    var t :| t in s.threads && s.threads[t].call == Create(s.history.sent[id].incoming, s.history.sent[id].userId);
    assert s'.threads[t].call == s.threads[t].call;
  }

  lemma SavedStays(s: System, s': System, code: string, id: string)
    requires CallsStay(s, s') && WasSaved(s, code, id)
    ensures WasSaved(s', code, id)
  {
    var t :| t in s.threads && s.threads[t] == Thread(SaveCode(id, code), Done(CodeSaved));
    assert s'.threads[t] == s.threads[t];
  }

  lemma CompletedStays(s: System, s': System, id: string)
    requires CallsStay(s, s') && id in s.history.completed && WasCompleted(s, id)
    requires id in s'.history.completed && s'.history.completed[id] == s.history.completed[id]
    ensures WasCompleted(s', id)
  {
    var t :| t in s.threads && s.threads[t] == Thread(Complete(id, s.history.completed[id]), Done(Saved));
    assert s'.threads[t] == s.threads[t];
  }

  lemma ChosenStays(s: System, s': System, id: string)
    requires CallsStay(s, s') && id in s.history.chosen && WasChosen(s, id)
    requires id in s'.history.chosen && s'.history.chosen[id] == s.history.chosen[id]
    ensures WasChosen(s', id)
  {
    var t :| t in s.threads && s.threads[t] == Thread(SetUser(id, s.history.chosen[id]), Done(Saved));
    assert s'.threads[t] == s.threads[t];
  }

  lemma DeletedStays(s: System, s': System, id: string)
    requires CallsStay(s, s') && WasDeleted(s, id)
    ensures WasDeleted(s', id)
  {
    var t :| t in s.threads && s.threads[t] == Thread(Delete(id), Done(Deleted));
    assert s'.threads[t] == s.threads[t];
  }

  lemma CallsStayMove(s: System, t: nat, drawn: string)
    requires t in s.threads && CanMove(s.history, s.threads[t].pc, drawn)
    ensures CallsStay(s, MoveThread(s, t, drawn))
  {
  }

  lemma MoverCallOk(s: System, t: nat, drawn: string)
    requires RowsOk(s) && t in s.threads && CallOk(s.threads[t]) && CanMove(s.history, s.threads[t].pc, drawn)
    ensures CallOk(MoveThread(s, t, drawn).threads[t])
  {
  }

  lemma SentMove(s: System, t: nat, drawn: string, id: string)
    requires t in s.threads && CallOk(s.threads[t]) && CanMove(s.history, s.threads[t].pc, drawn)
    requires id in s.history.sent ==> WasSent(s, id)
    requires id in MoveThread(s, t, drawn).history.sent
    ensures WasSent(MoveThread(s, t, drawn), id)
  {
    var s' := MoveThread(s, t, drawn);
    CallsStayMove(s, t, drawn);
    if id in s.history.sent {
      SentStays(s, s', id);
    } else {
      assert s'.threads[t].call == Create(s'.history.sent[id].incoming, s'.history.sent[id].userId);
    }
  }

  lemma SavedMove(s: System, t: nat, drawn: string, code: string, id: string)
    requires t in s.threads && CallOk(s.threads[t]) && CanMove(s.history, s.threads[t].pc, drawn)
    requires (code, id) in s.history.saved ==> WasSaved(s, code, id)
    requires (code, id) in MoveThread(s, t, drawn).history.saved
    ensures WasSaved(MoveThread(s, t, drawn), code, id)
  {
    var s' := MoveThread(s, t, drawn);
    CallsStayMove(s, t, drawn);
    if (code, id) in s.history.saved {
      SavedStays(s, s', code, id);
    } else {
      assert s'.threads[t] == Thread(SaveCode(id, code), Done(CodeSaved));
    }
  }

  lemma CompletedMove(s: System, t: nat, drawn: string, id: string)
    requires t in s.threads && CallOk(s.threads[t]) && CanMove(s.history, s.threads[t].pc, drawn)
    requires id in s.history.completed ==> WasCompleted(s, id)
    requires id in MoveThread(s, t, drawn).history.completed
    ensures WasCompleted(MoveThread(s, t, drawn), id)
  {
    var s' := MoveThread(s, t, drawn);
    var pc := s.threads[t].pc;
    CallsStayMove(s, t, drawn);
    if pc.CompleteSave? && pc.req.id == id {
      assert s'.threads[t] == Thread(Complete(id, s'.history.completed[id]), Done(Saved));
    } else {
      CompletedStays(s, s', id);
    }
  }

  lemma ChosenMove(s: System, t: nat, drawn: string, id: string)
    requires t in s.threads && CallOk(s.threads[t]) && CanMove(s.history, s.threads[t].pc, drawn)
    requires id in s.history.chosen ==> WasChosen(s, id)
    requires id in MoveThread(s, t, drawn).history.chosen
    ensures WasChosen(MoveThread(s, t, drawn), id)
  {
    var s' := MoveThread(s, t, drawn);
    var pc := s.threads[t].pc;
    CallsStayMove(s, t, drawn);
    if pc.SetUserSave? && pc.req.id == id {
      assert s'.threads[t] == Thread(SetUser(id, s'.history.chosen[id]), Done(Saved));
    } else {
      ChosenStays(s, s', id);
    }
  }

  lemma DeletedMove(s: System, t: nat, drawn: string, id: string)
    requires t in s.threads && CallOk(s.threads[t]) && CanMove(s.history, s.threads[t].pc, drawn)
    requires id in s.history.deleted ==> WasDeleted(s, id)
    requires id in MoveThread(s, t, drawn).history.deleted
    ensures WasDeleted(MoveThread(s, t, drawn), id)
  {
    var s' := MoveThread(s, t, drawn);
    CallsStayMove(s, t, drawn);
    if id in s.history.deleted {
      DeletedStays(s, s', id);
    } else {
      assert s'.threads[t] == Thread(Delete(id), Done(Deleted));
    }
  }

  lemma RecordsMove(s: System, t: nat, drawn: string)
    requires RecordsTrue(s) && t in s.threads && CallOk(s.threads[t]) && CanMove(s.history, s.threads[t].pc, drawn)
    ensures RecordsTrue(MoveThread(s, t, drawn))
  {
    var s' := MoveThread(s, t, drawn);
    forall id | id in s'.history.sent ensures WasSent(s', id) { SentMove(s, t, drawn, id); }
    forall entry | entry in s'.history.saved ensures WasSaved(s', entry.0, entry.1) { SavedMove(s, t, drawn, entry.0, entry.1); }
    forall id | id in s'.history.completed ensures WasCompleted(s', id) { CompletedMove(s, t, drawn, id); }
    forall id | id in s'.history.chosen ensures WasChosen(s', id) { ChosenMove(s, t, drawn, id); }
    forall id | id in s'.history.deleted ensures WasDeleted(s', id) { DeletedMove(s, t, drawn, id); }
  }

  lemma RecordsStep(s: System, l: Label)
    requires RowsOk(s) && RecordsTrue(s) && CallsOk(s)
    ensures RecordsTrue(Exec(s, l)) && CallsOk(Exec(s, l))
  {
    if l.Move? {
      if l.t in s.threads && CanMove(s.history, s.threads[l.t].pc, l.drawn) {
        RecordsMove(s, l.t, l.drawn);
        MoverCallOk(s, l.t, l.drawn);
      }
    } else {
      RecordsStay(s, Exec(s, l));
    }
  }

  /** Every entry on record goes back to a call: what was sent to a creation, what was saved to the
      call that has saved it. */
  lemma {:induction false} RecordsGoBackToCalls(ls: seq<Label>)
    ensures RecordsTrue(Run(ls)) && CallsOk(Run(ls))
  {
    if ls != [] {
      RecordsGoBackToCalls(ls[..|ls| - 1]);
      RunFromKeeps(Init(), ls[..|ls| - 1]);
      RecordsStep(Run(ls[..|ls| - 1]), ls[|ls| - 1]);
    }
  }

  /** In every interleaving, what a code redeems is the request of one call of CreateAuthRequest,
      with everything that call was given; one call of SaveAuthCode saved the code for it; and if it
      is done, a call of CompleteAuthRequest for it has returned. */
  lemma RedemptionsGoBackToCalls(ls: seq<Label>, t: nat)
    requires t in Run(ls).threads && Run(ls).threads[t].pc.Done? && Run(ls).threads[t].pc.outcome.Redeemed?
    ensures var s := Run(ls); var req := s.threads[t].pc.outcome.req;
      && s.threads[t].call.ByCode? && WasSaved(s, s.threads[t].call.code, req.id)
      && (exists u | u in s.threads :: s.threads[u].call.Create? && CarriesSent(req, s.threads[u].call.incoming))
      && (req.done ==> exists u | u in s.threads ::
            s.threads[u].call.Complete? && s.threads[u].call.id == req.id && s.threads[u].pc == Done(Saved))
  {
    var s := Run(ls);
    var req := s.threads[t].pc.outcome.req;
    RedemptionsCarryWhatWasSent(ls, t);
    RecordsGoBackToCalls(ls);
    var entry := (s.threads[t].call.code, req.id);
    assert WasSaved(s, entry.0, entry.1);
    assert WasSent(s, req.id);
    var u :| u in s.threads && s.threads[u].call == Create(s.history.sent[req.id].incoming, s.history.sent[req.id].userId);
    if req.done {
      assert WasCompleted(s, req.id);
    }
  }
}
