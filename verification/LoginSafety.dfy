/** What holds of authorization requests under every interleaving of single statements. */
module LoginSafety {
  import opened Prelude
  import opened AuthRequests
  import opened LoginMachine

  /** The request carries the parameters sent for its id. */
  predicate AsSent(h: History, req: AuthRequest) {
    req.id in h.sent && req.SameParameters(Original(h.sent[req.id], req.id))
  }

  /** And it is done only if some completion was saved for it. */
  predicate Sound(h: History, req: AuthRequest) {
    AsSent(h, req) && (req.done ==> req.id in h.completed)
  }

  predicate LocalsOk(h: History, th: Thread) {
    match th.pc
    case CreateDraw(incoming, userId) => th.call == Create(incoming, userId)
    case CreateSave(req) => Sound(h, req)
    case SetUserSave(req) => Sound(h, req)
    case CompleteLoad(id, user) => th.call == Complete(id, user)
    case CompleteGetUser(req) => th.call.Complete? && th.call.id == req.id && AsSent(h, req)
    case CompleteSave(req) => th.call.Complete? && th.call.id == req.id && AsSent(h, req)
    case DeleteCodes(id) => th.call == Delete(id)
    case DeleteRow(id) => th.call == Delete(id)
    case CodeLookup(code) => th.call == ByCode(code)
    case CodeLoad(id) => th.call.ByCode? && (th.call.code, id) in h.saved
    case Done(Created(req)) => Sound(h, req)
    case Done(Redeemed(req)) => th.call.ByCode? && (th.call.code, req.id) in h.saved && Sound(h, req)
    case _ => true
  }

  predicate RowsOk(s: System) {
    && (forall id :: id in s.db.requests ==> s.db.requests[id].id == id && Sound(s.history, s.db.requests[id]))
    && (forall c :: c in s.db.codes ==> (c, s.db.codes[c]) in s.history.saved)
  }

  predicate Inv(s: System) {
    RowsOk(s) && forall t :: t in s.threads ==> LocalsOk(s.history, s.threads[t])
  }

  predicate HistoryGrows(h: History, h': History) {
    && (forall id :: id in h.sent ==> id in h'.sent && h'.sent[id] == h.sent[id])
    && h.saved <= h'.saved && h.completed.Keys <= h'.completed.Keys && h.deleted <= h'.deleted
  }

  lemma GrownKeeps(h: History, h': History, th: Thread)
    requires HistoryGrows(h, h') && LocalsOk(h, th)
    ensures LocalsOk(h', th)
  {
  }

  lemma NotedGrows(h: History, now: Time, th: Thread, drawn: string, pc': Pc)
    requires CanMove(h, th.pc, drawn)
    ensures HistoryGrows(h, Noted(h, now, th, drawn, pc'))
  {
  }

  lemma MoverKept(s: System, t: nat, drawn: string)
    requires RowsOk(s) && t in s.threads && LocalsOk(s.history, s.threads[t]) && CanMove(s.history, s.threads[t].pc, drawn)
    ensures LocalsOk(MoveThread(s, t, drawn).history, MoveThread(s, t, drawn).threads[t])
  {
    NotedGrows(s.history, s.clock, s.threads[t], drawn, Advance(s.db, s.clock, s.threads[t].pc, drawn).1);
  }

  lemma RowsKept(s: System, t: nat, drawn: string)
    requires RowsOk(s) && t in s.threads && LocalsOk(s.history, s.threads[t]) && CanMove(s.history, s.threads[t].pc, drawn)
    ensures RowsOk(MoveThread(s, t, drawn))
  {
    NotedGrows(s.history, s.clock, s.threads[t], drawn, Advance(s.db, s.clock, s.threads[t].pc, drawn).1);
  }

  lemma ExecKeeps(s: System, l: Label)
    requires Inv(s)
    ensures Inv(Exec(s, l)) && HistoryGrows(s.history, Exec(s, l).history)
  {
    if l.Move? && l.t in s.threads && CanMove(s.history, s.threads[l.t].pc, l.drawn) {
      var s' := MoveThread(s, l.t, l.drawn);
      NotedGrows(s.history, s.clock, s.threads[l.t], l.drawn, s'.threads[l.t].pc);
      RowsKept(s, l.t, l.drawn);
      forall u | u in s'.threads
        ensures LocalsOk(s'.history, s'.threads[u])
      {
        if u == l.t { MoverKept(s, l.t, l.drawn); } else { GrownKeeps(s.history, s'.history, s.threads[u]); }
      }
    }
  }

  lemma {:induction false} RunFromKeeps(s: System, ls: seq<Label>)
    requires Inv(s)
    ensures Inv(RunFrom(s, ls)) && HistoryGrows(s.history, RunFrom(s, ls).history)
  {
    if ls != [] {
      RunFromKeeps(s, ls[..|ls| - 1]);
      ExecKeeps(RunFrom(s, ls[..|ls| - 1]), ls[|ls| - 1]);
    }
  }

  /** Whatever a code redeems is a request the code was saved for, with the client, redirect URI,
      scopes, state, nonce, response type and challenge that were sent to the authorize endpoint
      for that id; and it is done only if CompleteAuthRequest completed it. */
  lemma RedemptionsCarryWhatWasSent(ls: seq<Label>, t: nat)
    requires t in Run(ls).threads && Run(ls).threads[t].pc.Done? && Run(ls).threads[t].pc.outcome.Redeemed?
    ensures var s := Run(ls); var h := s.history; var req := s.threads[t].pc.outcome.req;
      && s.threads[t].call.ByCode? && (s.threads[t].call.code, req.id) in h.saved
      && req.id in h.sent && req.SameParameters(Original(h.sent[req.id], req.id))
      && CarriesSent(req, h.sent[req.id].incoming) && req.creationDate == h.sent[req.id].at
      && (req.done ==> req.id in h.completed)
  {
    RunFromKeeps(Init(), ls);
    assert LocalsOk(Run(ls).history, Run(ls).threads[t]);
    var req := Run(ls).threads[t].pc.outcome.req;
    var sent := Run(ls).history.sent[req.id];
    FromIncomingCarries(sent.incoming, sent.userId, req.id, sent.at, req);
  }

  /** Rows too, at any moment between two statements. */
  lemma RowsCarryWhatWasSent(ls: seq<Label>, id: string)
    requires id in Run(ls).db.requests
    ensures var s := Run(ls); var h := s.history; var req := s.db.requests[id];
      && req.id == id && id in h.sent && req.SameParameters(Original(h.sent[id], id))
      && CarriesSent(req, h.sent[id].incoming) && req.creationDate == h.sent[id].at
      && (req.done ==> id in h.completed)
  {
    RunFromKeeps(Init(), ls);
    var sent := Run(ls).history.sent[id];
    FromIncomingCarries(sent.incoming, sent.userId, id, sent.at, Run(ls).db.requests[id]);
  }

  /** Thread u has not looked up a code and got this request. */
  predicate NotRedeemed(s: System, u: nat, id: string) {
    u in s.threads && s.threads[u].pc.Done? && s.threads[u].pc.outcome.Redeemed? ==>
      s.threads[u].pc.outcome.req.id != id
  }

  // ---- The code challenge -----------------------------------------------------------------------------

  /** Sections 4.3 and 4.4 of RFC 7636: the challenge the client associated with its code; the
      method defaults to plain. */
  function SentChallenge(incoming: IncomingRequest): Option<CodeChallenge> {
    if incoming.codeChallenge == "" then None
    else Some(CodeChallenge(incoming.codeChallenge,
                            if incoming.codeChallengeMethod == "" then "plain" else incoming.codeChallengeMethod))
  }

  predicate KnownMethod(incoming: IncomingRequest) {
    incoming.codeChallengeMethod == "" || incoming.codeChallengeMethod == "plain" || incoming.codeChallengeMethod == "S256"
  }

  lemma ChallengeReadBack(sent: Sent, req: AuthRequest)
    requires req.SameParameters(Original(sent, req.id))
    ensures var incoming := sent.incoming;
      req.Challenge() == SentChallenge(incoming) <==> incoming.codeChallenge == "" || KnownMethod(incoming)
  {
    var incoming := sent.incoming;
    var c := Original(sent, req.id).codeChallenge;
    if incoming.codeChallenge != "" {
      assert c == Some(CodeChallenge(incoming.codeChallenge, incoming.codeChallengeMethod));
    }
  }

  /** The challenge that a redemption reads back is the one that was sent, if and only if there was
      none or its method is S256, plain or absent; any other method is read back as plain. */
  lemma RedeemedChallengeIsTheSentOne(ls: seq<Label>, t: nat)
    requires t in Run(ls).threads && Run(ls).threads[t].pc.Done? && Run(ls).threads[t].pc.outcome.Redeemed?
    ensures var h := Run(ls).history; var req := Run(ls).threads[t].pc.outcome.req;
      && req.id in h.sent
      && var incoming := h.sent[req.id].incoming;
         req.Challenge() == SentChallenge(incoming) <==> incoming.codeChallenge == "" || KnownMethod(incoming)
  {
    RedemptionsCarryWhatWasSent(ls, t);
    var req := Run(ls).threads[t].pc.outcome.req;
    ChallengeReadBack(Run(ls).history.sent[req.id], req);
  }
}
