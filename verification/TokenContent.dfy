/** What access tokens say in every interleaving: each stored row carries what the one call that drew
    its id was asked for, and the tokens on record as handed out are those some call returned. */
module TokenContent {
  import opened TokenTables
  import opened TokenMachine
  import opened TokenInvariant
  import opened TokenSafety
  import opened TokenSerial

  /** The access token row a call is about to store, or has stored. */
  function DraftIn(pc: Pc): set<TokenRow> {
    match pc
    case InAccess(AccessLookup(d)) => {d}
    case InAccess(AccessInsert(d)) => {d}
    case InIssue(IssueLookup(d, _, _)) => {d}
    case InIssue(IssueInsert(d, _, _)) => {d}
    case InIssue(IssueRefreshLookup(d, _, _)) => {d}
    case InIssue(IssueRefreshInsert(d, _, _, _)) => {d}
    case InRenew(RenewLookup(_, d)) => {d}
    case InRenew(RenewInsert(_, d)) => {d}
    case InRenew(RenewReload(_, d)) => {d}
    case InRenew(RenewDeleteRefresh(_, d, _)) => {d}
    case InRenew(RenewDeleteAccess(_, d, _)) => {d}
    case InRenew(RenewInsertRefresh(_, d, _)) => {d}
    case _ => {}
  }

  /** The scopes that SetCurrentScopes last set on each call's loaded request, after this label. */
  function SetAfter(sc: map<nat, seq<string>>, s: System, l: Label): map<nat, seq<string>> {
    if l.Narrow? && l.t in s.threads && s.threads[l.t].pc.InRenew? && s.threads[l.t].pc.renew.RenewLoaded?
    then sc[l.t := l.scopes] else sc
  }

  function ScopesSet(ls: seq<Label>): map<nat, seq<string>> {
    if ls == [] then map[] else SetAfter(ScopesSet(ls[..|ls| - 1]), Run(ls[..|ls| - 1]), ls[|ls| - 1])
  }

  predicate SameSet(sc: map<nat, seq<string>>, sc': map<nat, seq<string>>, t: nat) {
    (t in sc <==> t in sc') && (t in sc ==> sc'[t] == sc[t])
  }

  /** A renewal takes over what the login of the chain handed out, but for scopes its caller set. */
  ghost predicate RenewalAsked(h: History, sc: map<nat, seq<string>>, t: nat, current: string, client: string, user: string,
                               audience: seq<string>, scopes: seq<string>)
  {
    && IsRefresh(h, current) && h.minted[current].root in h.grants
    && var g := h.grants[h.minted[current].root];
       && client == g.client && user == g.user && audience == g.audience
       && scopes == if t in sc then sc[t] else g.scopes
  }

  /** The row carries what call t was asked for. */
  ghost predicate RowAsked(h: History, sc: map<nat, seq<string>>, t: nat, call: Call, row: TokenRow) {
    match call
    case IssueAccess(req) => row.refreshTokenId == "" && AccessAsked(req, row.applicationId, row.subject, row.audience, row.scopes)
    case Issue(req) => PairAsked(req, row.applicationId, row.subject, row.audience, row.scopes)
    case Renew(current) => RenewalAsked(h, sc, t, current, row.applicationId, row.subject, row.audience, row.scopes)
    case _ => false
  }

  /** The renewal can still be given its request, or its request other scopes. */
  predicate Open(pc: Pc) {
    pc.InRenew? && (pc.renew.RenewLoad? || pc.renew.RenewLoaded?)
  }

  ghost predicate ThreadAsked(h: History, sc: map<nat, seq<string>>, t: nat, th: Thread) {
    && (forall d :: d in DraftIn(th.pc) ==> RowAsked(h, sc, t, th.call, d))
    && (th.pc.InRenew? && th.pc.renew.RenewLoad? ==> t !in sc)
    && (th.pc.InRenew? && th.pc.renew.RenewLoaded? ==>
          var row := th.pc.renew.loaded;
          RenewalAsked(h, sc, t, th.pc.renew.current, row.applicationId, row.userId, row.audience, row.scopes))
  }

  ghost predicate StoredAsked(s: System, sc: map<nat, seq<string>>, a: string)
    requires a in s.db.tokens
  {
    && IsAccess(s.history, a) && s.history.minted[a].owner in s.threads
    && !Open(s.threads[s.history.minted[a].owner].pc)
    && RowAsked(s.history, sc, s.history.minted[a].owner, s.threads[s.history.minted[a].owner].call, s.db.tokens[a])
  }

  ghost predicate AllAsked(s: System, sc: map<nat, seq<string>>) {
    && sc.Keys <= s.threads.Keys
    && (forall t :: t in s.threads ==> ThreadAsked(s.history, sc, t, s.threads[t]))
    && (forall a :: a in s.db.tokens ==> StoredAsked(s, sc, a))
  }

  lemma RowStays(h: History, h': History, sc: map<nat, seq<string>>, sc': map<nat, seq<string>>, t: nat, call: Call, row: TokenRow)
    requires HistoryGrows(h, h') && SameSet(sc, sc', t) && RowAsked(h, sc, t, call, row)
    ensures RowAsked(h', sc', t, call, row)
  {
  }

  lemma ThreadStays(h: History, h': History, sc: map<nat, seq<string>>, sc': map<nat, seq<string>>, t: nat, th: Thread)
    requires HistoryGrows(h, h') && SameSet(sc, sc', t) && ThreadAsked(h, sc, t, th)
    ensures ThreadAsked(h', sc', t, th)
  {
    forall d | d in DraftIn(th.pc)
      ensures RowAsked(h', sc', t, th.call, d)
    {
      RowStays(h, h', sc, sc', t, th.call, d);
    }
  }

  /** Threads stay; their calls stay; and what can no longer be changed stays so. */
  ghost predicate ThreadsStay(s: System, s': System) {
    forall t :: t in s.threads ==>
      t in s'.threads && s'.threads[t].call == s.threads[t].call && (!Open(s.threads[t].pc) ==> !Open(s'.threads[t].pc))
  }

  /** Whatever a label does, the rows it leaves alone still carry what was asked. */
  lemma StoredStays(s: System, s': System, sc: map<nat, seq<string>>, sc': map<nat, seq<string>>, a: string)
    requires HistoryGrows(s.history, s'.history) && a in s.db.tokens && StoredAsked(s, sc, a)
    requires a in s'.db.tokens && s'.db.tokens[a] == s.db.tokens[a]
    requires ThreadsStay(s, s') && forall t :: t in s.threads && !Open(s.threads[t].pc) ==> SameSet(sc, sc', t)
    ensures StoredAsked(s', sc', a)
  {
    var t := s.history.minted[a].owner;
    RowStays(s.history, s'.history, sc, sc', t, s.threads[t].call, s.db.tokens[a]);
  }

  // ---- The mover ------------------------------------------------------------------------------------

  lemma LoadedAsked(h: History, sc: map<nat, seq<string>>, t: nat, current: string, row: RefreshRow)
    requires RefreshRowOk(h, row) && row.id == current && t !in sc
    ensures RenewalAsked(h, sc, t, current, row.applicationId, row.userId, row.audience, row.scopes)
  {
  }

  lemma DrawAsked(s: System, sc: map<nat, seq<string>>, t: nat, r: string, a: string)
    requires t in s.threads && AwaitsIds(s.threads[t].pc) && FreshIds(s.history, r, a)
    requires LocalsOk(s, t, s.threads[t]) && ThreadAsked(s.history, sc, t, s.threads[t])
    requires HistoryGrows(s.history, Exec(s, DrawIds(t, r, a)).history)
    ensures var s' := Exec(s, DrawIds(t, r, a)); ThreadAsked(s'.history, sc, t, s'.threads[t])
  {
    var s' := Exec(s, DrawIds(t, r, a));
    ThreadStays(s.history, s'.history, sc, sc, t, s.threads[t]);
  }

  lemma NarrowAsked(s: System, sc: map<nat, seq<string>>, t: nat, scopes: seq<string>)
    requires t in s.threads && ThreadAsked(s.history, sc, t, s.threads[t])
    ensures var s' := Exec(s, Narrow(t, scopes));
      ThreadAsked(s'.history, SetAfter(sc, s, Narrow(t, scopes)), t, s'.threads[t])
  {
  }

  /** A statement keeps the draft but for its expiration. */
  lemma DraftKept(s: System, t: nat, d': TokenRow)
    requires t in s.threads && CanMove(s.threads[t].pc) && d' in DraftIn(MoveThread(s, t).threads[t].pc)
    ensures exists d | d in DraftIn(s.threads[t].pc) :: d' == d.(expiration := d'.expiration)
  {
    var drafts := DraftIn(s.threads[t].pc);
    if d :| d in drafts {
      assert drafts == {d};
      assert d' == d.(expiration := d'.expiration);
    }
  }

  /** It stores its draft or nothing. */
  lemma DraftStored(s: System, t: nat, a: string)
    requires t in s.threads && CanMove(s.threads[t].pc) && a in MoveThread(s, t).db.tokens
    ensures var row := MoveThread(s, t).db.tokens[a];
      (a in s.db.tokens && row == s.db.tokens[a]) || (a == row.id && row in DraftIn(s.threads[t].pc))
  {
  }

  /** No statement opens a call again, and one that has a draft is not open. */
  lemma MoveOpens(s: System, t: nat)
    requires t in s.threads && CanMove(s.threads[t].pc)
    ensures Open(MoveThread(s, t).threads[t].pc) ==> Open(s.threads[t].pc)
    ensures DraftIn(s.threads[t].pc) != {} ==> !Open(s.threads[t].pc)
  {
  }

  lemma RedatedAsked(h: History, sc: map<nat, seq<string>>, t: nat, call: Call, row: TokenRow, expiration: int)
    requires RowAsked(h, sc, t, call, row)
    ensures RowAsked(h, sc, t, call, row.(expiration := expiration))
  {
  }

  lemma MoverAsked(s: System, sc: map<nat, seq<string>>, t: nat)
    requires t in s.threads && CanMove(s.threads[t].pc) && ThreadAsked(s.history, sc, t, s.threads[t])
    requires LocalsOk(s, t, s.threads[t]) && HistoryGrows(s.history, MoveThread(s, t).history)
    requires forall r :: r in s.db.refreshTokens ==> s.db.refreshTokens[r].id == r && RefreshRowOk(s.history, s.db.refreshTokens[r])
    ensures ThreadAsked(MoveThread(s, t).history, sc, t, MoveThread(s, t).threads[t])
  {
    var s' := MoveThread(s, t);
    var pc, pc' := s.threads[t].pc, s'.threads[t].pc;
    forall d' | d' in DraftIn(pc')
      ensures RowAsked(s'.history, sc, t, s'.threads[t].call, d')
    {
      DraftKept(s, t, d');
      var d :| d in DraftIn(pc) && d' == d.(expiration := d'.expiration);
      RowStays(s.history, s'.history, sc, sc, t, s.threads[t].call, d);
      RedatedAsked(s'.history, sc, t, s'.threads[t].call, d, d'.expiration);
    }
    if pc'.InRenew? && pc'.renew.RenewLoaded? {
      LoadedAsked(s.history, sc, t, pc'.renew.current, pc'.renew.loaded);
    }
  }

  /** The id of a draft is on record as drawn by its call. */
  lemma DraftOwned(s: System, t: nat, d: TokenRow)
    requires t in s.threads && LocalsOk(s, t, s.threads[t]) && d in DraftIn(s.threads[t].pc)
    ensures IsAccess(s.history, d.id) && s.history.minted[d.id].owner == t
  {
  }

  lemma MoveStored(s: System, sc: map<nat, seq<string>>, t: nat, a: string)
    requires t in s.threads && CanMove(s.threads[t].pc) && LocalsOk(s, t, s.threads[t])
    requires ThreadAsked(s.history, sc, t, s.threads[t]) && (a in s.db.tokens ==> StoredAsked(s, sc, a))
    requires HistoryGrows(s.history, MoveThread(s, t).history) && a in MoveThread(s, t).db.tokens
    ensures StoredAsked(MoveThread(s, t), sc, a)
  {
    var s' := MoveThread(s, t);
    DraftStored(s, t, a);
    MoveOpens(s, t);
    if a in s.db.tokens && s'.db.tokens[a] == s.db.tokens[a] {
      StoredStays(s, s', sc, sc, a);
    } else {
      DraftOwned(s, t, s'.db.tokens[a]);
      RowStays(s.history, s'.history, sc, sc, t, s.threads[t].call, s'.db.tokens[a]);
    }
  }

  lemma MoveKeepsAsked(s: System, sc: map<nat, seq<string>>, t: nat)
    requires Inv(s) && AllAsked(s, sc) && t in s.threads && CanMove(s.threads[t].pc)
    requires HistoryGrows(s.history, MoveThread(s, t).history)
    ensures AllAsked(MoveThread(s, t), sc)
  {
    var s' := MoveThread(s, t);
    MoverAsked(s, sc, t);
    forall u | u in s'.threads
      ensures ThreadAsked(s'.history, sc, u, s'.threads[u])
    {
      if u != t { ThreadStays(s.history, s'.history, sc, sc, u, s.threads[u]); }
    }
    forall a | a in s'.db.tokens
      ensures StoredAsked(s', sc, a)
    {
      MoveStored(s, sc, t, a);
    }
  }

  /** A label that stores nothing and changes at most one thread. */
  lemma QuietKeepsAsked(s: System, s': System, sc: map<nat, seq<string>>, sc': map<nat, seq<string>>, t: nat)
    requires AllAsked(s, sc) && HistoryGrows(s.history, s'.history) && s'.db.tokens == s.db.tokens
    requires forall u :: u in s'.threads && u != t ==> u in s.threads && s'.threads[u] == s.threads[u] && SameSet(sc, sc', u)
    requires ThreadsStay(s, s') && sc'.Keys <= s'.threads.Keys
    requires t in s.threads && !Open(s.threads[t].pc) ==> SameSet(sc, sc', t)
    requires t in s'.threads ==> ThreadAsked(s'.history, sc', t, s'.threads[t])
    ensures AllAsked(s', sc')
  {
    forall u | u in s'.threads
      ensures ThreadAsked(s'.history, sc', u, s'.threads[u])
    {
      if u != t { ThreadStays(s.history, s'.history, sc, sc', u, s.threads[u]); }
    }
    forall a | a in s'.db.tokens
      ensures StoredAsked(s', sc', a)
    {
      StoredStays(s, s', sc, sc', a);
    }
  }

  lemma SameKeepsAsked(s: System, s': System, sc: map<nat, seq<string>>)
    requires AllAsked(s, sc) && s'.history == s.history && s'.db.tokens == s.db.tokens && s'.threads == s.threads
    ensures AllAsked(s', sc)
  {
    QuietKeepsAsked(s, s', sc, sc, 0);
  }

  lemma DrawTouches(s: System, t: nat, r: string, a: string)
    requires t in s.threads
    ensures var s' := Exec(s, DrawIds(t, r, a));
      && s'.db == s.db && s'.threads.Keys == s.threads.Keys
      && (forall u :: u in s.threads && u != t ==> s'.threads[u] == s.threads[u])
      && s'.threads[t].call == s.threads[t].call
      && (AwaitsIds(s.threads[t].pc) && FreshIds(s.history, r, a) ==> !Open(s'.threads[t].pc))
      && (!(AwaitsIds(s.threads[t].pc) && FreshIds(s.history, r, a)) ==> s' == s)
  {
  }

  lemma DrawKeepsAsked(s: System, sc: map<nat, seq<string>>, t: nat, r: string, a: string)
    requires Inv(s) && AllAsked(s, sc) && HistoryGrows(s.history, Exec(s, DrawIds(t, r, a)).history)
    ensures AllAsked(Exec(s, DrawIds(t, r, a)), sc)
  {
    if t in s.threads {
      DrawTouches(s, t, r, a);
      if AwaitsIds(s.threads[t].pc) && FreshIds(s.history, r, a) {
        DrawAsked(s, sc, t, r, a);
        QuietKeepsAsked(s, Exec(s, DrawIds(t, r, a)), sc, sc, t);
      }
    }
  }

  lemma NarrowKeepsAsked(s: System, sc: map<nat, seq<string>>, t: nat, scopes: seq<string>)
    requires AllAsked(s, sc)
    ensures AllAsked(Exec(s, Narrow(t, scopes)), SetAfter(sc, s, Narrow(t, scopes)))
  {
    if t in s.threads {
      NarrowAsked(s, sc, t, scopes);
      QuietKeepsAsked(s, Exec(s, Narrow(t, scopes)), sc, SetAfter(sc, s, Narrow(t, scopes)), t);
    }
  }

  lemma StartKeepsAsked(s: System, sc: map<nat, seq<string>>, t: nat, call: Call)
    requires AllAsked(s, sc)
    ensures AllAsked(Exec(s, Start(t, call)), sc)
  {
    if t !in s.threads {
      QuietKeepsAsked(s, Exec(s, Start(t, call)), sc, sc, t);
    }
  }

  lemma AbandonKeepsAsked(s: System, sc: map<nat, seq<string>>, t: nat)
    requires AllAsked(s, sc)
    ensures AllAsked(Exec(s, Abandon(t)), sc)
  {
    if t in s.threads && !s.threads[t].pc.Done? {
      QuietKeepsAsked(s, Exec(s, Abandon(t)), sc, sc, t);
    }
  }

  lemma StepKeepsAsked(s: System, sc: map<nat, seq<string>>, l: Label)
    requires Inv(s) && AllAsked(s, sc)
    ensures AllAsked(Exec(s, l), SetAfter(sc, s, l))
  {
    ExecInterferes(s, l);
    match l
    case Start(t, call) => StartKeepsAsked(s, sc, t, call);
    case DrawIds(t, r, a) => DrawKeepsAsked(s, sc, t, r, a);
    case Narrow(t, scopes) => NarrowKeepsAsked(s, sc, t, scopes);
    case Move(t) => if t in s.threads && CanMove(s.threads[t].pc) { MoveKeepsAsked(s, sc, t); }
    case Abandon(t) => AbandonKeepsAsked(s, sc, t);
    case Tick(_) => SameKeepsAsked(s, Exec(s, l), sc);
    case Reconfigure(_) => SameKeepsAsked(s, Exec(s, l), sc);
  }

  lemma {:induction false} AskedRun(ls: seq<Label>)
    ensures AllAsked(Run(ls), ScopesSet(ls))
  {
    if ls != [] {
      var front := ls[..|ls| - 1];
      AskedRun(front);
      RunKeeps(front);
      StepKeepsAsked(Run(front), ScopesSet(front), ls[|ls| - 1]);
    }
  }

  /** In every interleaving, each stored access token was drawn by one call and says what that call
      was asked for: a request's own client, subject, audience and scopes, kind by kind; for a
      renewal those of the login at the head of the chain, but for scopes: these are the last ones
      that its caller set on the loaded request, if it set any. */
  lemma AccessTokensSayWhatWasAsked(ls: seq<Label>, a: string)
    requires a in Run(ls).db.tokens
    ensures var s := Run(ls); var row := s.db.tokens[a];
      && IsAccess(s.history, a) && s.history.minted[a].owner in s.threads
      && var t := s.history.minted[a].owner;
         match s.threads[t].call
         case IssueAccess(req) =>
           row.refreshTokenId == "" && AccessAsked(req, row.applicationId, row.subject, row.audience, row.scopes)
         case Issue(req) => PairAsked(req, row.applicationId, row.subject, row.audience, row.scopes)
         case Renew(current) =>
           && Root(s.history, current) in s.history.grants
           && var g := s.history.grants[Root(s.history, current)];
              && row.applicationId == g.client && row.subject == g.user && row.audience == g.audience
              && row.scopes == if t in ScopesSet(ls) then ScopesSet(ls)[t] else g.scopes
         case _ => false
  {
    AskedRun(ls);
    assert StoredAsked(Run(ls), ScopesSet(ls), a);
  }

  // ---- Tokens handed out ----------------------------------------------------------------------------

  predicate HandsOver(th: Thread, a: string) {
    match th.pc
    case Done(AccessIssued(access, _)) => access == a
    case Done(Issued(access, _, _)) => access == a
    case Done(Renewed(access, _, _)) => access == a
    case _ => false
  }

  ghost predicate HandedOver(s: System, a: string) {
    exists t :: t in s.threads && HandsOver(s.threads[t], a)
  }

  lemma HandedStep(s: System, l: Label, a: string)
    requires a in s.history.returned <==> HandedOver(s, a)
    ensures a in Exec(s, l).history.returned <==> HandedOver(Exec(s, l), a)
  {
    var s' := Exec(s, l);
    if HandedOver(s, a) {
      var t :| t in s.threads && HandsOver(s.threads[t], a);
      assert t in s'.threads && HandsOver(s'.threads[t], a);
    }
    if t :| t in s'.threads && HandsOver(s'.threads[t], a) && !(t in s.threads && HandsOver(s.threads[t], a)) {
      assert l == Move(t);
    }
    if a in s'.history.returned && a !in s.history.returned {
      assert l.Move? && HandsOver(s'.threads[l.t], a);
    }
  }

  /** In every run, an access token is on record as returned if and only if some call returned it. */
  lemma {:induction false} ReturnedIffHandedOver(ls: seq<Label>, a: string)
    ensures a in Run(ls).history.returned <==> HandedOver(Run(ls), a)
  {
    if ls != [] {
      ReturnedIffHandedOver(ls[..|ls| - 1], a);
      HandedStep(Run(ls[..|ls| - 1]), ls[|ls| - 1], a);
    }
  }

  /** The live access tokens that the theorems on chains speak of are those that are stored, came with
      a refresh token, and were returned by some call; their chain is that refresh token's. */
  lemma LiveIffUsable(ls: seq<Label>, a: string)
    ensures var s := Run(ls);
      && (Live(s, a) <==> a in s.db.tokens && s.db.tokens[a].refreshTokenId != "" && HandedOver(s, a))
      && (Live(s, a) ==> ChainOf(s.history, a) == Root(s.history, s.db.tokens[a].refreshTokenId))
  {
    RunKeeps(ls);
    ReturnedIffHandedOver(ls, a);
    assert a in Run(ls).db.tokens ==> TokenRowOk(Run(ls).history, Run(ls).db.tokens[a]);
  }
}
