/** What every statement of every token call keeps, whatever else is in flight. */
module TokenInvariant {
  import opened Prelude
  import opened TokenTables
  import opened TokenMachine

  // ---- Records of drawn ids -----------------------------------------------------------

  predicate IsRefresh(h: History, r: string) {
    r in h.minted && h.minted[r].Refresh?
  }

  predicate IsAccess(h: History, a: string) {
    a in h.minted && h.minted[a].Access?
  }

  /** The refresh token id r belongs to a recorded chain, and its partner knows it. */
  predicate RefreshRecordOk(h: History, r: string)
    requires IsRefresh(h, r)
  {
    var m := h.minted[r];
    && m.access in h.minted && h.minted[m.access] == Access(m.owner, r)
    && m.root in h.grants && IsRefresh(h, m.root) && h.minted[m.root].root == m.root
    && (m.root == r || m.root in h.inserted)
    && (r in h.inserted ==> m.access in h.inserted)
  }

  predicate AccessRecordOk(h: History, a: string)
    requires IsAccess(h, a)
  {
    var m := h.minted[a];
    m.refresh != "" ==> IsRefresh(h, m.refresh) && h.minted[m.refresh].access == a
  }

  ghost predicate HistoryOk(h: History) {
    && "" !in h.minted
    && h.grants.Keys <= h.minted.Keys
    && h.inserted <= h.minted.Keys
    && h.returned <= h.inserted
    && (forall r :: IsRefresh(h, r) ==> RefreshRecordOk(h, r))
    && (forall a :: IsAccess(h, a) ==> AccessRecordOk(h, a))
    && (forall a :: a in h.returned ==>
          IsAccess(h, a) && (h.minted[a].refresh != "" ==> h.minted[a].refresh in h.inserted))
  }

  // ---- Rows -----------------------------------------------------------------------------

  /** The row carries what the grant handed out, scopes aside. */
  predicate CarriesGrant(row: RefreshRow, g: Grant) {
    && row.userId == g.user && row.applicationId == g.client && row.audience == g.audience
    && row.amr == g.amr && row.authTime == g.authTime
  }

  predicate RefreshRowOk(h: History, row: RefreshRow) {
    && IsRefresh(h, row.id) && row.id in h.inserted
    && row.token == row.id
    && row.accessToken == h.minted[row.id].access
    && h.minted[row.id].root in h.grants
    && CarriesGrant(row, h.grants[h.minted[row.id].root])
    && row.scopes == h.grants[h.minted[row.id].root].scopes
  }

  predicate BooksGrant(h: History, row: TokenRow)
    requires IsRefresh(h, row.refreshTokenId)
  {
    var root := h.minted[row.refreshTokenId].root;
    root in h.grants && row.subject == h.grants[root].user && row.applicationId == h.grants[root].client
  }

  predicate TokenRowOk(h: History, row: TokenRow) {
    && IsAccess(h, row.id) && row.id in h.inserted
    && row.refreshTokenId == h.minted[row.id].refresh
    && (row.refreshTokenId != "" ==> IsRefresh(h, row.refreshTokenId) && BooksGrant(h, row))
  }

  ghost predicate TablesOk(db: Tables, h: History) {
    && (forall r :: r in db.refreshTokens ==> db.refreshTokens[r].id == r && RefreshRowOk(h, db.refreshTokens[r]))
    && (forall a :: a in db.tokens ==> db.tokens[a].id == a && TokenRowOk(h, db.tokens[a]))
  }

  // ---- Calls in flight --------------------------------------------------------------------

  /** Thread t alone may insert the draft's access token and, when there is one, its refresh token. */
  predicate DraftOk(h: History, t: nat, draft: TokenRow) {
    && draft.id in h.minted && h.minted[draft.id] == Access(t, draft.refreshTokenId)
    && IsRefresh(h, draft.refreshTokenId)
    && h.minted[draft.refreshTokenId].owner == t
    && h.minted[draft.refreshTokenId].access == draft.id
    && BooksGrant(h, draft)
  }

  predicate IssueOk(h: History, t: nat, request: TokenRequest, draft: TokenRow, amr: seq<string>, authTime: Time) {
    && DraftOk(h, t, draft)
    && h.minted[draft.refreshTokenId].root == draft.refreshTokenId
    && h.grants[draft.refreshTokenId] == GrantOf(request)
    && h.grants[draft.refreshTokenId] ==
         Grant(draft.subject, draft.applicationId, draft.audience, amr, authTime, draft.scopes)
  }

  predicate RenewOk(h: History, t: nat, current: string, draft: TokenRow) {
    && DraftOk(h, t, draft)
    && IsRefresh(h, current) && current in h.inserted
    && h.minted[draft.refreshTokenId].root == h.minted[current].root
  }

  predicate LoadedOk(h: History, current: string, row: RefreshRow) {
    && row.id == current && IsRefresh(h, current) && current in h.inserted
    && h.minted[current].root in h.grants
    && CarriesGrant(row, h.grants[h.minted[current].root])
  }

  /** A refresh token that was issued and is no longer there. */
  predicate Gone(s: System, r: string) {
    r in s.history.inserted && r !in s.db.refreshTokens && r !in s.db.tokens
  }

  predicate Neither(h: History, draft: TokenRow) {
    draft.id !in h.inserted && draft.refreshTokenId !in h.inserted
  }

  predicate OnlyAccess(h: History, draft: TokenRow) {
    draft.id in h.inserted && draft.refreshTokenId !in h.inserted
  }

  predicate AccessLocals(h: History, t: nat, request: TokenRequest, pc: AccessPc) {
    match pc
    case AccessStart(req) => req == request
    case AccessLookup(d) => d.refreshTokenId == "" && d.id in h.minted && h.minted[d.id] == Access(t, "") && d.id !in h.inserted
    case AccessInsert(d) => d.refreshTokenId == "" && d.id in h.minted && h.minted[d.id] == Access(t, "") && d.id !in h.inserted
  }

  predicate IssueLocals(h: History, t: nat, request: TokenRequest, pc: IssuePc) {
    match pc
    case IssueStart(req) => req == request
    case IssueLookup(d, amr, at) => IssueOk(h, t, request, d, amr, at) && Neither(h, d)
    case IssueInsert(d, amr, at) => IssueOk(h, t, request, d, amr, at) && Neither(h, d)
    case IssueRefreshLookup(d, amr, at) => IssueOk(h, t, request, d, amr, at) && OnlyAccess(h, d)
    case IssueRefreshInsert(d, amr, at, _) => IssueOk(h, t, request, d, amr, at) && OnlyAccess(h, d)
  }

  /** What a returned login handed out is recorded under its refresh token. */
  predicate IssuedOk(h: History, t: nat, request: TokenRequest, a: string, r: string) {
    && r in h.minted && h.minted[r] == Refresh(t, a, r) && r in h.inserted
    && r in h.grants && h.grants[r] == GrantOf(request)
  }

  predicate RenewLocals(s: System, t: nat, current: string, pc: RenewPc) {
    var h := s.history;
    && pc.current == current
    && match pc
       case RenewLoad(c) => true
       case RenewLoaded(c, row) => LoadedOk(h, c, row)
       case RenewLookup(c, d) => RenewOk(h, t, c, d) && Neither(h, d)
       case RenewInsert(c, d) => RenewOk(h, t, c, d) && Neither(h, d)
       case RenewReload(c, d) => RenewOk(h, t, c, d) && OnlyAccess(h, d)
       case RenewDeleteRefresh(c, d, row) =>
         c == row.id && RenewOk(h, t, c, d) && OnlyAccess(h, d) && RefreshRowOk(h, row)
       case RenewDeleteAccess(c, d, row) =>
         c == row.id && RenewOk(h, t, c, d) && OnlyAccess(h, d) && RefreshRowOk(h, row) && Gone(s, c)
       case RenewInsertRefresh(c, d, row) =>
         c == row.id && RenewOk(h, t, c, d) && OnlyAccess(h, d) && RefreshRowOk(h, row)
         && Gone(s, c) && Gone(s, row.accessToken)
  }

  /** A returned renewal: the renewed token and its access token are gone, and the new pair
      continues the chain. */
  predicate RenewedOk(s: System, t: nat, current: string, a: string, r: string) {
    var h := s.history;
    && IsRefresh(h, current) && Gone(s, current) && Gone(s, h.minted[current].access)
    && r in h.minted && h.minted[r] == Refresh(t, a, h.minted[current].root) && r in h.inserted
    && r != current
  }

  predicate RevokeLocals(s: System, token: string, client: string, pc: RevokePc, mark: set<string>) {
    var h := s.history;
    match pc
    case RevokeLookup(x, c) => x == token && c == client
    case RevokeDeleteAccess(x) => x == token && IsAccess(h, x) && x in h.inserted
    case RevokeLoad(x, c) => x == token && c == client && (x in mark ==> x !in s.db.tokens)
    case RevokeDeleteRefresh(row) => row.id == token && RefreshRowOk(h, row)
    case RevokeDeletePartner(row) => row.id == token && RefreshRowOk(h, row) && Gone(s, row.id)
  }

  predicate RevokedOk(s: System, token: string, outcome: Outcome, mark: set<string>) {
    match outcome
    case RevokedAccess => Gone(s, token)
    case RevokedRefresh => IsRefresh(s.history, token) && Gone(s, token) && Gone(s, s.history.minted[token].access)
    case RevokedUnknown => token in mark ==> Gone(s, token)
    case _ => outcome.Failed? || outcome.Abandoned?
  }

  predicate TerminateLocals(user: string, client: string, pc: TerminatePc) {
    pc.user == user && pc.client == client
  }

  /** What holds once a call is over. Logins never fail. */
  predicate OutcomeOk(s: System, t: nat, th: Thread, outcome: Outcome) {
    match th.call
    case IssueAccess(_) => outcome.AccessIssued? || outcome.Abandoned?
    case Issue(req) =>
      outcome.Abandoned? || (outcome.Issued? && IssuedOk(s.history, t, req, outcome.access, outcome.refresh))
    case Renew(current) =>
      outcome.Abandoned? || outcome.Failed?
      || (outcome.Renewed? && RenewedOk(s, t, current, outcome.access, outcome.refresh))
    case Revoke(token, _, _) => RevokedOk(s, token, outcome, th.mark)
    case Terminate(_, _) => outcome.Terminated? || outcome.Abandoned?
  }

  /** What holds of thread t's local variables at each statement, under any interference. */
  predicate LocalsOk(s: System, t: nat, th: Thread) {
    match th.pc
    case InAccess(p) => th.call.IssueAccess? && AccessLocals(s.history, t, th.call.request, p)
    case InIssue(p) => th.call.Issue? && IssueLocals(s.history, t, th.call.request, p)
    case InRenew(p) => th.call.Renew? && RenewLocals(s, t, th.call.current, p)
    case InRevoke(p) => th.call.Revoke? && RevokeLocals(s, th.call.token, th.call.client, p, th.mark)
    case InTerminate(p) => th.call.Terminate? && TerminateLocals(th.call.user, th.call.client, p)
    case Done(o) => OutcomeOk(s, t, th, o)
  }

  ghost predicate ThreadsOk(s: System) {
    forall t :: t in s.threads ==>
      && s.threads[t].mark <= s.history.inserted
      && LocalsOk(s, t, s.threads[t])
  }

  ghost predicate Inv(s: System) {
    HistoryOk(s.history) && TablesOk(s.db, s.history) && ThreadsOk(s)
  }

  // ---- Interference -------------------------------------------------------------------------

  predicate HistoryGrows(h: History, h': History) {
    && (forall x :: x in h.minted ==> x in h'.minted && h'.minted[x] == h.minted[x])
    && (forall g :: g in h.grants ==> g in h'.grants && h'.grants[g] == h.grants[g])
    && h.inserted <= h'.inserted
  }

  /** The effect of any step of thread `mover` on what other threads rely on: history only
      grows, and a row appears only under an id that was never inserted and that `mover` drew. */
  ghost predicate Interferes(s: System, s': System, mover: nat) {
    && HistoryGrows(s.history, s'.history)
    && (forall x :: x in s'.history.inserted && x !in s.history.inserted ==>
          x in s'.history.minted && s'.history.minted[x].owner == mover)
    && (forall x {:trigger x in s'.db.tokens} :: x in s'.db.tokens && x in s.history.inserted ==> x in s.db.tokens)
    && (forall x {:trigger x in s'.db.refreshTokens} :: x in s'.db.refreshTokens && x in s.history.inserted ==> x in s.db.refreshTokens)
  }

  lemma GoneIsForGood(s: System, s': System, mover: nat, x: string)
    requires Interferes(s, s', mover) && Gone(s, x)
    ensures Gone(s', x)
  {
  }

  lemma RenewStable(s: System, s': System, mover: nat, t: nat, current: string, p: RenewPc)
    requires Interferes(s, s', mover) && t != mover && RenewLocals(s, t, current, p)
    ensures RenewLocals(s', t, current, p)
  {
  }

  lemma RevokeStable(s: System, s': System, mover: nat, token: string, client: string, p: RevokePc, mark: set<string>)
    requires Interferes(s, s', mover) && RevokeLocals(s, token, client, p, mark) && mark <= s.history.inserted
    ensures RevokeLocals(s', token, client, p, mark)
  {
  }

  lemma OutcomeStable(s: System, s': System, mover: nat, t: nat, th: Thread, outcome: Outcome)
    requires Interferes(s, s', mover) && OutcomeOk(s, t, th, outcome) && th.mark <= s.history.inserted
    ensures OutcomeOk(s', t, th, outcome)
  {
  }

  /** What a thread relies on survives every step of another thread. */
  lemma LocalsStable(s: System, s': System, mover: nat, t: nat, th: Thread)
    requires Interferes(s, s', mover) && t != mover
    requires LocalsOk(s, t, th) && th.mark <= s.history.inserted
    ensures LocalsOk(s', t, th)
  {
    match th.pc
    case InAccess(_) =>
    case InIssue(_) =>
    case InRenew(p) => RenewStable(s, s', mover, t, th.call.current, p);
    case InRevoke(p) => RevokeStable(s, s', mover, th.call.token, th.call.client, p, th.mark);
    case InTerminate(_) =>
    case Done(o) => OutcomeStable(s, s', mover, t, th, o);
  }
}
