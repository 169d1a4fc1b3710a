/** Every label keeps the token invariant. */
module TokenPreservation {
  import opened Prelude
  import opened TokenTables
  import opened TokenMachine
  import opened TokenInvariant

  /** A step of `mover` only has to answer for the tables, the history and its own locals. */
  lemma Assemble(s: System, s': System, mover: nat)
    requires Inv(s) && Interferes(s, s', mover)
    requires HistoryOk(s'.history) && TablesOk(s'.db, s'.history)
    requires mover in s'.threads && s'.threads == s.threads[mover := s'.threads[mover]]
    requires LocalsOk(s', mover, s'.threads[mover])
    requires s'.threads[mover].mark <= s'.history.inserted
    ensures Inv(s')
  {
    forall t | t in s'.threads && t != mover
      ensures s'.threads[t].mark <= s'.history.inserted
      ensures LocalsOk(s', t, s'.threads[t])
    {
      LocalsStable(s, s', mover, t, s.threads[t]);
    }
  }

  lemma StartKeeps(s: System, t: nat, call: Call)
    requires Inv(s)
    ensures Inv(Exec(s, Start(t, call)))
  {
    var s' := Exec(s, Start(t, call));
    if t !in s.threads {
      Assemble(s, s', t);
    }
  }

  /** Drawing ids records them consistently. */
  lemma RecordKeeps(h: History, t: nat, pc: Pc, r: string, a: string)
    requires HistoryOk(h) && AwaitsIds(pc) && FreshIds(h, r, a)
    requires pc.InRenew? ==> LoadedOk(h, pc.renew.current, pc.renew.loaded)
    ensures var h' := Record(h, t, pc, r, a); HistoryOk(h') && HistoryGrows(h, h')
  {
    var h' := Record(h, t, pc, r, a);
    forall x | IsRefresh(h', x)
      ensures RefreshRecordOk(h', x)
    {
      if x != r {
        assert IsRefresh(h, x) && RefreshRecordOk(h, x);
      } else if pc.InRenew? {
        assert RefreshRecordOk(h, pc.renew.current);
      }
    }
    forall x | IsAccess(h', x)
      ensures AccessRecordOk(h', x)
    {
      if x != a {
        assert IsAccess(h, x) && AccessRecordOk(h, x);
      }
    }
  }

  lemma DrawTables(s: System, s': System)
    requires TablesOk(s.db, s.history) && s'.db == s.db && HistoryGrows(s.history, s'.history)
    ensures TablesOk(s'.db, s'.history)
  {
  }

  lemma DrawLocals(s: System, t: nat, r: string, a: string)
    requires HistoryOk(s.history) && t in s.threads && AwaitsIds(s.threads[t].pc) && FreshIds(s.history, r, a)
    requires LocalsOk(s, t, s.threads[t])
    ensures var s' := Exec(s, DrawIds(t, r, a)); LocalsOk(s', t, s'.threads[t])
  {
    var pc := s.threads[t].pc;
    if pc.InRenew? {
      assert RefreshRecordOk(s.history, pc.renew.current);
    }
  }

  lemma DrawKeeps(s: System, t: nat, r: string, a: string)
    requires Inv(s)
    ensures Inv(Exec(s, DrawIds(t, r, a)))
  {
    var s' := Exec(s, DrawIds(t, r, a));
    if t in s.threads && AwaitsIds(s.threads[t].pc) && FreshIds(s.history, r, a) {
      var th := s.threads[t];
      assert LocalsOk(s, t, th);
      RecordKeeps(s.history, t, th.pc, r, a);
      DrawTables(s, s');
      DrawLocals(s, t, r, a);
      Assemble(s, s', t);
    }
  }

  lemma NarrowKeeps(s: System, t: nat, scopes: seq<string>)
    requires Inv(s)
    ensures Inv(Exec(s, Narrow(t, scopes)))
  {
    var s' := Exec(s, Narrow(t, scopes));
    if t in s.threads && s.threads[t].pc.InRenew? && s.threads[t].pc.renew.RenewLoaded? {
      assert LocalsOk(s, t, s.threads[t]);
      Assemble(s, s', t);
    }
  }

  lemma AbandonKeeps(s: System, t: nat)
    requires Inv(s)
    ensures Inv(Exec(s, Abandon(t)))
  {
    var s' := Exec(s, Abandon(t));
    if t in s.threads && !s.threads[t].pc.Done? {
      Assemble(s, s', t);
    }
  }

  // ---- What a single statement does to the tables ----------------------------------------

  ghost predicate Sound(s: System) {
    HistoryOk(s.history) && TablesOk(s.db, s.history)
  }

  predicate HandsOut(pc: Pc) {
    pc.Done? && (pc.outcome.AccessIssued? || pc.outcome.Issued? || pc.outcome.Renewed?)
  }

  /** Reading, or deleting any rows. */
  lemma DeletionSound(s: System, t: nat, db: Tables, pc: Pc)
    requires Sound(s) && t in s.threads && !HandsOut(pc)
    requires db.tokens.Keys <= s.db.tokens.Keys && db.refreshTokens.Keys <= s.db.refreshTokens.Keys
    requires forall a :: a in db.tokens ==> db.tokens[a] == s.db.tokens[a]
    requires forall r :: r in db.refreshTokens ==> db.refreshTokens[r] == s.db.refreshTokens[r]
    ensures After(s, t, db, pc).history == s.history
    ensures Sound(After(s, t, db, pc)) && Interferes(s, After(s, t, db, pc), t)
  {
    assert After(s, t, db, pc).history.inserted == s.history.inserted;
  }

  ghost predicate OwnToken(s: System, t: nat, row: TokenRow) {
    && row.id in s.history.minted && s.history.minted[row.id] == Access(t, row.refreshTokenId)
    && row.id !in s.history.inserted
    && (row.refreshTokenId != "" ==>
          IsRefresh(s.history, row.refreshTokenId) && BooksGrant(s.history, row)
          && row.refreshTokenId !in s.history.inserted)
  }

  lemma TablesGrow(db: Tables, h: History, h': History)
    requires TablesOk(db, h) && HistoryGrows(h, h')
    ensures TablesOk(db, h')
  {
  }

  /** Inserting an access token row under an id of one's own. */
  lemma TokenInsertSound(s: System, t: nat, row: TokenRow, pc: Pc)
    requires Sound(s) && t in s.threads && OwnToken(s, t, row)
    requires HandsOut(pc) ==> pc.outcome.access == row.id && row.refreshTokenId == ""
    ensures row.id !in s.db.tokens
    ensures var s' := After(s, t, s.db.(tokens := s.db.tokens[row.id := row]), pc);
      && s'.history == s.history.(inserted := s.history.inserted + {row.id}, returned := s'.history.returned)
      && Sound(s') && Interferes(s, s', t)
  {
    var s' := After(s, t, s.db.(tokens := s.db.tokens[row.id := row]), pc);
    assert s'.history.inserted == s.history.inserted + {row.id};
    forall r | IsRefresh(s'.history, r)
      ensures RefreshRecordOk(s'.history, r)
    {
      assert IsRefresh(s.history, r) && RefreshRecordOk(s.history, r);
    }
    forall a | IsAccess(s'.history, a)
      ensures AccessRecordOk(s'.history, a)
    {
      assert IsAccess(s.history, a) && AccessRecordOk(s.history, a);
    }
  }

  ghost predicate OwnRefresh(s: System, t: nat, row: RefreshRow) {
    && IsRefresh(s.history, row.id) && s.history.minted[row.id].owner == t && row.id !in s.history.inserted
    && row.accessToken == s.history.minted[row.id].access && row.accessToken in s.history.inserted
    && RefreshRowOk(s.history.(inserted := s.history.inserted + {row.id}), row)
  }

  /** The history keeps its order when an id of a recorded pair enters the tables. */
  lemma InsertedHistoryOk(h: History, x: string, returned: set<string>)
    requires HistoryOk(h) && IsRefresh(h, x) && h.minted[x].access in h.inserted
    requires returned == h.returned + {h.minted[x].access}
    ensures HistoryOk(h.(inserted := h.inserted + {x}, returned := returned))
  {
    var h' := h.(inserted := h.inserted + {x}, returned := returned);
    assert RefreshRecordOk(h, x);
    forall r | IsRefresh(h', r)
      ensures RefreshRecordOk(h', r)
    {
      assert IsRefresh(h, r) && RefreshRecordOk(h, r);
    }
    forall a | IsAccess(h', a)
      ensures AccessRecordOk(h', a)
    {
      assert IsAccess(h, a) && AccessRecordOk(h, a);
    }
  }

  /** Inserting a refresh token row under an id of one's own, and handing its access token out. */
  lemma RefreshInsertSound(s: System, t: nat, row: RefreshRow, pc: Pc)
    requires Sound(s) && t in s.threads && OwnRefresh(s, t, row)
    requires HandsOut(pc) && pc.outcome.access == row.accessToken
    ensures row.id !in s.db.refreshTokens
    ensures var s' := After(s, t, s.db.(refreshTokens := s.db.refreshTokens[row.id := row]), pc);
      && s'.history == s.history.(inserted := s.history.inserted + {row.id},
                                  returned := s.history.returned + {row.accessToken})
      && Sound(s') && Interferes(s, s', t)
  {
    var s' := After(s, t, s.db.(refreshTokens := s.db.refreshTokens[row.id := row]), pc);
    assert s'.history.inserted == s.history.inserted + {row.id};
    InsertedHistoryOk(s.history, row.id, s'.history.returned);
    TablesGrow(s.db, s.history, s'.history);
    assert TablesOk(s'.db, s'.history);
  }

  // ---- The locals of the moving thread, program by program ----------------------------------

  lemma AccessLocalsMove(s: System, t: nat, p: AccessPc)
    requires t in s.threads && !p.AccessStart?
    requires s.threads[t].call.IssueAccess? && AccessLocals(s.history, t, s.threads[t].call.request, p)
    requires p.AccessInsert? ==> p.draft.id !in s.db.tokens
    ensures var (db, pc) := AdvanceAccess(s.db, p); var s' := After(s, t, db, pc);
      (p.AccessLookup? ==> s'.history == s.history) ==> LocalsOk(s', t, s'.threads[t])
  {
  }

  lemma IssueLocalsMove(s: System, t: nat, p: IssuePc)
    requires t in s.threads && !p.IssueStart?
    requires s.threads[t].call.Issue? && IssueLocals(s.history, t, s.threads[t].call.request, p)
    requires p.IssueInsert? ==> p.draft.id !in s.db.tokens
    requires p.IssueRefreshInsert? ==> p.draft.refreshTokenId !in s.db.refreshTokens
    ensures var (db, pc) := AdvanceIssue(s.db, s.clock, p); var s' := After(s, t, db, pc);
      (p.IssueLookup? || p.IssueRefreshLookup? ==> s'.history == s.history) ==>
      (p.IssueInsert? ==> s'.history.inserted == s.history.inserted + {p.draft.id}) ==>
      LocalsOk(s', t, s'.threads[t])
  {
  }

  lemma RenewReadLocals(s: System, t: nat, p: RenewPc)
    requires t in s.threads && (p.RenewLoad? || p.RenewLookup? || p.RenewReload?)
    requires s.threads[t].call.Renew? && RenewLocals(s, t, s.threads[t].call.current, p)
    requires p.current in s.db.refreshTokens ==>
      s.db.refreshTokens[p.current].id == p.current && RefreshRowOk(s.history, s.db.refreshTokens[p.current])
    ensures var (db, pc) := AdvanceRenew(s.db, s.clock, p); var s' := After(s, t, db, pc);
      s'.history == s.history ==> LocalsOk(s', t, s'.threads[t])
  {
  }

  lemma RenewInsertLocals(s: System, t: nat, p: RenewPc)
    requires t in s.threads && (p.RenewInsert? || p.RenewInsertRefresh?)
    requires s.threads[t].call.Renew? && RenewLocals(s, t, s.threads[t].call.current, p)
    requires p.RenewInsert? ==> p.draft.id !in s.db.tokens
    requires p.RenewInsertRefresh? ==> p.draft.refreshTokenId !in s.db.refreshTokens
    ensures var (db, pc) := AdvanceRenew(s.db, s.clock, p); var s' := After(s, t, db, pc);
      (p.RenewInsert? ==> s'.history.inserted == s.history.inserted + {p.draft.id}) ==>
      LocalsOk(s', t, s'.threads[t])
  {
  }

  lemma RenewDeleteLocals(s: System, t: nat, p: RenewPc)
    requires t in s.threads && (p.RenewDeleteRefresh? || p.RenewDeleteAccess?)
    requires s.threads[t].call.Renew? && RenewLocals(s, t, s.threads[t].call.current, p)
    requires RefreshRecordOk(s.history, p.current) && p.current !in s.db.tokens
    requires p.prior.accessToken !in s.db.refreshTokens
    ensures var (db, pc) := AdvanceRenew(s.db, s.clock, p); var s' := After(s, t, db, pc);
      s'.history == s.history ==> LocalsOk(s', t, s'.threads[t])
  {
  }

  lemma RevokeLocalsMove(s: System, t: nat, p: RevokePc)
    requires t in s.threads && s.threads[t].pc == InRevoke(p)
    requires s.threads[t].call.Revoke? && s.threads[t].mark <= s.history.inserted
    requires RevokeLocals(s, s.threads[t].call.token, s.threads[t].call.client, p, s.threads[t].mark)
    requires var x := s.threads[t].call.token;
      && (x in s.db.refreshTokens ==> s.db.refreshTokens[x].id == x && RefreshRowOk(s.history, s.db.refreshTokens[x]))
      && (x in s.db.tokens ==> IsAccess(s.history, x) && x in s.history.inserted)
      && (IsRefresh(s.history, x) ==> RefreshRecordOk(s.history, x))
      && (IsRefresh(s.history, x) ==> x !in s.db.tokens && s.history.minted[x].access !in s.db.refreshTokens)
      && (IsAccess(s.history, x) ==> x !in s.db.refreshTokens)
    ensures var (db, pc) := AdvanceRevoke(s.db, p); var s' := After(s, t, db, pc);
      s'.history == s.history ==> LocalsOk(s', t, s'.threads[t])
  {
  }

  // ---- Tables and locals together -----------------------------------------------------------

  ghost predicate Moved(s: System, t: nat, db: Tables, pc: Pc)
    requires t in s.threads
  {
    var s' := After(s, t, db, pc);
    Sound(s') && Interferes(s, s', t) && LocalsOk(s', t, s'.threads[t])
  }

  lemma AccessMoves(s: System, t: nat, p: AccessPc)
    requires Sound(s) && t in s.threads && !p.AccessStart?
    requires s.threads[t].call.IssueAccess? && AccessLocals(s.history, t, s.threads[t].call.request, p)
    ensures var (db, pc) := AdvanceAccess(s.db, p); Moved(s, t, db, pc)
  {
    if p.AccessLookup? {
      DeletionSound(s, t, s.db, InAccess(AccessInsert(Dated(s.db, p.draft))));
    } else {
      TokenInsertSound(s, t, p.draft, Done(AccessIssued(p.draft.id, p.draft.expiration)));
    }
    AccessLocalsMove(s, t, p);
  }

  lemma IssueReads(s: System, t: nat, p: IssuePc)
    requires Sound(s) && t in s.threads && (p.IssueLookup? || p.IssueRefreshLookup?)
    requires s.threads[t].call.Issue? && IssueLocals(s.history, t, s.threads[t].call.request, p)
    ensures var (db, pc) := AdvanceIssue(s.db, s.clock, p); Moved(s, t, db, pc)
  {
    var (db, pc) := AdvanceIssue(s.db, s.clock, p);
    DeletionSound(s, t, db, pc);
    IssueLocalsMove(s, t, p);
  }

  lemma IssueInserts(s: System, t: nat, p: IssuePc)
    requires Sound(s) && t in s.threads && p.IssueInsert?
    requires s.threads[t].call.Issue? && IssueLocals(s.history, t, s.threads[t].call.request, p)
    ensures var (db, pc) := AdvanceIssue(s.db, s.clock, p); Moved(s, t, db, pc)
  {
    TokenInsertSound(s, t, p.draft, InIssue(IssueRefreshLookup(p.draft, p.amr, p.authTime)));
    IssueLocalsMove(s, t, p);
  }

  /** The login's draft yields a refresh token row of its own. */
  lemma FirstRowOwned(s: System, t: nat, d: TokenRow, amr: seq<string>, authTime: Time, expiration: Time)
    requires t in s.threads && s.threads[t].call.Issue?
    requires IssueOk(s.history, t, s.threads[t].call.request, d, amr, authTime) && OnlyAccess(s.history, d)
    ensures OwnRefresh(s, t, FirstRefreshRow(d, amr, authTime, expiration))
  {
  }

  lemma IssuedLocals(s: System, s': System, t: nat, d: TokenRow, amr: seq<string>, authTime: Time)
    requires t in s.threads && s.threads[t].call.Issue? && t in s'.threads && s'.threads[t].call == s.threads[t].call
    requires IssueOk(s.history, t, s.threads[t].call.request, d, amr, authTime)
    requires s'.threads[t].pc.Done? && s'.threads[t].pc.outcome.Issued?
    requires s'.threads[t].pc.outcome.access == d.id && s'.threads[t].pc.outcome.refresh == d.refreshTokenId
    requires HistoryGrows(s.history, s'.history) && d.refreshTokenId in s'.history.inserted
    ensures LocalsOk(s', t, s'.threads[t])
  {
  }

  /** The statement that stores a login's refresh token, when its id is unused. */
  lemma AdvanceIssueInserts(db: Tables, now: Time, p: IssuePc)
    requires p.IssueRefreshInsert? && p.draft.refreshTokenId !in db.refreshTokens
    ensures var row := FirstRefreshRow(p.draft, p.amr, p.authTime, now + p.lifetime);
      AdvanceIssue(db, now, p) == (db.(refreshTokens := db.refreshTokens[row.id := row]),
                                   Done(Issued(p.draft.id, p.draft.refreshTokenId, p.draft.expiration)))
  {
  }

  lemma IssueStored(s: System, t: nat, d: TokenRow, amr: seq<string>, authTime: Time, expiration: Time)
    requires Sound(s) && t in s.threads && s.threads[t].call.Issue?
    requires IssueOk(s.history, t, s.threads[t].call.request, d, amr, authTime) && OnlyAccess(s.history, d)
    ensures d.refreshTokenId !in s.db.refreshTokens
    ensures var row := FirstRefreshRow(d, amr, authTime, expiration);
      Moved(s, t, s.db.(refreshTokens := s.db.refreshTokens[row.id := row]), Done(Issued(d.id, d.refreshTokenId, d.expiration)))
  {
    var row := FirstRefreshRow(d, amr, authTime, expiration);
    var pc := Done(Issued(d.id, d.refreshTokenId, d.expiration));
    FirstRowOwned(s, t, d, amr, authTime, expiration);
    RefreshInsertSound(s, t, row, pc);
    IssuedLocals(s, After(s, t, s.db.(refreshTokens := s.db.refreshTokens[row.id := row]), pc), t, d, amr, authTime);
  }

  lemma IssueRefreshInserts(s: System, t: nat, p: IssuePc)
    requires Sound(s) && t in s.threads && s.threads[t].call.Issue? && p.IssueRefreshInsert?
    requires IssueOk(s.history, t, s.threads[t].call.request, p.draft, p.amr, p.authTime) && OnlyAccess(s.history, p.draft)
    ensures var (db, pc) := AdvanceIssue(s.db, s.clock, p); Moved(s, t, db, pc)
  {
    IssueStored(s, t, p.draft, p.amr, p.authTime, s.clock + p.lifetime);
    AdvanceIssueInserts(s.db, s.clock, p);
  }

  lemma IssueMoves(s: System, t: nat, p: IssuePc)
    requires Sound(s) && t in s.threads && !p.IssueStart?
    requires s.threads[t].call.Issue? && IssueLocals(s.history, t, s.threads[t].call.request, p)
    ensures var (db, pc) := AdvanceIssue(s.db, s.clock, p); Moved(s, t, db, pc)
  {
    if p.IssueInsert? {
      IssueInserts(s, t, p);
    } else if p.IssueRefreshInsert? {
      IssueRefreshInserts(s, t, p);
    } else {
      IssueReads(s, t, p);
    }
  }

  lemma RenewReads(s: System, t: nat, p: RenewPc)
    requires Sound(s) && t in s.threads && (p.RenewLoad? || p.RenewLookup? || p.RenewReload?)
    requires s.threads[t].call.Renew? && RenewLocals(s, t, s.threads[t].call.current, p)
    ensures var (db, pc) := AdvanceRenew(s.db, s.clock, p); Moved(s, t, db, pc)
  {
    var (db, pc) := AdvanceRenew(s.db, s.clock, p);
    DeletionSound(s, t, db, pc);
    RenewReadLocals(s, t, p);
  }

  lemma RenewDeletes(s: System, t: nat, p: RenewPc)
    requires Sound(s) && t in s.threads && (p.RenewDeleteRefresh? || p.RenewDeleteAccess?)
    requires s.threads[t].call.Renew? && RenewLocals(s, t, s.threads[t].call.current, p)
    ensures var (db, pc) := AdvanceRenew(s.db, s.clock, p); Moved(s, t, db, pc)
  {
    var (db, pc) := AdvanceRenew(s.db, s.clock, p);
    assert RefreshRecordOk(s.history, p.current);
    DeletionSound(s, t, db, pc);
    RenewDeleteLocals(s, t, p);
  }

  lemma RenewInserts(s: System, t: nat, p: RenewPc)
    requires Sound(s) && t in s.threads && p.RenewInsert?
    requires s.threads[t].call.Renew? && RenewLocals(s, t, s.threads[t].call.current, p)
    ensures var (db, pc) := AdvanceRenew(s.db, s.clock, p); Moved(s, t, db, pc)
  {
    TokenInsertSound(s, t, p.draft, InRenew(RenewReload(p.current, p.draft)));
    RenewInsertLocals(s, t, p);
  }

  /** The renewal's draft and the renewed row yield a refresh token row of its own. */
  lemma RenewedRowOwned(s: System, t: nat, current: string, d: TokenRow, prior: RefreshRow, expiration: Time)
    requires RenewOk(s.history, t, current, d) && OnlyAccess(s.history, d)
    requires prior.id == current && RefreshRowOk(s.history, prior)
    ensures OwnRefresh(s, t, RenewedRow(prior, d.refreshTokenId, d.id, expiration))
  {
  }

  /** The statement that stores a renewed refresh token, when its id is unused. */
  lemma AdvanceRenewInserts(db: Tables, now: Time, p: RenewPc)
    requires p.RenewInsertRefresh? && p.draft.refreshTokenId !in db.refreshTokens
    ensures var row := RenewedRow(p.prior, p.draft.refreshTokenId, p.draft.id, now + FIVE_HOURS);
      AdvanceRenew(db, now, p) == (db.(refreshTokens := db.refreshTokens[row.id := row]),
                                   Done(Renewed(p.draft.id, p.draft.refreshTokenId, p.draft.expiration)))
  {
  }

  /** What the renewing thread relies on once its row is stored. */
  lemma RenewedLocals(s: System, s': System, t: nat, p: RenewPc)
    requires t in s.threads && t in s'.threads && s'.threads[t].call == s.threads[t].call == Renew(p.current)
    requires p.RenewInsertRefresh? && RenewOk(s.history, t, p.current, p.draft) && OnlyAccess(s.history, p.draft)
    requires p.prior.id == p.current && RefreshRowOk(s.history, p.prior)
    requires Gone(s, p.current) && Gone(s, p.prior.accessToken)
    requires s'.threads[t].pc.Done? && s'.threads[t].pc.outcome.Renewed?
    requires s'.threads[t].pc.outcome.access == p.draft.id && s'.threads[t].pc.outcome.refresh == p.draft.refreshTokenId
    requires Interferes(s, s', t) && p.draft.refreshTokenId in s'.history.inserted
    ensures LocalsOk(s', t, s'.threads[t])
  {
    GoneIsForGood(s, s', t, p.current);
    GoneIsForGood(s, s', t, p.prior.accessToken);
  }

  lemma RenewStored(s: System, t: nat, p: RenewPc, expiration: Time)
    requires Sound(s) && t in s.threads && s.threads[t].call == Renew(p.current) && p.RenewInsertRefresh?
    requires RenewOk(s.history, t, p.current, p.draft) && OnlyAccess(s.history, p.draft)
    requires p.prior.id == p.current && RefreshRowOk(s.history, p.prior)
    requires Gone(s, p.current) && Gone(s, p.prior.accessToken)
    ensures p.draft.refreshTokenId !in s.db.refreshTokens
    ensures var row := RenewedRow(p.prior, p.draft.refreshTokenId, p.draft.id, expiration);
      Moved(s, t, s.db.(refreshTokens := s.db.refreshTokens[row.id := row]),
            Done(Renewed(p.draft.id, p.draft.refreshTokenId, p.draft.expiration)))
  {
    var row := RenewedRow(p.prior, p.draft.refreshTokenId, p.draft.id, expiration);
    var pc := Done(Renewed(p.draft.id, p.draft.refreshTokenId, p.draft.expiration));
    RenewedRowOwned(s, t, p.current, p.draft, p.prior, expiration);
    RefreshInsertSound(s, t, row, pc);
    RenewedLocals(s, After(s, t, s.db.(refreshTokens := s.db.refreshTokens[row.id := row]), pc), t, p);
  }

  lemma RenewRefreshInserts(s: System, t: nat, p: RenewPc)
    requires Sound(s) && t in s.threads && s.threads[t].call == Renew(p.current) && p.RenewInsertRefresh?
    requires RenewOk(s.history, t, p.current, p.draft) && OnlyAccess(s.history, p.draft)
    requires p.prior.id == p.current && RefreshRowOk(s.history, p.prior)
    requires Gone(s, p.current) && Gone(s, p.prior.accessToken)
    ensures var (db, pc) := AdvanceRenew(s.db, s.clock, p); Moved(s, t, db, pc)
  {
    RenewStored(s, t, p, s.clock + FIVE_HOURS);
    AdvanceRenewInserts(s.db, s.clock, p);
  }

  lemma RenewMoves(s: System, t: nat, p: RenewPc)
    requires Sound(s) && t in s.threads && !p.RenewLoaded?
    requires s.threads[t].call.Renew? && RenewLocals(s, t, s.threads[t].call.current, p)
    ensures var (db, pc) := AdvanceRenew(s.db, s.clock, p); Moved(s, t, db, pc)
  {
    if p.RenewInsert? {
      RenewInserts(s, t, p);
    } else if p.RenewInsertRefresh? {
      RenewRefreshInserts(s, t, p);
    } else if p.RenewDeleteRefresh? || p.RenewDeleteAccess? {
      RenewDeletes(s, t, p);
    } else {
      RenewReads(s, t, p);
    }
  }

  lemma RevokeMoves(s: System, t: nat, p: RevokePc)
    requires Sound(s) && t in s.threads && s.threads[t].pc == InRevoke(p)
    requires s.threads[t].call.Revoke? && s.threads[t].mark <= s.history.inserted
    requires RevokeLocals(s, s.threads[t].call.token, s.threads[t].call.client, p, s.threads[t].mark)
    ensures var (db, pc) := AdvanceRevoke(s.db, p); Moved(s, t, db, pc)
  {
    var (db, pc) := AdvanceRevoke(s.db, p);
    DeletionSound(s, t, db, pc);
    var x := s.threads[t].call.token;
    assert IsRefresh(s.history, x) ==> RefreshRecordOk(s.history, x);
    RevokeLocalsMove(s, t, p);
  }

  lemma TerminateMoves(s: System, t: nat, p: TerminatePc)
    requires Sound(s) && t in s.threads
    requires s.threads[t].call.Terminate? && TerminateLocals(s.threads[t].call.user, s.threads[t].call.client, p)
    ensures var (db, pc) := AdvanceTerminate(s.db, p); Moved(s, t, db, pc)
  {
    var (db, pc) := AdvanceTerminate(s.db, p);
    DeletionSound(s, t, db, pc);
  }

  lemma MoveMoves(s: System, t: nat)
    requires Sound(s) && t in s.threads && CanMove(s.threads[t].pc)
    requires LocalsOk(s, t, s.threads[t]) && s.threads[t].mark <= s.history.inserted
    ensures var (db, pc) := Advance(s.db, s.clock, s.threads[t].pc); Moved(s, t, db, pc)
  {
    match s.threads[t].pc
    case InAccess(p) => AccessMoves(s, t, p);
    case InIssue(p) => IssueMoves(s, t, p);
    case InRenew(p) => RenewMoves(s, t, p);
    case InRevoke(p) => RevokeMoves(s, t, p);
    case InTerminate(p) => TerminateMoves(s, t, p);
  }

  lemma MoveKeeps(s: System, t: nat)
    requires Inv(s)
    ensures Inv(Exec(s, Move(t)))
  {
    if t in s.threads && CanMove(s.threads[t].pc) {
      MoveMoves(s, t);
      Assemble(s, MoveThread(s, t), t);
    }
  }

  /** The main preservation result: no label breaks the invariant. */
  lemma ExecKeeps(s: System, l: Label)
    requires Inv(s)
    ensures Inv(Exec(s, l))
  {
    match l
    case Start(t, call) => StartKeeps(s, t, call);
    case DrawIds(t, r, a) => DrawKeeps(s, t, r, a);
    case Narrow(t, scopes) => NarrowKeeps(s, t, scopes);
    case Move(t) => MoveKeeps(s, t);
    case Abandon(t) => AbandonKeeps(s, t);
    case Tick(now) =>
      assert forall t :: t in s.threads ==> LocalsOk(Exec(s, l), t, s.threads[t]);
    case Reconfigure(clients) =>
      assert forall t :: t in s.threads ==> LocalsOk(Exec(s, l), t, s.threads[t]);
  }

  lemma {:induction false} RunFromKeeps(s: System, ls: seq<Label>)
    requires Inv(s)
    ensures Inv(RunFrom(s, ls))
  {
    if ls != [] {
      RunFromKeeps(s, ls[..|ls| - 1]);
      ExecKeeps(RunFrom(s, ls[..|ls| - 1]), ls[|ls| - 1]);
    }
  }
}
