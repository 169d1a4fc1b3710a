/** A call that runs without interference: the statements of its program one after the other. */
module TokenAlone {
  import opened Prelude
  import opened TokenTables
  import opened TokenMachine

  /** The program run for k statements, or to its next pause. */
  function Steps(db: Tables, now: Time, pc: Pc, k: nat): (Tables, Pc)
    decreases k
  {
    if k == 0 || !CanMove(pc) then (db, pc)
    else
      var (db', pc') := Advance(db, now, pc);
      Steps(db', now, pc', k - 1)
  }

  function Moves(t: nat, k: nat): seq<Label> {
    if k == 0 then [] else [Move(t)] + Moves(t, k - 1)
  }

  /** Moving one thread k times in the machine is running its program for k statements; nothing
      else changes but the record of inserted and returned ids. */
  lemma {:induction false} MovesAreSteps(s: System, t: nat, k: nat)
    requires t in s.threads
    decreases k
    ensures var s' := RunFrom(s, Moves(t, k)); var (db, pc) := Steps(s.db, s.clock, s.threads[t].pc, k);
      && s'.db == db && s'.clock == s.clock
      && t in s'.threads && s'.threads[t].pc == pc && s'.threads[t].call == s.threads[t].call
      && s'.threads.Keys == s.threads.Keys
      && (forall u :: u in s.threads && u != t ==> s'.threads[u] == s.threads[u])
      && s'.history.minted == s.history.minted && s'.history.grants == s.history.grants
  {
    if !CanMove(s.threads[t].pc) {
      StuckMoves(s, t, k);
    } else if k > 0 {
      RunOne(s, Move(t));
      RunAppend(s, [Move(t)], Moves(t, k - 1));
      MovesAreSteps(MoveThread(s, t), t, k - 1);
    }
  }

  lemma {:induction false} StuckMoves(s: System, t: nat, k: nat)
    requires t in s.threads && !CanMove(s.threads[t].pc)
    ensures RunFrom(s, Moves(t, k)) == s
  {
    if k > 0 {
      RunOne(s, Move(t));
      RunAppend(s, [Move(t)], Moves(t, k - 1));
      StuckMoves(s, t, k - 1);
    }
  }

  /** The same, with the program's result given. */
  lemma MovesReach(s: System, t: nat, k: nat, db: Tables, pc: Pc)
    requires t in s.threads && Steps(s.db, s.clock, s.threads[t].pc, k) == (db, pc)
    ensures var s' := RunFrom(s, Moves(t, k));
      && s'.db == db && s'.clock == s.clock
      && t in s'.threads && s'.threads[t].pc == pc && s'.threads[t].call == s.threads[t].call
      && s'.threads.Keys == s.threads.Keys
      && (forall u :: u in s.threads && u != t ==> s'.threads[u] == s.threads[u])
      && s'.history.minted == s.history.minted && s'.history.grants == s.history.grants
  {
    MovesAreSteps(s, t, k);
  }

  // ---- What each program does to the tables when it runs alone ------------------------------------

  /** The tables after a login that runs alone. */
  function LoggedIn(db: Tables, now: Time, d: TokenRow, amr: seq<string>, authTime: Time): Tables {
    db.(tokens := db.tokens[d.id := Dated(db, d)],
        refreshTokens := db.refreshTokens[d.refreshTokenId :=
          FirstRefreshRow(d, amr, authTime, now + RefreshLifetime(db.clients, d.applicationId))])
  }

  lemma IssueSteps(db: Tables, now: Time, d: TokenRow, amr: seq<string>, authTime: Time)
    requires d.id !in db.tokens && d.refreshTokenId !in db.refreshTokens
    ensures Steps(db, now, InIssue(IssueLookup(d, amr, authTime)), 4) ==
      (LoggedIn(db, now, d, amr, authTime), Done(Issued(d.id, d.refreshTokenId, Dated(db, d).expiration)))
  {
    var d' := Dated(db, d);
    var db1 := db.(tokens := db.tokens[d'.id := d']);
    assert Steps(db, now, InIssue(IssueLookup(d, amr, authTime)), 4)
        == Steps(db, now, InIssue(IssueInsert(d', amr, authTime)), 3);
    assert Steps(db, now, InIssue(IssueInsert(d', amr, authTime)), 3)
        == Steps(db1, now, InIssue(IssueRefreshLookup(d', amr, authTime)), 2);
  }

  /** A login whose ids are taken fails; when only its refresh id is, it leaves the access token row. */
  lemma IssueFails(db: Tables, now: Time, d: TokenRow, amr: seq<string>, authTime: Time)
    requires d.id in db.tokens || d.refreshTokenId in db.refreshTokens
    ensures Steps(db, now, InIssue(IssueLookup(d, amr, authTime)), 4) ==
      (if d.id in db.tokens then db else db.(tokens := db.tokens[d.id := Dated(db, d)]), Done(Failed(IdTaken)))
  {
    var d' := Dated(db, d);
    assert Steps(db, now, InIssue(IssueLookup(d, amr, authTime)), 4)
        == Steps(db, now, InIssue(IssueInsert(d', amr, authTime)), 3);
    if d.id !in db.tokens {
      var db1 := db.(tokens := db.tokens[d'.id := d']);
      assert Steps(db, now, InIssue(IssueInsert(d', amr, authTime)), 3)
          == Steps(db1, now, InIssue(IssueRefreshLookup(d', amr, authTime)), 2);
    }
  }

  lemma StoreSteps(db: Tables, now: Time, current: string, d: TokenRow)
    requires d.id !in db.tokens
    ensures var d' := Dated(db, d);
      Steps(db, now, InRenew(RenewLookup(current, d)), 2) ==
        (db.(tokens := db.tokens[d.id := d']), InRenew(RenewReload(current, d')))
  {
  }

  lemma RotateSteps(db: Tables, now: Time, current: string, d: TokenRow, prior: RefreshRow)
    requires d.refreshTokenId !in db.refreshTokens
    ensures Steps(db, now, InRenew(RenewDeleteRefresh(current, d, prior)), 3) ==
      (db.(tokens := db.tokens - {prior.accessToken},
           refreshTokens := (db.refreshTokens - {current})[d.refreshTokenId :=
             RenewedRow(prior, d.refreshTokenId, d.id, now + FIVE_HOURS)]),
       Done(Renewed(d.id, d.refreshTokenId, d.expiration)))
  {
    var db1 := db.(refreshTokens := db.refreshTokens - {current});
    assert Steps(db, now, InRenew(RenewDeleteRefresh(current, d, prior)), 3)
        == Steps(db1, now, InRenew(RenewDeleteAccess(current, d, prior)), 2);
  }

  lemma TerminateSteps(db: Tables, now: Time, user: string, client: string)
    ensures Steps(db, now, InTerminate(TerminateRefresh(user, client)), 2) ==
      (db.(refreshTokens := db.refreshTokens - RefreshTokensOf(db, user, client),
           tokens := db.tokens - AccessTokensOf(db, user, client)), Done(Terminated))
    ensures var (db', _) := Steps(db, now, InTerminate(TerminateRefresh(user, client)), 2);
      && (forall r :: r in db'.refreshTokens <==>
            r in db.refreshTokens && !(db.refreshTokens[r].userId == user && db.refreshTokens[r].applicationId == client))
      && (forall a :: a in db'.tokens <==>
            a in db.tokens && !(db.tokens[a].subject == user && db.tokens[a].applicationId == client))
      && (forall r :: r in db'.refreshTokens ==> db'.refreshTokens[r] == db.refreshTokens[r])
      && (forall a :: a in db'.tokens ==> db'.tokens[a] == db.tokens[a])
  {
  }

  /** A renewal of a stored, unexpired token exchanges both rows and fails otherwise, leaving
      only the access token row that was never handed out. */
  lemma RenewSteps(db: Tables, now: Time, current: string, d: TokenRow)
    requires d.id !in db.tokens && d.refreshTokenId !in db.refreshTokens
    ensures var (db', pc) := Steps(db, now, InRenew(RenewLookup(current, d)), 6);
      var stored := db.(tokens := db.tokens[d.id := Dated(db, d)]);
      if current !in db.refreshTokens then (db', pc) == (stored, Done(Failed(InvalidRefreshToken)))
      else
        var prior := db.refreshTokens[current];
        if prior.expiration < now then (db', pc) == (stored, Done(Failed(ExpiredRefreshToken)))
        else
          && db'.tokens == stored.tokens - {prior.accessToken}
          && db'.refreshTokens == (db.refreshTokens - {current})[d.refreshTokenId :=
               RenewedRow(prior, d.refreshTokenId, d.id, now + FIVE_HOURS)]
          && db'.clients == db.clients
          && pc == Done(Renewed(d.id, d.refreshTokenId, Dated(db, d).expiration))
  {
    var d' := Dated(db, d);
    var stored := db.(tokens := db.tokens[d.id := d']);
    StoreSteps(db, now, current, d);
    StepsCompose(db, now, InRenew(RenewLookup(current, d)), 2, 4);
    var (db1, pc1) := Steps(stored, now, InRenew(RenewReload(current, d')), 1);
    StepsCompose(stored, now, InRenew(RenewReload(current, d')), 1, 3);
    if current in db.refreshTokens && now <= db.refreshTokens[current].expiration {
      RotateSteps(stored, now, current, d', db.refreshTokens[current]);
    }
  }

  lemma {:induction false} StepsCompose(db: Tables, now: Time, pc: Pc, j: nat, k: nat)
    ensures var (db1, pc1) := Steps(db, now, pc, j); Steps(db, now, pc, j + k) == Steps(db1, now, pc1, k)
    decreases j
  {
    if j > 0 && CanMove(pc) {
      var (db1, pc1) := Advance(db, now, pc);
      StepsCompose(db1, now, pc1, j - 1, k);
    }
  }

  /** RevokeToken removes what the token names if the client owns it, and touches nothing else. */
  lemma RevokeSteps(db: Tables, now: Time, token: string, client: string)
    ensures var (db', pc) := Steps(db, now, InRevoke(RevokeLookup(token, client)), 4);
      if token in db.tokens then
        if db.tokens[token].applicationId == client
        then (db', pc) == (db.(tokens := db.tokens - {token}), Done(RevokedAccess))
        else (db', pc) == (db, Done(Failed(WrongClient)))
      else if token in db.refreshTokens then
        if db.refreshTokens[token].applicationId == client
        then pc == Done(RevokedRefresh)
             && db' == db.(tokens := db.tokens - {db.refreshTokens[token].accessToken},
                           refreshTokens := db.refreshTokens - {db.refreshTokens[token].id})
        else (db', pc) == (db, Done(Failed(WrongClient)))
      else (db', pc) == (db, Done(RevokedUnknown))
  {
    var (db1, pc1) := Steps(db, now, InRevoke(RevokeLookup(token, client)), 1);
    StepsCompose(db, now, InRevoke(RevokeLookup(token, client)), 1, 3);
    var (db2, pc2) := Steps(db1, now, pc1, 1);
    StepsCompose(db1, now, pc1, 1, 2);
  }
}
