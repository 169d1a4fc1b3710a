/** What holds in addition when whole methods are atomic, that is, in the runs of the same machine
    in which no two calls overlap. A renewing client makes two calls: the one that loads the
    request, and the renewal itself. */
module TokenSerial {
  import opened TokenTables
  import opened TokenMachine
  import opened TokenInvariant
  import opened TokenPreservation

  /** No storage method is under way in this thread. */
  predicate AtBoundary(pc: Pc) {
    match pc
    case InAccess(p) => p.AccessStart?
    case InIssue(p) => p.IssueStart?
    case InRenew(p) => p.RenewLoad? || p.RenewLoaded?
    case InRevoke(p) => p.RevokeLookup?
    case InTerminate(p) => p.TerminateRefresh?
    case Done(_) => true
  }

  predicate OthersIdle(s: System, t: nat) {
    forall u :: u in s.threads && u != t ==> AtBoundary(s.threads[u].pc)
  }

  /** A method runs only while no other method is under way, and runs to its end. */
  predicate Undisturbed(s: System, l: Label) {
    match l
    case Move(t) => OthersIdle(s, t)
    case DrawIds(t, _, _) => OthersIdle(s, t)
    case Abandon(t) => t in s.threads ==> AtBoundary(s.threads[t].pc)
    case _ => true
  }

  predicate Serial(ls: seq<Label>) {
    ls == [] || (Serial(ls[..|ls| - 1]) && Undisturbed(Run(ls[..|ls| - 1]), ls[|ls| - 1]))
  }

  // ---- Chains -------------------------------------------------------------------------------

  /** A live access token in a caller's hands that came with a refresh token. */
  predicate Live(s: System, a: string) {
    && a in s.db.tokens && a in s.history.returned
    && IsAccess(s.history, a) && s.history.minted[a].refresh != ""
  }

  function ChainOf(h: History, a: string): string
    requires IsAccess(h, a)
  {
    Root(h, h.minted[a].refresh)
  }

  ghost predicate NoRow(s: System, root: string) {
    forall r :: r in s.db.refreshTokens ==> Root(s.history, r) != root
  }

  ghost predicate NoLive(s: System, root: string) {
    forall a :: Live(s, a) ==> ChainOf(s.history, a) != root
  }

  /** A renewal that has found its token and will write. */
  predicate Committed(pc: Pc) {
    pc.InRenew? && (pc.renew.RenewDeleteRefresh? || pc.renew.RenewDeleteAccess? || pc.renew.RenewInsertRefresh?)
  }

  ghost predicate NoCommitted(s: System, root: string) {
    forall t :: t in s.threads && Committed(s.threads[t].pc) ==> Root(s.history, s.threads[t].pc.renew.current) != root
  }

  /** The chain has no refresh token, and no renewal under way can revive it. */
  ghost predicate Ended(s: System, root: string) {
    NoRow(s, root) && NoCommitted(s, root)
  }

  /** Nothing of the chain is usable, and no renewal under way can revive it. */
  ghost predicate Dead(s: System, root: string) {
    Ended(s, root) && NoLive(s, root)
  }

  ghost predicate OneRowPerChain(s: System) {
    forall q, r | q in s.db.refreshTokens && r in s.db.refreshTokens ::
      Root(s.history, q) == Root(s.history, r) ==> q == r
  }

  ghost predicate OneLivePerChain(s: System) {
    forall a, b | Live(s, a) && Live(s, b) :: ChainOf(s.history, a) == ChainOf(s.history, b) ==> a == b
  }

  predicate Renews(th: Thread, r: string) {
    th.call == Renew(r) && (Committed(th.pc) || (th.pc.Done? && th.pc.outcome.Renewed?))
  }

  ghost predicate RenewedOnce(s: System) {
    forall t, u, r | t in s.threads && u in s.threads ::
      Renews(s.threads[t], r) && Renews(s.threads[u], r) ==> t == u
  }

  /** The chain of r was handed to this user and client. */
  predicate BelongsTo(h: History, r: string, user: string, client: string) {
    IsRefresh(h, r) && Root(h, r) in h.grants
    && h.grants[Root(h, r)].user == user && h.grants[Root(h, r)].client == client
  }

  /** What a finished revocation or termination has achieved for good. */
  ghost predicate Achieved(s: System, th: Thread) {
    th.pc.Done? ==>
      match th.pc.outcome
      case RevokedRefresh => th.call.Revoke? && Dead(s, Root(s.history, th.call.token))
      case Terminated =>
        th.call.Terminate?
        && forall r :: r in th.mark && BelongsTo(s.history, r, th.call.user, th.call.client) ==>
             Dead(s, Root(s.history, r))
      case _ => true
  }

  ghost predicate AllAchieved(s: System) {
    forall t :: t in s.threads ==> Achieved(s, s.threads[t])
  }

  // ---- The invariant of undisturbed runs ------------------------------------------------------

  ghost predicate OneActive(s: System) {
    forall t, u | t in s.threads && u in s.threads ::
      !AtBoundary(s.threads[t].pc) && !AtBoundary(s.threads[u].pc) ==> t == u
  }

  /** What the method under way can count on, being alone. */
  ghost predicate ActiveOk(s: System, pc: Pc) {
    match pc
    case InRenew(p) =>
      (match p
       case RenewDeleteRefresh(c, _, row) => c in s.db.refreshTokens && s.db.refreshTokens[c] == row
       case RenewDeleteAccess(c, _, _) => NoRow(s, Root(s.history, c))
       case RenewInsertRefresh(c, _, _) => NoRow(s, Root(s.history, c)) && NoLive(s, Root(s.history, c))
       case _ => true)
    case InRevoke(p) =>
      (match p
       case RevokeDeleteRefresh(row) => row.id in s.db.refreshTokens
       case RevokeDeletePartner(row) => NoRow(s, Root(s.history, row.id))
       case _ => true)
    case InTerminate(p) => p.TerminateAccess? ==> RefreshTokensOf(s.db, p.user, p.client) == {}
    case _ => true
  }

  /** The method under way is about to delete the access token a. */
  predicate Deletes(s: System, pc: Pc, a: string) {
    match pc
    case InRenew(p) => p.RenewDeleteAccess? && p.prior.accessToken == a
    case InRevoke(p) => p.RevokeDeletePartner? && p.prior.accessToken == a
    case InTerminate(p) => p.TerminateAccess? && a in AccessTokensOf(s.db, p.user, p.client)
    case _ => false
  }

  ghost predicate Backed(s: System, a: string)
    requires IsAccess(s.history, a)
  {
    s.history.minted[a].refresh in s.db.refreshTokens
    || exists t :: t in s.threads && Deletes(s, s.threads[t].pc, a)
  }

  /** A live access token outlives its refresh token only within the method that removes both. */
  ghost predicate AllBacked(s: System) {
    forall a :: Live(s, a) ==> Backed(s, a)
  }

  ghost predicate Chains(s: System) {
    OneRowPerChain(s) && OneLivePerChain(s) && AllBacked(s)
  }

  ghost predicate SerialInv(s: System) {
    && Inv(s)
    && OneActive(s)
    && (forall t :: t in s.threads ==> ActiveOk(s, s.threads[t].pc))
    && Chains(s)
    && RenewedOnce(s)
    && AllAchieved(s)
  }

  // ---- Ended and dead chains stay so under every interleaving --------------------------------------

  predicate InsertsRefresh(pc: Pc, r: string) {
    || (pc.InIssue? && pc.issue.IssueRefreshInsert? && r == pc.issue.draft.refreshTokenId)
    || (pc.InRenew? && pc.renew.RenewInsertRefresh? && r == pc.renew.draft.refreshTokenId)
  }

  predicate InsertsAccess(pc: Pc, a: string) {
    || (pc.InAccess? && pc.access.AccessInsert? && a == pc.access.draft.id)
    || (pc.InIssue? && pc.issue.IssueInsert? && a == pc.issue.draft.id)
    || (pc.InRenew? && pc.renew.RenewInsert? && a == pc.renew.draft.id)
  }

  predicate Returns(pc: Pc, a: string) {
    || (pc.InAccess? && pc.access.AccessInsert? && a == pc.access.draft.id)
    || (pc.InIssue? && pc.issue.IssueRefreshInsert? && a == pc.issue.draft.id)
    || (pc.InRenew? && pc.renew.RenewInsertRefresh? && a == pc.renew.draft.id)
  }

  /** Which statements add what. */
  lemma WhatMovesAdd(s: System, t: nat, x: string)
    requires t in s.threads && CanMove(s.threads[t].pc)
    ensures var s' := MoveThread(s, t); var pc := s.threads[t].pc;
      && s'.history.minted == s.history.minted
      && (x in s'.db.refreshTokens && x !in s.db.refreshTokens ==> InsertsRefresh(pc, x))
      && (x in s'.db.tokens && x !in s.db.tokens ==> InsertsAccess(pc, x))
      && (x in s'.history.returned && x !in s.history.returned ==> Returns(pc, x))
      && (Returns(pc, x) && x in s'.history.returned && x !in s.history.returned && !pc.InAccess? ==>
            s'.threads[t].pc.Done? && !s'.threads[t].pc.outcome.Failed?)
  {
  }

  /** A refresh row is added to its own chain by a login, and to the renewed token's by a renewal. */
  lemma NewRow(s: System, t: nat, r: string)
    requires Inv(s) && t in s.threads && CanMove(s.threads[t].pc)
    requires r in MoveThread(s, t).db.refreshTokens && r !in s.db.refreshTokens
    ensures var pc := s.threads[t].pc;
      || (pc.InIssue? && pc.issue.IssueRefreshInsert? && r == pc.issue.draft.refreshTokenId
          && Root(s.history, r) == r && r !in s.history.inserted)
      || (pc.InRenew? && pc.renew.RenewInsertRefresh? && r == pc.renew.draft.refreshTokenId
          && Root(s.history, r) == Root(s.history, pc.renew.current))
  {
    WhatMovesAdd(s, t, r);
    assert LocalsOk(s, t, s.threads[t]);
  }

  /** Where a newly live access token comes from. */
  lemma NewlyReturned(s: System, t: nat, a: string)
    requires Inv(s) && t in s.threads && CanMove(s.threads[t].pc)
    requires Live(MoveThread(s, t), a) && !Live(s, a)
    ensures var pc := s.threads[t].pc; !pc.InAccess? && Returns(pc, a) && MoveThread(s, t).threads[t].pc.Done?
    ensures var pc := MoveThread(s, t).threads[t].pc; pc.Done? ==> !pc.outcome.Failed?
  {
    WhatMovesAdd(s, t, a);
    assert LocalsOk(s, t, s.threads[t]);
  }

  /** A newly live access token came with a new refresh token row. */
  lemma NewLive(s: System, t: nat, a: string)
    requires Inv(s) && t in s.threads && CanMove(s.threads[t].pc)
    requires Live(MoveThread(s, t), a) && !Live(s, a)
    ensures var pc := s.threads[t].pc; var r := s.history.minted[a].refresh;
      && r in MoveThread(s, t).db.refreshTokens && r !in s.db.refreshTokens
      && ((pc.InIssue? && pc.issue.IssueRefreshInsert? && a == pc.issue.draft.id)
          || (pc.InRenew? && pc.renew.RenewInsertRefresh? && a == pc.renew.draft.id))
  {
    NewlyReturned(s, t, a);
    assert LocalsOk(s, t, s.threads[t]);
  }

  lemma NoRowStaysMove(s: System, t: nat, root: string)
    requires Inv(s) && Ended(s, root) && root in s.history.inserted
    requires t in s.threads && CanMove(s.threads[t].pc)
    ensures NoRow(MoveThread(s, t), root)
  {
    var s' := MoveThread(s, t);
    assert s'.history.minted == s.history.minted;
    forall r | r in s'.db.refreshTokens
      ensures Root(s'.history, r) != root
    {
      if r !in s.db.refreshTokens { NewRow(s, t, r); }
    }
  }

  /** A renewal becomes committed only by finding its token's row. */
  lemma NoCommittedStaysMove(s: System, t: nat, root: string)
    requires Ended(s, root) && t in s.threads && CanMove(s.threads[t].pc)
    ensures NoCommitted(MoveThread(s, t), root)
  {
    var s' := MoveThread(s, t);
    assert s'.history.minted == s.history.minted;
    assert Committed(s'.threads[t].pc) && !Committed(s.threads[t].pc) ==>
      s.threads[t].pc.renew.RenewReload? && s.threads[t].pc.renew.current in s.db.refreshTokens;
  }

  lemma EndedStaysMove(s: System, t: nat, root: string)
    requires Inv(s) && Ended(s, root) && root in s.history.inserted
    requires t in s.threads && CanMove(s.threads[t].pc)
    ensures Ended(MoveThread(s, t), root)
  {
    NoRowStaysMove(s, t, root);
    NoCommittedStaysMove(s, t, root);
  }

  lemma NoNewLiveMove(s: System, t: nat, root: string, a: string)
    requires Inv(s) && Ended(s, root) && root in s.history.inserted
    requires t in s.threads && CanMove(s.threads[t].pc)
    requires Live(MoveThread(s, t), a) && ChainOf(MoveThread(s, t).history, a) == root
    ensures Live(s, a)
  {
    assert MoveThread(s, t).history.minted == s.history.minted;
    if !Live(s, a) {
      NewLive(s, t, a);
      NewRow(s, t, s.history.minted[a].refresh);
    }
  }

  lemma EndedStaysDraw(s: System, t: nat, r: string, a: string, root: string)
    requires Inv(s) && Ended(s, root) && root in s.history.inserted
    requires t in s.threads && AwaitsIds(s.threads[t].pc) && FreshIds(s.history, r, a)
    requires HistoryGrows(s.history, Exec(s, DrawIds(t, r, a)).history)
    ensures Ended(Exec(s, DrawIds(t, r, a)), root)
  {
    var s' := Exec(s, DrawIds(t, r, a));
    forall q | q in s'.db.refreshTokens
      ensures Root(s'.history, q) != root
    {
      assert RefreshRowOk(s.history, s.db.refreshTokens[q]);
    }
    forall u | u in s'.threads && Committed(s'.threads[u].pc)
      ensures Root(s'.history, s'.threads[u].pc.renew.current) != root
    {
      assert u in s.threads && s.threads[u] == s'.threads[u] && LocalsOk(s, u, s.threads[u]);
    }
  }

  lemma DrawGrows(s: System, t: nat, r: string, a: string)
    requires Inv(s) && t in s.threads && AwaitsIds(s.threads[t].pc) && FreshIds(s.history, r, a)
    ensures HistoryGrows(s.history, Exec(s, DrawIds(t, r, a)).history)
  {
    assert LocalsOk(s, t, s.threads[t]);
    RecordKeeps(s.history, t, s.threads[t].pc, r, a);
  }

  lemma EndedStays(s: System, l: Label, root: string)
    requires Inv(s) && Ended(s, root) && root in s.history.inserted
    ensures Ended(Exec(s, l), root)
  {
    match l
    case DrawIds(t, r, a) =>
      if t in s.threads && AwaitsIds(s.threads[t].pc) && FreshIds(s.history, r, a) {
        DrawGrows(s, t, r, a);
        EndedStaysDraw(s, t, r, a, root);
      }
    case Move(t) =>
      if t in s.threads && CanMove(s.threads[t].pc) {
        EndedStaysMove(s, t, root);
      }
    case _ =>
  }

  /** An ended chain gets no new live access token. */
  lemma NoNewLive(s: System, l: Label, root: string, a: string)
    requires Inv(s) && Ended(s, root) && root in s.history.inserted
    requires Live(Exec(s, l), a) && ChainOf(Exec(s, l).history, a) == root
    ensures Live(s, a) && ChainOf(s.history, a) == root
  {
    match l
    case DrawIds(t, r, d) =>
      if t in s.threads && AwaitsIds(s.threads[t].pc) && FreshIds(s.history, r, d) {
        DrawGrows(s, t, r, d);
        assert Live(s, a) && AccessRecordOk(s.history, a);
      }
    case Move(t) =>
      if t in s.threads && CanMove(s.threads[t].pc) {
        NoNewLiveMove(s, t, root, a);
        assert MoveThread(s, t).history.minted == s.history.minted;
      }
    case _ =>
  }

  lemma DeadStays(s: System, l: Label, root: string)
    requires Inv(s) && Dead(s, root) && root in s.history.inserted
    ensures Dead(Exec(s, l), root)
  {
    EndedStays(s, l, root);
    forall a | Live(Exec(s, l), a)
      ensures ChainOf(Exec(s, l).history, a) != root
    {
      if ChainOf(Exec(s, l).history, a) == root { NoNewLive(s, l, root, a); }
    }
  }

  // ---- One statement of the only method under way -----------------------------------------------

  lemma RootInserted(h: History, r: string)
    requires HistoryOk(h) && IsRefresh(h, r) && r in h.inserted
    ensures Root(h, r) in h.inserted
  {
    assert RefreshRecordOk(h, r);
  }

  lemma LiveChainInserted(s: System, a: string)
    requires Inv(s) && Live(s, a)
    ensures var r := s.history.minted[a].refresh;
      IsRefresh(s.history, r) && s.history.minted[r].access == a && ChainOf(s.history, a) in s.history.inserted
  {
    assert AccessRecordOk(s.history, a);
    RootInserted(s.history, s.history.minted[a].refresh);
  }

  /** A new refresh token row is alone in its chain. */
  lemma NewRowAlone(s: System, t: nat, q: string, r: string)
    requires Inv(s) && t in s.threads && CanMove(s.threads[t].pc) && ActiveOk(s, s.threads[t].pc)
    requires q in MoveThread(s, t).db.refreshTokens && q !in s.db.refreshTokens && r in s.db.refreshTokens
    ensures Root(s.history, q) != Root(s.history, r)
  {
    NewRow(s, t, q);
    assert RefreshRowOk(s.history, s.db.refreshTokens[r]);
    RootInserted(s.history, r);
  }

  lemma OneNewRow(s: System, t: nat, q: string, r: string)
    requires Inv(s) && t in s.threads && CanMove(s.threads[t].pc) && ActiveOk(s, s.threads[t].pc)
    requires q in MoveThread(s, t).db.refreshTokens && q !in s.db.refreshTokens && r in MoveThread(s, t).db.refreshTokens
    ensures Root(s.history, q) == Root(s.history, r) ==> q == r
  {
    if r in s.db.refreshTokens {
      NewRowAlone(s, t, q, r);
    } else {
      WhatMovesAdd(s, t, q);
      WhatMovesAdd(s, t, r);
    }
  }

  lemma OneRowOfTwo(s: System, t: nat, q: string, r: string)
    requires Inv(s) && t in s.threads && CanMove(s.threads[t].pc) && ActiveOk(s, s.threads[t].pc)
    requires q in MoveThread(s, t).db.refreshTokens && r in MoveThread(s, t).db.refreshTokens
    requires q in s.db.refreshTokens && r in s.db.refreshTokens && Root(s.history, q) == Root(s.history, r) ==> q == r
    ensures Root(s.history, q) == Root(s.history, r) ==> q == r
  {
    if q !in s.db.refreshTokens {
      OneNewRow(s, t, q, r);
    } else if r !in s.db.refreshTokens {
      OneNewRow(s, t, r, q);
    }
  }

  lemma OneRowKept(s: System, t: nat)
    requires Inv(s) && t in s.threads && CanMove(s.threads[t].pc) && ActiveOk(s, s.threads[t].pc)
    requires OneRowPerChain(s)
    ensures OneRowPerChain(MoveThread(s, t))
  {
    var s' := MoveThread(s, t);
    assert s'.history.minted == s.history.minted;
    forall q, r | q in s'.db.refreshTokens && r in s'.db.refreshTokens
      ensures Root(s'.history, q) == Root(s'.history, r) ==> q == r
    {
      OneRowOfTwo(s, t, q, r);
    }
  }

  /** A newly live access token is alone in its chain. */
  lemma NewLiveAlone(s: System, t: nat, a: string, b: string)
    requires Inv(s) && t in s.threads && CanMove(s.threads[t].pc) && ActiveOk(s, s.threads[t].pc)
    requires Live(MoveThread(s, t), a) && !Live(s, a) && Live(s, b)
    ensures ChainOf(s.history, a) != ChainOf(s.history, b)
  {
    NewLive(s, t, a);
    NewRow(s, t, s.history.minted[a].refresh);
    LiveChainInserted(s, b);
  }

  lemma OneLiveOfTwo(s: System, t: nat, a: string, b: string)
    requires Inv(s) && t in s.threads && CanMove(s.threads[t].pc) && ActiveOk(s, s.threads[t].pc)
    requires OneLivePerChain(s) && Live(MoveThread(s, t), a) && Live(MoveThread(s, t), b)
    requires ChainOf(s.history, a) == ChainOf(s.history, b)
    ensures a == b
  {
    if Live(s, a) && !Live(s, b) {
      NewLiveAlone(s, t, b, a);
    } else if Live(s, b) && !Live(s, a) {
      NewLiveAlone(s, t, a, b);
    } else if !Live(s, a) {
      NewLive(s, t, a);
      NewLive(s, t, b);
    }
  }

  lemma OneLiveKept(s: System, t: nat)
    requires Inv(s) && t in s.threads && CanMove(s.threads[t].pc) && ActiveOk(s, s.threads[t].pc)
    requires OneLivePerChain(s)
    ensures OneLivePerChain(MoveThread(s, t))
  {
    var s' := MoveThread(s, t);
    assert s'.history.minted == s.history.minted;
    forall a, b | Live(s', a) && Live(s', b) && ChainOf(s'.history, a) == ChainOf(s'.history, b)
      ensures a == b
    {
      OneLiveOfTwo(s, t, a, b);
    }
  }

  /** Which statements delete a refresh token row. */
  lemma WhatMovesDelete(s: System, t: nat, r: string)
    requires t in s.threads && CanMove(s.threads[t].pc)
    requires r in s.db.refreshTokens && r !in MoveThread(s, t).db.refreshTokens
    ensures var pc := s.threads[t].pc; var s' := MoveThread(s, t); var pc' := s'.threads[t].pc;
      && s'.db.tokens == s.db.tokens
      && ((pc.InRenew? && pc.renew.RenewDeleteRefresh? && pc.renew.current == r
           && pc' == InRenew(RenewDeleteAccess(r, pc.renew.draft, pc.renew.prior)))
          || (pc.InRevoke? && pc.revoke.RevokeDeleteRefresh? && pc.revoke.prior.id == r
              && pc' == InRevoke(RevokeDeletePartner(pc.revoke.prior)))
          || (pc.InTerminate? && r in RefreshTokensOf(s.db, pc.terminate.user, pc.terminate.client)
              && pc' == InTerminate(TerminateAccess(pc.terminate.user, pc.terminate.client))))
  {
  }

  /** A live access token and its refresh token row are booked on the same user and client. */
  lemma PairBooked(s: System, a: string)
    requires Inv(s) && Live(s, a) && s.history.minted[a].refresh in s.db.refreshTokens
    ensures var row := s.db.refreshTokens[s.history.minted[a].refresh];
      s.db.tokens[a].subject == row.userId && s.db.tokens[a].applicationId == row.applicationId
  {
    var r := s.history.minted[a].refresh;
    assert RefreshRowOk(s.history, s.db.refreshTokens[r]);
    assert TokenRowOk(s.history, s.db.tokens[a]);
  }

  /** The method under way deletes the access token of any refresh token row it deletes. */
  lemma LostRow(s: System, t: nat, a: string)
    requires Inv(s) && t in s.threads && CanMove(s.threads[t].pc)
    requires Live(s, a) && s.history.minted[a].refresh in s.db.refreshTokens
    requires s.history.minted[a].refresh !in MoveThread(s, t).db.refreshTokens
    ensures Deletes(MoveThread(s, t), MoveThread(s, t).threads[t].pc, a)
  {
    WhatMovesDelete(s, t, s.history.minted[a].refresh);
    assert LocalsOk(s, t, s.threads[t]);
    LiveChainInserted(s, a);
    PairBooked(s, a);
  }

  lemma BackedByMover(s: System, t: nat, a: string)
    requires t in s.threads && OthersIdle(s, t) && Live(s, a) && Backed(s, a)
    ensures s.history.minted[a].refresh in s.db.refreshTokens || Deletes(s, s.threads[t].pc, a)
  {
    if s.history.minted[a].refresh !in s.db.refreshTokens {
      var u :| u in s.threads && Deletes(s, s.threads[u].pc, a);
      assert u == t;
    }
  }

  lemma BackedKept(s: System, t: nat)
    requires Inv(s) && t in s.threads && CanMove(s.threads[t].pc) && OthersIdle(s, t)
    requires AllBacked(s)
    ensures AllBacked(MoveThread(s, t))
  {
    var s' := MoveThread(s, t);
    forall a | Live(s', a)
      ensures Backed(s', a)
    {
      if !Live(s, a) {
        NewLive(s, t, a);
      } else if s.history.minted[a].refresh in s.db.refreshTokens {
        if s.history.minted[a].refresh !in s'.db.refreshTokens {
          LostRow(s, t, a);
        }
      } else {
        BackedByMover(s, t, a);
      }
    }
  }

  lemma NoRowAfterDelete(s: System, db: Tables, r: string)
    requires OneRowPerChain(s) && r in s.db.refreshTokens && db.refreshTokens == s.db.refreshTokens - {r}
    ensures forall q :: q in db.refreshTokens ==> Root(s.history, q) != Root(s.history, r)
  {
  }

  /** Once a chain has no row, only the deletion under way keeps one of its access tokens alive. */
  lemma NoLiveAfterDelete(s: System, t: nat, root: string)
    requires AllBacked(s) && t in s.threads && CanMove(s.threads[t].pc) && OthersIdle(s, t)
    requires NoRow(s, root)
    requires forall a :: Deletes(s, s.threads[t].pc, a) ==> a !in MoveThread(s, t).db.tokens
    requires forall a :: Live(MoveThread(s, t), a) ==> Live(s, a)
    ensures NoLive(MoveThread(s, t), root)
  {
    var s' := MoveThread(s, t);
    forall a | Live(s', a)
      ensures ChainOf(s'.history, a) != root
    {
      BackedByMover(s, t, a);
    }
  }

  lemma ActiveKept(s: System, t: nat)
    requires Inv(s) && t in s.threads && CanMove(s.threads[t].pc) && OthersIdle(s, t)
    requires ActiveOk(s, s.threads[t].pc) && OneRowPerChain(s) && AllBacked(s)
    ensures ActiveOk(MoveThread(s, t), MoveThread(s, t).threads[t].pc)
  {
    var s' := MoveThread(s, t);
    var pc := s.threads[t].pc;
    assert LocalsOk(s, t, s.threads[t]);
    if pc.InRenew? && pc.renew.RenewDeleteRefresh? {
      NoRowAfterDelete(s, s'.db, pc.renew.current);
    } else if pc.InRenew? && pc.renew.RenewDeleteAccess? {
      NoLiveAfterDelete(s, t, Root(s.history, pc.renew.current));
    } else if pc.InRevoke? && pc.revoke.RevokeDeleteRefresh? {
      NoRowAfterDelete(s, s'.db, pc.revoke.prior.id);
    }
  }

  predicate AboutToDelete(pc: Pc, current: string) {
    pc.InRenew? && pc.renew.RenewDeleteRefresh? && pc.renew.current == current
  }

  lemma RenewerHasDeleted(s: System, u: nat, r: string)
    requires Inv(s) && u in s.threads && Renews(s.threads[u], r)
    ensures AboutToDelete(s.threads[u].pc, r) || r !in s.db.refreshTokens
  {
    assert LocalsOk(s, u, s.threads[u]);
  }

  lemma RenewalFound(s: System, t: nat, r: string)
    requires t in s.threads && CanMove(s.threads[t].pc) && LocalsOk(s, t, s.threads[t])
    requires Renews(MoveThread(s, t).threads[t], r) && !Renews(s.threads[t], r)
    ensures r in s.db.refreshTokens
  {
  }

  /** A renewal that finds its token is the first to do so. */
  lemma FirstRenewal(s: System, t: nat, u: nat, r: string)
    requires Inv(s) && t in s.threads && CanMove(s.threads[t].pc) && OthersIdle(s, t)
    requires u in s.threads && u != t
    requires Renews(MoveThread(s, t).threads[t], r) && !Renews(s.threads[t], r)
    ensures !Renews(s.threads[u], r)
  {
    assert LocalsOk(s, t, s.threads[t]);
    RenewalFound(s, t, r);
    if Renews(s.threads[u], r) { RenewerHasDeleted(s, u, r); }
  }

  lemma RenewedOnceKept(s: System, t: nat)
    requires Inv(s) && t in s.threads && CanMove(s.threads[t].pc) && OthersIdle(s, t)
    requires RenewedOnce(s)
    ensures RenewedOnce(MoveThread(s, t))
  {
    var s' := MoveThread(s, t);
    forall u, v, r | u in s'.threads && v in s'.threads && Renews(s'.threads[u], r) && Renews(s'.threads[v], r)
      ensures u == v
    {
      if u == t && v != t && !Renews(s.threads[t], r) { FirstRenewal(s, t, v, r); }
      if v == t && u != t && !Renews(s.threads[t], r) { FirstRenewal(s, t, u, r); }
    }
  }

  lemma RevocationKills(s: System, t: nat)
    requires Inv(s) && t in s.threads && CanMove(s.threads[t].pc) && OthersIdle(s, t)
    requires ActiveOk(s, s.threads[t].pc) && AllBacked(s)
    requires s.threads[t].pc.InRevoke? && s.threads[t].pc.revoke.RevokeDeletePartner?
    ensures Dead(MoveThread(s, t), Root(s.history, s.threads[t].pc.revoke.prior.id))
  {
    assert LocalsOk(s, t, s.threads[t]);
    NoLiveAfterDelete(s, t, Root(s.history, s.threads[t].pc.revoke.prior.id));
  }

  lemma NoRowOf(s: System, user: string, client: string, r: string)
    requires Inv(s) && RefreshTokensOf(s.db, user, client) == {} && BelongsTo(s.history, r, user, client)
    ensures NoRow(s, Root(s.history, r))
  {
    forall q | q in s.db.refreshTokens
      ensures Root(s.history, q) != Root(s.history, r)
    {
      assert RefreshRowOk(s.history, s.db.refreshTokens[q]);
      assert q !in RefreshTokensOf(s.db, user, client);
    }
  }

  lemma LiveBelongs(s: System, a: string, r: string, user: string, client: string)
    requires Inv(s) && Live(s, a) && BelongsTo(s.history, r, user, client)
    requires ChainOf(s.history, a) == Root(s.history, r)
    ensures a in AccessTokensOf(s.db, user, client)
  {
    LiveChainInserted(s, a);
    assert TokenRowOk(s.history, s.db.tokens[a]);
  }

  lemma TerminationKills(s: System, t: nat, r: string)
    requires Inv(s) && t in s.threads && CanMove(s.threads[t].pc) && OthersIdle(s, t)
    requires s.threads[t].pc.InTerminate? && s.threads[t].pc.terminate.TerminateAccess?
    requires var p := s.threads[t].pc.terminate;
      BelongsTo(s.history, r, p.user, p.client) && RefreshTokensOf(s.db, p.user, p.client) == {}
    ensures Dead(MoveThread(s, t), Root(s.history, r))
  {
    var s' := MoveThread(s, t);
    var p := s.threads[t].pc.terminate;
    NoRowOf(s, p.user, p.client, r);
    forall a | Live(s', a)
      ensures ChainOf(s'.history, a) != Root(s.history, r)
    {
      if ChainOf(s'.history, a) == Root(s.history, r) {
        LiveBelongs(s, a, r, p.user, p.client);
      }
    }
  }

  lemma AchievedStays(s: System, l: Label, t: nat)
    requires Inv(s) && Inv(Exec(s, l)) && t in s.threads && Achieved(s, s.threads[t])
    requires HistoryGrows(s.history, Exec(s, l).history)
    requires t in Exec(s, l).threads && Exec(s, l).threads[t] == s.threads[t]
    ensures Achieved(Exec(s, l), s.threads[t])
  {
    var th := s.threads[t];
    if th.pc.Done? && th.pc.outcome.RevokedRefresh? {
      assert LocalsOk(s, t, th);
      RootInserted(s.history, th.call.token);
      DeadStays(s, l, Root(s.history, th.call.token));
    } else if th.pc.Done? && th.pc.outcome.Terminated? {
      var s' := Exec(s, l);
      forall r | r in th.mark && BelongsTo(s'.history, r, th.call.user, th.call.client)
        ensures Dead(s', Root(s'.history, r))
      {
        assert r in s.history.minted && IsRefresh(s.history, r) && RefreshRecordOk(s.history, r);
        assert BelongsTo(s.history, r, th.call.user, th.call.client);
        RootInserted(s.history, r);
        DeadStays(s, l, Root(s.history, r));
      }
    }
  }

  lemma AchievedByMover(s: System, t: nat)
    requires Inv(s) && t in s.threads && CanMove(s.threads[t].pc) && OthersIdle(s, t)
    requires ActiveOk(s, s.threads[t].pc) && AllBacked(s)
    ensures Achieved(MoveThread(s, t), MoveThread(s, t).threads[t])
  {
    var s' := MoveThread(s, t);
    var th := s'.threads[t];
    assert LocalsOk(s, t, s.threads[t]);
    if th.pc.Done? && th.pc.outcome.RevokedRefresh? {
      RevocationKills(s, t);
    } else if th.pc.Done? && th.pc.outcome.Terminated? {
      forall r | r in th.mark && BelongsTo(s'.history, r, th.call.user, th.call.client)
        ensures Dead(s', Root(s'.history, r))
      {
        TerminationKills(s, t, r);
      }
    }
  }

  // ---- Every undisturbed label keeps the invariant ------------------------------------------------

  lemma MoveGrows(s: System, t: nat)
    requires Inv(s) && t in s.threads && CanMove(s.threads[t].pc)
    ensures Inv(MoveThread(s, t)) && HistoryGrows(s.history, MoveThread(s, t).history)
  {
    MoveKeeps(s, t);
    MoveMoves(s, t);
  }

  lemma AchievedOfOther(s: System, t: nat, u: nat)
    requires Inv(s) && t in s.threads && CanMove(s.threads[t].pc)
    requires u in s.threads && u != t && Achieved(s, s.threads[u])
    ensures Achieved(MoveThread(s, t), s.threads[u])
  {
    MoveGrows(s, t);
    AchievedStays(s, Move(t), u);
  }

  lemma MoveAchieved(s: System, t: nat)
    requires Inv(s) && AllAchieved(s) && t in s.threads && CanMove(s.threads[t].pc) && OthersIdle(s, t)
    requires ActiveOk(s, s.threads[t].pc) && AllBacked(s)
    ensures AllAchieved(MoveThread(s, t))
  {
    AchievedByMover(s, t);
    forall u | u in s.threads && u != t
      ensures Achieved(MoveThread(s, t), s.threads[u])
    {
      AchievedOfOther(s, t, u);
    }
  }

  lemma ChainsMove(s: System, t: nat)
    requires Inv(s) && Chains(s) && t in s.threads && CanMove(s.threads[t].pc) && OthersIdle(s, t)
    requires ActiveOk(s, s.threads[t].pc)
    ensures Chains(MoveThread(s, t))
  {
    OneRowKept(s, t);
    OneLiveKept(s, t);
    BackedKept(s, t);
  }

  lemma ThreadsMove(s: System, t: nat)
    requires Inv(s) && Chains(s) && t in s.threads && CanMove(s.threads[t].pc) && OthersIdle(s, t)
    requires ActiveOk(s, s.threads[t].pc)
    ensures OneActive(MoveThread(s, t))
    ensures forall u :: u in MoveThread(s, t).threads ==> ActiveOk(MoveThread(s, t), MoveThread(s, t).threads[u].pc)
  {
    ActiveKept(s, t);
  }

  lemma SerialMove(s: System, t: nat)
    requires SerialInv(s) && t in s.threads && CanMove(s.threads[t].pc) && OthersIdle(s, t)
    ensures SerialInv(MoveThread(s, t))
  {
    MoveKeeps(s, t);
    ChainsMove(s, t);
    ThreadsMove(s, t);
    RenewedOnceKept(s, t);
    MoveAchieved(s, t);
  }

  /** A label that at most moves thread t from one boundary to another, leaving rows and history
      alone; -1 stands for no thread. */
  ghost predicate Quiet(s: System, s': System, t: int) {
    && s'.db.tokens == s.db.tokens && s'.db.refreshTokens == s.db.refreshTokens && s'.history == s.history
    && (forall u :: u in s'.threads && u != t ==> u in s.threads && s'.threads[u] == s.threads[u])
    && (forall u :: u in s.threads ==> u in s'.threads)
    && (t in s.threads ==> AtBoundary(s.threads[t].pc))
    && (t in s'.threads ==> AtBoundary(s'.threads[t].pc))
    && (t in s'.threads && s'.threads[t].pc.Done? ==>
          (t in s.threads && s'.threads[t] == s.threads[t]) || s'.threads[t].pc.outcome.Abandoned?)
  }

  lemma QuietChains(s: System, s': System, t: int)
    requires Inv(s) && Chains(s) && Quiet(s, s', t)
    ensures Chains(s')
  {
    forall a | Live(s', a)
      ensures Backed(s', a)
    {
      assert Live(s, a) && Backed(s, a);
      if s.history.minted[a].refresh !in s.db.refreshTokens {
        var u :| u in s.threads && Deletes(s, s.threads[u].pc, a);
        assert Deletes(s', s'.threads[u].pc, a);
      }
    }
  }

  lemma ActiveUnaffected(s: System, s': System, pc: Pc)
    requires ActiveOk(s, pc)
    requires s'.db.tokens == s.db.tokens && s'.db.refreshTokens == s.db.refreshTokens && s'.history == s.history
    ensures ActiveOk(s', pc)
  {
    assert forall a :: Live(s', a) ==> Live(s, a);
  }

  lemma QuietThreads(s: System, s': System, t: int)
    requires OneActive(s) && RenewedOnce(s) && Quiet(s, s', t)
    requires forall u :: u in s.threads ==> ActiveOk(s, s.threads[u].pc)
    ensures OneActive(s') && RenewedOnce(s')
    ensures forall u :: u in s'.threads ==> ActiveOk(s', s'.threads[u].pc)
  {
    forall u | u in s'.threads && u != t
      ensures ActiveOk(s', s'.threads[u].pc)
    {
      ActiveUnaffected(s, s', s.threads[u].pc);
    }
    forall u, v, r | u in s'.threads && v in s'.threads && Renews(s'.threads[u], r) && Renews(s'.threads[v], r)
      ensures u == v
    {
      assert Renews(s.threads[u], r) && Renews(s.threads[v], r);
    }
  }

  lemma QuietAchieved(s: System, l: Label, t: int)
    requires Inv(s) && AllAchieved(s) && Inv(Exec(s, l)) && Quiet(s, Exec(s, l), t)
    ensures AllAchieved(Exec(s, l))
  {
    var s' := Exec(s, l);
    forall u | u in s'.threads
      ensures Achieved(s', s'.threads[u])
    {
      if u in s.threads && s'.threads[u] == s.threads[u] {
        AchievedStays(s, l, u);
      }
    }
  }

  lemma QuietKeeps(s: System, l: Label, t: int)
    requires SerialInv(s) && Inv(Exec(s, l)) && Quiet(s, Exec(s, l), t)
    ensures SerialInv(Exec(s, l))
  {
    QuietChains(s, Exec(s, l), t);
    QuietThreads(s, Exec(s, l), t);
    QuietAchieved(s, l, t);
  }

  /** Drawing ids adds to the history only. */
  lemma DrawSame(s: System, t: nat, r: string, a: string)
    requires Inv(s) && t in s.threads && AwaitsIds(s.threads[t].pc) && FreshIds(s.history, r, a)
    ensures var s' := Exec(s, DrawIds(t, r, a));
      && HistoryGrows(s.history, s'.history)
      && (forall q :: q in s.db.refreshTokens ==> Root(s'.history, q) == Root(s.history, q))
      && (forall x | Live(s', x) ::
            Live(s, x) && ChainOf(s'.history, x) == ChainOf(s.history, x) && s'.history.minted[x] == s.history.minted[x])
  {
    var s' := Exec(s, DrawIds(t, r, a));
    assert LocalsOk(s, t, s.threads[t]);
    RecordKeeps(s.history, t, s.threads[t].pc, r, a);
    forall q | q in s.db.refreshTokens
      ensures Root(s'.history, q) == Root(s.history, q)
    {
      assert RefreshRowOk(s.history, s.db.refreshTokens[q]);
    }
    forall x | Live(s', x)
      ensures Live(s, x) && ChainOf(s'.history, x) == ChainOf(s.history, x)
    {
      assert Live(s, x);
      assert AccessRecordOk(s.history, x);
    }
  }

  lemma DrawChains(s: System, t: nat, r: string, a: string)
    requires Inv(s) && Chains(s) && t in s.threads && AwaitsIds(s.threads[t].pc) && FreshIds(s.history, r, a)
    requires OthersIdle(s, t)
    ensures Chains(Exec(s, DrawIds(t, r, a)))
  {
    var s' := Exec(s, DrawIds(t, r, a));
    DrawSame(s, t, r, a);
    forall x | Live(s', x)
      ensures Backed(s', x)
    {
      BackedByMover(s, t, x);
    }
  }

  lemma DrawThreads(s: System, t: nat, r: string, a: string)
    requires RenewedOnce(s) && t in s.threads && AwaitsIds(s.threads[t].pc) && FreshIds(s.history, r, a)
    requires OthersIdle(s, t)
    ensures var s' := Exec(s, DrawIds(t, r, a));
      && OneActive(s') && RenewedOnce(s')
      && forall u :: u in s'.threads ==> ActiveOk(s', s'.threads[u].pc)
  {
    var s' := Exec(s, DrawIds(t, r, a));
    forall u, v, q | u in s'.threads && v in s'.threads && Renews(s'.threads[u], q) && Renews(s'.threads[v], q)
      ensures u == v
    {
      assert Renews(s.threads[u], q) && Renews(s.threads[v], q);
    }
  }

  lemma DrawSerial(s: System, t: nat, r: string, a: string)
    requires SerialInv(s) && Undisturbed(s, DrawIds(t, r, a))
    ensures SerialInv(Exec(s, DrawIds(t, r, a)))
  {
    if t in s.threads && AwaitsIds(s.threads[t].pc) && FreshIds(s.history, r, a) {
      var s' := Exec(s, DrawIds(t, r, a));
      DrawKeeps(s, t, r, a);
      DrawSame(s, t, r, a);
      DrawChains(s, t, r, a);
      DrawThreads(s, t, r, a);
      forall u | u in s'.threads && u != t
        ensures Achieved(s', s'.threads[u])
      {
        AchievedStays(s, DrawIds(t, r, a), u);
      }
    }
  }

  /** The labels that are neither a statement nor a draw leave rows and history alone. */
  lemma QuietLabels(s: System, l: Label)
    requires !l.Move? && !l.DrawIds? && Undisturbed(s, l)
    ensures exists t: int :: Quiet(s, Exec(s, l), t)
  {
    match l
    case Start(t, _) => assert Quiet(s, Exec(s, l), if t in s.threads then -1 else t);
    case Narrow(t, _) =>
      if t in s.threads && s.threads[t].pc.InRenew? && s.threads[t].pc.renew.RenewLoaded? {
        assert Quiet(s, Exec(s, l), t);
      } else {
        assert Quiet(s, Exec(s, l), -1);
      }
    case Abandon(t) => assert Quiet(s, Exec(s, l), if t in s.threads then t else -1);
    case Tick(_) => assert Quiet(s, Exec(s, l), -1);
    case Reconfigure(_) => assert Quiet(s, Exec(s, l), -1);
  }

  lemma SerialKeeps(s: System, l: Label)
    requires SerialInv(s) && Undisturbed(s, l)
    ensures SerialInv(Exec(s, l))
  {
    if l.Move? {
      if l.t in s.threads && CanMove(s.threads[l.t].pc) { SerialMove(s, l.t); }
    } else if l.DrawIds? {
      DrawSerial(s, l.t, l.refreshId, l.accessId);
    } else {
      ExecKeeps(s, l);
      QuietLabels(s, l);
      var t: int :| Quiet(s, Exec(s, l), t);
      QuietKeeps(s, l, t);
    }
  }

  lemma {:induction false} SerialRun(ls: seq<Label>)
    requires Serial(ls)
    ensures SerialInv(Run(ls))
  {
    if ls != [] {
      SerialRun(ls[..|ls| - 1]);
      SerialKeeps(Run(ls[..|ls| - 1]), ls[|ls| - 1]);
    }
  }
}
