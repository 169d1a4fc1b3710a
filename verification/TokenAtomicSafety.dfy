/** The guarantees of the token store when its methods do not overlap. */
module TokenAtomicSafety {
  import opened TokenMachine
  import opened TokenInvariant
  import opened TokenPreservation
  import opened TokenSafety
  import opened TokenSerial

  /** Every refresh token is renewed at most once, every chain has at most one refresh token, and
      of the access tokens that callers hold at most one per chain is valid. */
  lemma ChainsDoNotFork(ls: seq<Label>)
    requires Serial(ls)
    ensures var s := Run(ls);
      && OneRowPerChain(s)
      && OneLivePerChain(s)
      && (forall t, u | t in s.threads && u in s.threads && s.threads[t].call.Renew?
            && s.threads[t].call == s.threads[u].call
            && s.threads[t].pc.Done? && s.threads[t].pc.outcome.Renewed?
            && s.threads[u].pc.Done? && s.threads[u].pc.outcome.Renewed? :: t == u)
  {
    SerialRun(ls);
    var s := Run(ls);
    forall t, u | t in s.threads && u in s.threads && s.threads[t].call.Renew?
        && s.threads[t].call == s.threads[u].call
        && s.threads[t].pc.Done? && s.threads[t].pc.outcome.Renewed?
        && s.threads[u].pc.Done? && s.threads[u].pc.outcome.Renewed?
      ensures t == u
    {
      assert Renews(s.threads[t], s.threads[t].call.current) && Renews(s.threads[u], s.threads[t].call.current);
    }
  }

  lemma {:induction false} DeadForGood(s: System, ls: seq<Label>, root: string)
    requires Inv(s) && Dead(s, root) && root in s.history.inserted
    ensures Dead(RunFrom(s, ls), root) && HistoryGrows(s.history, RunFrom(s, ls).history)
  {
    if ls != [] {
      var front := ls[..|ls| - 1];
      DeadForGood(s, front, root);
      RunFromKeeps(s, front);
      DeadStays(RunFrom(s, front), ls[|ls| - 1], root);
      ExecInterferes(RunFrom(s, front), ls[|ls| - 1]);
    }
  }

  /** Nothing of r's chain can be used, and no renewal that has not started can succeed. */
  ghost predicate ChainEnded(before: System, s: System, r: string) {
    && Dead(s, Root(before.history, r))
    && forall q, u | q in before.history.inserted && IsRefresh(before.history, q)
         && Root(before.history, q) == Root(before.history, r)
         && u !in before.threads && u in s.threads && s.threads[u].call == Renew(q) && s.threads[u].pc.Done? ::
         !s.threads[u].pc.outcome.Renewed?
  }

  lemma DeadChainEnded(s: System, more: seq<Label>, r: string)
    requires Inv(s) && IsRefresh(s.history, r) && r in s.history.inserted && Dead(s, Root(s.history, r))
    ensures ChainEnded(s, RunFrom(s, more), r)
  {
    RootInserted(s.history, r);
    DeadForGood(s, more, Root(s.history, r));
    var s' := RunFrom(s, more);
    forall q, u | q in s.history.inserted && IsRefresh(s.history, q) && Root(s.history, q) == Root(s.history, r)
        && u !in s.threads && u in s'.threads && s'.threads[u].call == Renew(q) && s'.threads[u].pc.Done?
      ensures !s'.threads[u].pc.outcome.Renewed?
    {
      NotATokenRow(s, q);
      GoneBlocksRenewals(s, more, u, q);
    }
  }

  lemma NotATokenRow(s: System, q: string)
    requires Inv(s) && IsRefresh(s.history, q)
    ensures q !in s.db.tokens
  {
    assert q in s.db.tokens ==> TokenRowOk(s.history, s.db.tokens[q]);
  }

  /** Section 2.1 of RFC 7009: once RevokeToken has deleted a refresh token, no access token of
      its chain that a caller holds is valid and the chain cannot be renewed, whatever runs
      afterwards, overlapping or not. Rows left by failed renewals were never handed out. */
  lemma RevocationEndsTheChain(ls: seq<Label>, more: seq<Label>, t: nat)
    requires Serial(ls) && t in Run(ls).threads
    requires Run(ls).threads[t].pc == Done(RevokedRefresh)
    ensures Run(ls).threads[t].call.Revoke?
    ensures ChainEnded(Run(ls), RunFrom(Run(ls), more), Run(ls).threads[t].call.token)
  {
    SerialRun(ls);
    var s := Run(ls);
    assert LocalsOk(s, t, s.threads[t]) && Achieved(s, s.threads[t]);
    DeadChainEnded(s, more, s.threads[t].call.token);
  }

  /** After TerminateSession the chains that user and client had by then are over, for good. */
  lemma TerminationEndsTheChains(ls: seq<Label>, more: seq<Label>, t: nat, r: string)
    requires Serial(ls) && t in Run(ls).threads
    requires Run(ls).threads[t].pc == Done(Terminated) && Run(ls).threads[t].call.Terminate?
    requires r in Run(ls).threads[t].mark
    requires BelongsTo(Run(ls).history, r, Run(ls).threads[t].call.user, Run(ls).threads[t].call.client)
    ensures ChainEnded(Run(ls), RunFrom(Run(ls), more), r)
  {
    SerialRun(ls);
    var s := Run(ls);
    assert Achieved(s, s.threads[t]) && s.threads[t].mark <= s.history.inserted;
    DeadChainEnded(s, more, r);
  }

  /** When TerminateSession returns, no row of that user and client is left in either table. */
  lemma TerminationLeavesNothing(ls: seq<Label>, t: nat)
    requires Serial(ls) && t in Run(ls).threads && OthersIdle(Run(ls), t)
    requires Run(ls).threads[t].pc.InTerminate? && Run(ls).threads[t].pc.terminate.TerminateAccess?
    ensures var s := Exec(Run(ls), Move(t)); var p := Run(ls).threads[t].pc.terminate;
      && s.threads[t].pc == Done(Terminated)
      && s.threads[t].call == Terminate(p.user, p.client)
      && (forall r :: r in s.db.refreshTokens ==>
            !(s.db.refreshTokens[r].userId == p.user && s.db.refreshTokens[r].applicationId == p.client))
      && (forall a :: a in s.db.tokens ==>
            !(s.db.tokens[a].subject == p.user && s.db.tokens[a].applicationId == p.client))
      && RefreshTokensOf(s.db, p.user, p.client) == {} && AccessTokensOf(s.db, p.user, p.client) == {}
  {
    SerialRun(ls);
    assert ActiveOk(Run(ls), Run(ls).threads[t].pc);
    assert LocalsOk(Run(ls), t, Run(ls).threads[t]);
    var s := Exec(Run(ls), Move(t));
    var p := Run(ls).threads[t].pc.terminate;
    forall r | r in s.db.refreshTokens
      ensures !(s.db.refreshTokens[r].userId == p.user && s.db.refreshTokens[r].applicationId == p.client)
    {
      assert r !in RefreshTokensOf(s.db, p.user, p.client);
    }
    forall a | a in s.db.tokens
      ensures !(s.db.tokens[a].subject == p.user && s.db.tokens[a].applicationId == p.client)
    {
      assert a !in AccessTokensOf(s.db, p.user, p.client);
    }
  }
}
