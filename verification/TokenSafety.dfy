/** What holds of the token store under every interleaving of single statements, however many
    issue, renew, revoke and terminate calls are in flight or have died halfway. */
module TokenSafety {
  import opened TokenTables
  import opened TokenMachine
  import opened TokenInvariant
  import opened TokenPreservation

  lemma RunKeeps(ls: seq<Label>)
    ensures Inv(Run(ls))
  {
    RunFromKeeps(Init(), ls);
  }

  function GrantIn(row: RefreshRow): Grant {
    Grant(row.userId, row.applicationId, row.audience, row.amr, row.authTime, row.scopes)
  }

  /** Section 6 of RFC 6749: whatever scopes a caller narrowed its renewal to, each stored refresh
      token still carries exactly what the login at the head of its chain handed out; it and its
      access token point at each other; and no two refresh tokens share an access token. */
  lemma RefreshRowsCarryTheirGrant(ls: seq<Label>)
    ensures var s := Run(ls); var h := s.history;
      && (forall r :: r in s.db.refreshTokens ==>
            && Root(h, r) in h.grants && GrantIn(s.db.refreshTokens[r]) == h.grants[Root(h, r)]
            && var a := s.db.refreshTokens[r].accessToken;
               a in s.db.tokens ==>
                 s.db.tokens[a].refreshTokenId == r && s.db.tokens[a].subject == s.db.refreshTokens[r].userId)
      && (forall q, r | q in s.db.refreshTokens && r in s.db.refreshTokens ::
            s.db.refreshTokens[q].accessToken == s.db.refreshTokens[r].accessToken ==> q == r)
  {
    RunKeeps(ls);
    var s := Run(ls);
    forall r | r in s.db.refreshTokens
      ensures RefreshRecordOk(s.history, r)
    {
      assert RefreshRowOk(s.history, s.db.refreshTokens[r]);
    }
  }

  /** The chains mean what they should: a login's refresh token heads the chain of that login's
      request, and a renewal extends the chain of the token it renewed. No login ever fails. */
  lemma ChainsFollowTheCalls(ls: seq<Label>, t: nat)
    requires t in Run(ls).threads && Run(ls).threads[t].pc.Done?
    ensures var s := Run(ls); var h := s.history; var call := s.threads[t].call;
      match s.threads[t].pc.outcome
      case Issued(a, r, _) =>
        && call.Issue? && Root(h, r) == r && r in h.grants && h.grants[r] == GrantOf(call.request)
        && var g := h.grants[r];
           && PairAsked(call.request, g.client, g.user, g.audience, g.scopes)
           && SignedInAs(call.request, g.authTime, g.amr)
      case Renewed(a, r, _) => call.Renew? && r != call.current && Root(h, r) == Root(h, call.current)
      case Failed(_) => !call.Issue? && !call.IssueAccess?
      case _ => true
  {
    RunKeeps(ls);
    assert LocalsOk(Run(ls), t, Run(ls).threads[t]);
  }

  // ---- Renewing or revoking a token is final ------------------------------------------------

  /** The thread's call retired r: it renewed it, or it revoked it without an error after r had
      been issued. */
  predicate Retired(th: Thread, r: string) {
    && th.pc.Done?
    && match th.call
       case Renew(current) => current == r && th.pc.outcome.Renewed?
       case Revoke(token, _, _) =>
         token == r && r in th.mark
         && (th.pc.outcome.RevokedAccess? || th.pc.outcome.RevokedRefresh? || th.pc.outcome.RevokedUnknown?)
       case _ => false
  }

  lemma RetiredIsGone(s: System, t: nat, r: string)
    requires Inv(s) && t in s.threads && Retired(s.threads[t], r)
    ensures Gone(s, r)
  {
    assert LocalsOk(s, t, s.threads[t]);
  }

  /** A renewal of r that has got no further than its load. */
  predicate NoProgress(s: System, u: nat, r: string) {
    u in s.threads && s.threads[u].call == Renew(r) ==>
      s.threads[u].pc == InRenew(RenewLoad(r)) || s.threads[u].pc == Done(Failed(InvalidRefreshToken))
      || s.threads[u].pc == Done(Abandoned)
  }

  lemma ExecInterferes(s: System, l: Label)
    requires Inv(s)
    ensures exists mover :: Interferes(s, Exec(s, l), mover)
  {
    match l
    case Start(t, _) => assert Interferes(s, Exec(s, l), t);
    case DrawIds(t, r, a) =>
      if t in s.threads && AwaitsIds(s.threads[t].pc) && FreshIds(s.history, r, a) {
        assert LocalsOk(s, t, s.threads[t]);
        RecordKeeps(s.history, t, s.threads[t].pc, r, a);
      }
      assert Interferes(s, Exec(s, l), t);
    case Narrow(t, _) => assert Interferes(s, Exec(s, l), t);
    case Move(t) =>
      if t in s.threads && CanMove(s.threads[t].pc) { MoveMoves(s, t); }
      assert Interferes(s, Exec(s, l), t);
    case Abandon(t) => assert Interferes(s, Exec(s, l), t);
    case Tick(_) => assert Interferes(s, Exec(s, l), 0);
    case Reconfigure(_) => assert Interferes(s, Exec(s, l), 0);
  }

  lemma GoneBlocksRenewal(s: System, l: Label, u: nat, r: string)
    requires Inv(s) && Gone(s, r) && NoProgress(s, u, r)
    ensures Gone(Exec(s, l), r) && NoProgress(Exec(s, l), u, r)
  {
    ExecInterferes(s, l);
    var mover :| Interferes(s, Exec(s, l), mover);
    GoneIsForGood(s, Exec(s, l), mover, r);
    if u in s.threads {
      assert LocalsOk(s, u, s.threads[u]);
    }
  }

  lemma {:induction false} GoneBlocksRenewals(s: System, ls: seq<Label>, u: nat, r: string)
    requires Inv(s) && Gone(s, r) && NoProgress(s, u, r)
    ensures Gone(RunFrom(s, ls), r) && NoProgress(RunFrom(s, ls), u, r)
  {
    if ls != [] {
      var front := ls[..|ls| - 1];
      GoneBlocksRenewals(s, front, u, r);
      RunFromKeeps(s, front);
      GoneBlocksRenewal(RunFrom(s, front), ls[|ls| - 1], u, r);
    }
  }

  /** A refresh token that was renewed or revoked stays retired: in every continuation, every
      renewal of it that starts afterwards fails, and its row never comes back. */
  lemma RetiredTokensStayRetired(ls: seq<Label>, more: seq<Label>, t: nat, r: string, u: nat)
    requires t in Run(ls).threads && Retired(Run(ls).threads[t], r)
    requires u !in Run(ls).threads
    ensures var s := RunFrom(Run(ls), more);
      && r !in s.db.refreshTokens
      && (u in s.threads && s.threads[u].call == Renew(r) && s.threads[u].pc.Done? ==>
            s.threads[u].pc.outcome == Failed(InvalidRefreshToken) || s.threads[u].pc.outcome == Abandoned)
  {
    RunKeeps(ls);
    RetiredIsGone(Run(ls), t, r);
    GoneBlocksRenewals(Run(ls), more, u, r);
  }

  lemma {:induction false} GoneForGood(s: System, ls: seq<Label>, x: string)
    requires Inv(s) && Gone(s, x)
    ensures Gone(RunFrom(s, ls), x)
  {
    if ls != [] {
      var front := ls[..|ls| - 1];
      GoneForGood(s, front, x);
      RunFromKeeps(s, front);
      ExecInterferes(RunFrom(s, front), ls[|ls| - 1]);
      var mover :| Interferes(RunFrom(s, front), RunFrom(s, ls), mover);
      GoneIsForGood(RunFrom(s, front), RunFrom(s, ls), mover, x);
    }
  }

  /** Retiring a refresh token this way also kills the access token issued with it, for good. */
  lemma RetiredAccessTokensStayDead(ls: seq<Label>, more: seq<Label>, t: nat, r: string)
    requires t in Run(ls).threads && Retired(Run(ls).threads[t], r)
    requires Run(ls).threads[t].pc.outcome.Renewed? || Run(ls).threads[t].pc.outcome.RevokedRefresh?
    ensures IsRefresh(Run(ls).history, r)
    ensures Run(ls).history.minted[r].access !in RunFrom(Run(ls), more).db.tokens
  {
    RunKeeps(ls);
    var s := Run(ls);
    assert LocalsOk(s, t, s.threads[t]);
    GoneForGood(s, more, s.history.minted[r].access);
  }
}
