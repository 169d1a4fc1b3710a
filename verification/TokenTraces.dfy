/** Runs with overlapping calls in which the guarantees of atomic methods fail. */
module TokenTraces {
  import opened TokenTables
  import opened TokenMachine
  import opened TokenAlone

  predicate DistinctIds(ids: seq<string>) {
    && (forall i :: 0 <= i < |ids| ==> ids[i] != "")
    && (forall i, j :: 0 <= i < j < |ids| ==> ids[i] != ids[j])
  }

  // ---- Building blocks: what a few labels do to the parts of the system that matter --------------

  function Login(t: nat, req: TokenRequest, r: string, a: string): seq<Label> {
    [Start(t, Issue(req))] + ([DrawIds(t, r, a)] + Moves(t, 4))
  }

  /** Thread t loads the request for `current` and gets as far as storing its access token. */
  function FirstHalf(t: nat, current: string, r: string, a: string): seq<Label> {
    [Start(t, Renew(current))] + (Moves(t, 1) + ([DrawIds(t, r, a)] + Moves(t, 2)))
  }

  /** Everything but thread t and the tables is as before; the drawn ids are recorded. */
  ghost predicate Aside(s: System, s': System, t: nat) {
    && s'.clock == s.clock
    && s'.threads.Keys == s.threads.Keys + {t}
    && (forall u :: u in s.threads && u != t ==> s'.threads[u] == s.threads[u])
    && (forall x :: x in s.history.minted ==> x in s'.history.minted && s'.history.minted[x] == s.history.minted[x])
  }

  lemma RunCons(s: System, l: Label, rest: seq<Label>)
    ensures RunFrom(s, [l] + rest) == RunFrom(Exec(s, l), rest)
  {
    RunOne(s, l);
    RunAppend(s, [l], rest);
  }

  lemma LoginDrawn(s: System, t: nat, req: TokenRequest, r: string, a: string)
    requires t !in s.threads && FreshIds(s.history, r, a)
    ensures var s' := Exec(Exec(s, Start(t, Issue(req))), DrawIds(t, r, a));
      && Aside(s, s', t) && s'.db == s.db
      && s'.threads[t].pc == InIssue(IssueLookup(Draft(a, req.Application(), r, req, s.clock), req.Amr(), req.AuthTime()))
      && s'.history.minted == s.history.minted[a := Access(t, r)][r := Refresh(t, a, r)]
  {
  }

  lemma LoginDone(s: System, t: nat, req: TokenRequest, r: string, a: string)
    requires t !in s.threads && FreshIds(s.history, r, a)
    requires r !in s.db.refreshTokens && a !in s.db.tokens
    ensures var s' := RunFrom(s, Login(t, req, r, a));
      && Aside(s, s', t)
      && s'.db == LoggedIn(s.db, s.clock, Draft(a, req.Application(), r, req, s.clock), req.Amr(), req.AuthTime())
      && s'.history.minted == s.history.minted[a := Access(t, r)][r := Refresh(t, a, r)]
  {
    var s1 := Exec(s, Start(t, Issue(req)));
    var s2 := Exec(s1, DrawIds(t, r, a));
    var d := Draft(a, req.Application(), r, req, s.clock);
    LoginDrawn(s, t, req, r, a);
    RunCons(s, Start(t, Issue(req)), [DrawIds(t, r, a)] + Moves(t, 4));
    RunCons(s1, DrawIds(t, r, a), Moves(t, 4));
    IssueSteps(s.db, s.clock, d, req.Amr(), req.AuthTime());
    MovesReach(s2, t, 4, LoggedIn(s.db, s.clock, d, req.Amr(), req.AuthTime()),
               Done(Issued(a, r, Dated(s.db, d).expiration)));
    AsideTransitive(s, s2, RunFrom(s2, Moves(t, 4)), t);
  }

  predicate AboutToReload(s: System, t: nat, current: string, r: string, a: string) {
    && t in s.threads && s.threads[t].call == Renew(current)
    && s.threads[t].pc.InRenew? && s.threads[t].pc.renew.RenewReload?
    && var p := s.threads[t].pc.renew; p.current == current && p.draft.id == a && p.draft.refreshTokenId == r
  }

  lemma Loaded(s: System, t: nat, current: string)
    requires t !in s.threads && current in s.db.refreshTokens
    ensures var s' := RunFrom(s, [Start(t, Renew(current))] + Moves(t, 1));
      && Aside(s, s', t) && s'.db == s.db && s'.history.minted == s.history.minted
      && s'.threads[t].call == Renew(current)
      && s'.threads[t].pc == InRenew(RenewLoaded(current, s.db.refreshTokens[current]))
  {
    RunCons(s, Start(t, Renew(current)), Moves(t, 1));
    MovesAreSteps(Exec(s, Start(t, Renew(current))), t, 1);
  }

  lemma Stored(s: System, t: nat, current: string, row: RefreshRow, r: string, a: string)
    requires t in s.threads && s.threads[t].call == Renew(current) && s.threads[t].pc == InRenew(RenewLoaded(current, row))
    requires FreshIds(s.history, r, a) && a !in s.db.tokens
    requires current in s.history.minted && s.history.minted[current].Refresh?
    ensures var s' := RunFrom(s, [DrawIds(t, r, a)] + Moves(t, 2));
      && Aside(s, s', t) && AboutToReload(s', t, current, r, a)
      && s'.db.tokens.Keys == s.db.tokens.Keys + {a} && s'.db.refreshTokens == s.db.refreshTokens
      && s'.history.minted == s.history.minted[a := Access(t, r)][r := Refresh(t, a, s.history.minted[current].root)]
  {
    var d := Draft(a, row.applicationId, r, FromRefresh(row), s.clock);
    var d' := Dated(s.db, d);
    RunCons(s, DrawIds(t, r, a), Moves(t, 2));
    StoreSteps(s.db, s.clock, current, d);
    MovesReach(Exec(s, DrawIds(t, r, a)), t, 2, s.db.(tokens := s.db.tokens[a := d']), InRenew(RenewReload(current, d')));
  }

  lemma AsideTransitive(s: System, s1: System, s2: System, t: nat)
    requires Aside(s, s1, t) && Aside(s1, s2, t)
    ensures Aside(s, s2, t)
  {
  }

  lemma FirstHalfDone(s: System, t: nat, current: string, r: string, a: string)
    requires t !in s.threads && FreshIds(s.history, r, a) && a !in s.db.tokens
    requires current in s.db.refreshTokens && current in s.history.minted && s.history.minted[current].Refresh?
    ensures var s' := RunFrom(s, FirstHalf(t, current, r, a));
      && Aside(s, s', t) && AboutToReload(s', t, current, r, a)
      && s'.db.tokens.Keys == s.db.tokens.Keys + {a} && s'.db.refreshTokens == s.db.refreshTokens
      && s'.history.minted == s.history.minted[a := Access(t, r)][r := Refresh(t, a, s.history.minted[current].root)]
  {
    var load := [Start(t, Renew(current))] + Moves(t, 1);
    var store := [DrawIds(t, r, a)] + Moves(t, 2);
    assert FirstHalf(t, current, r, a) == load + store;
    RunAppend(s, load, store);
    Loaded(s, t, current);
    var s1 := RunFrom(s, load);
    Stored(s1, t, current, s.db.refreshTokens[current], r, a);
    AsideTransitive(s, s1, RunFrom(s1, store), t);
  }

  /** The renewal from its reload on, when it finds its token unexpired. */
  lemma ReloadFinds(s: System, t: nat, current: string, r: string, a: string)
    requires AboutToReload(s, t, current, r, a)
    requires current in s.db.refreshTokens && s.clock <= s.db.refreshTokens[current].expiration
    ensures var s' := RunFrom(s, Moves(t, 1));
      && Aside(s, s', t) && s'.db == s.db && s'.threads[t].call == Renew(current)
      && s'.threads[t].pc.InRenew? && s'.threads[t].pc.renew.RenewDeleteRefresh?
      && var p := s'.threads[t].pc.renew;
         p.current == current && p.draft.id == a && p.draft.refreshTokenId == r && p.prior == s.db.refreshTokens[current]
  {
    MovesAreSteps(s, t, 1);
  }

  lemma SecondHalfDone(s: System, t: nat, current: string, d: TokenRow, prior: RefreshRow)
    requires t in s.threads && s.threads[t].pc == InRenew(RenewDeleteRefresh(current, d, prior))
    requires d.refreshTokenId !in s.db.refreshTokens
    ensures var s' := RunFrom(s, Moves(t, 3));
      && Aside(s, s', t) && s'.threads[t].call == s.threads[t].call && s'.history.minted == s.history.minted
      && s'.db == s.db.(tokens := s.db.tokens - {prior.accessToken},
                        refreshTokens := (s.db.refreshTokens - {current})[d.refreshTokenId :=
                          RenewedRow(prior, d.refreshTokenId, d.id, s.clock + FIVE_HOURS)])
      && s'.threads[t].pc == Done(Renewed(d.id, d.refreshTokenId, d.expiration))
  {
    RotateSteps(s.db, s.clock, current, d, prior);
    var db := s.db.(tokens := s.db.tokens - {prior.accessToken},
                    refreshTokens := (s.db.refreshTokens - {current})[d.refreshTokenId :=
                      RenewedRow(prior, d.refreshTokenId, d.id, s.clock + FIVE_HOURS)]);
    MovesReach(s, t, 3, db, Done(Renewed(d.id, d.refreshTokenId, d.expiration)));
  }

  // ---- The runs ------------------------------------------------------------------------------------

  /** One login; two clients renew its refresh token, and their statements interleave. */
  function TwoRenewals(req: TokenRequest, ids: seq<string>): seq<Label>
    requires |ids| == 6
  {
    Login(0, req, ids[0], ids[1]) +
    (FirstHalf(1, ids[0], ids[2], ids[3]) + (FirstHalf(2, ids[0], ids[4], ids[5]) +
    (Moves(1, 1) + (Moves(2, 1) + (Moves(1, 3) + Moves(2, 3))))))
  }

  lemma AfterLogin(req: TokenRequest, r: string, a: string)
    requires r != a && r != "" && a != ""
    ensures var s := RunFrom(Init(), Login(0, req, r, a));
      && s.clock == 0 && s.threads.Keys == {0}
      && s.db.tokens.Keys == {a} && s.db.refreshTokens.Keys == {r}
      && s.db.refreshTokens[r].accessToken == a && s.db.refreshTokens[r].expiration == FIVE_HOURS
      && s.db.refreshTokens[r].userId == req.Subject() && s.db.refreshTokens[r].applicationId == req.Application()
      && s.history.minted == map[a := Access(0, r), r := Refresh(0, a, r)]
  {
    LoginDone(Init(), 0, req, r, a);
  }

  lemma AfterFirstHalf(s: System, t: nat, current: string, r: string, a: string)
    requires t !in s.threads && FreshIds(s.history, r, a) && a !in s.db.tokens
    requires current in s.db.refreshTokens && current in s.history.minted && s.history.minted[current].Refresh?
    ensures var s' := RunFrom(s, FirstHalf(t, current, r, a));
      && s'.clock == s.clock && s'.threads.Keys == s.threads.Keys + {t} && AboutToReload(s', t, current, r, a)
      && s'.db.tokens.Keys == s.db.tokens.Keys + {a} && s'.db.refreshTokens == s.db.refreshTokens
      && s'.history.minted.Keys == s.history.minted.Keys + {r, a}
      && s'.history.minted[current] == s.history.minted[current]
      && Root(s'.history, r) == Root(s.history, current)
  {
    FirstHalfDone(s, t, current, r, a);
  }

  /** What other threads and records show after thread t has moved aside from them. */
  lemma StillThere(s: System, s': System, t: nat, u: nat, current: string, r: string, a: string)
    requires Aside(s, s', t) && u != t && AboutToReload(s, u, current, r, a) && r in s.history.minted
    ensures AboutToReload(s', u, current, r, a) && r in s'.history.minted && Root(s'.history, r) == Root(s.history, r)
  {
  }

  ghost predicate BothAboutToReload(s: System, ids: seq<string>)
    requires |ids| == 6
  {
    && s.clock == 0
    && AboutToReload(s, 1, ids[0], ids[2], ids[3]) && AboutToReload(s, 2, ids[0], ids[4], ids[5])
    && s.db.tokens.Keys == {ids[1], ids[3], ids[5]}
    && s.db.refreshTokens.Keys == {ids[0]} && s.db.refreshTokens[ids[0]].accessToken == ids[1]
    && s.db.refreshTokens[ids[0]].expiration == FIVE_HOURS
    && {ids[2], ids[4]} <= s.history.minted.Keys
    && Root(s.history, ids[2]) == ids[0] && Root(s.history, ids[4]) == ids[0]
  }

  ghost predicate OneAboutToReload(s: System, ids: seq<string>)
    requires |ids| == 6
  {
    && s.clock == 0 && s.threads.Keys == {0, 1}
    && AboutToReload(s, 1, ids[0], ids[2], ids[3])
    && s.db.tokens.Keys == {ids[1], ids[3]}
    && s.db.refreshTokens.Keys == {ids[0]} && s.db.refreshTokens[ids[0]].accessToken == ids[1]
    && s.db.refreshTokens[ids[0]].expiration == FIVE_HOURS
    && s.history.minted.Keys == {ids[0], ids[1], ids[2], ids[3]}
    && s.history.minted[ids[0]].Refresh? && s.history.minted[ids[0]].root == ids[0]
    && Root(s.history, ids[2]) == ids[0]
  }

  lemma FirstRenewalStored(req: TokenRequest, ids: seq<string>)
    requires |ids| == 6 && DistinctIds(ids)
    ensures OneAboutToReload(RunFrom(RunFrom(Init(), Login(0, req, ids[0], ids[1])), FirstHalf(1, ids[0], ids[2], ids[3])), ids)
  {
    var s0 := RunFrom(Init(), Login(0, req, ids[0], ids[1]));
    AfterLogin(req, ids[0], ids[1]);
    AfterFirstHalf(s0, 1, ids[0], ids[2], ids[3]);
  }

  lemma SecondRenewalStored(s: System, ids: seq<string>)
    requires |ids| == 6 && DistinctIds(ids) && OneAboutToReload(s, ids)
    ensures BothAboutToReload(RunFrom(s, FirstHalf(2, ids[0], ids[4], ids[5])), ids)
  {
    var s2 := RunFrom(s, FirstHalf(2, ids[0], ids[4], ids[5]));
    AfterFirstHalf(s, 2, ids[0], ids[4], ids[5]);
    FirstHalfAside(s, 2, ids[0], ids[4], ids[5]);
    StillThere(s, s2, 2, 1, ids[0], ids[2], ids[3]);
  }

  lemma FirstHalfAside(s: System, t: nat, current: string, r: string, a: string)
    requires t !in s.threads && FreshIds(s.history, r, a) && a !in s.db.tokens
    requires current in s.db.refreshTokens && current in s.history.minted && s.history.minted[current].Refresh?
    ensures Aside(s, RunFrom(s, FirstHalf(t, current, r, a)), t)
  {
    FirstHalfDone(s, t, current, r, a);
  }

  /** Between statements a refresh token can be renewed twice, which forks its chain: two refresh
      tokens and two valid access tokens, all in callers' hands. */
  lemma OverlappingRenewalsFork(req: TokenRequest, ids: seq<string>)
    requires |ids| == 6 && DistinctIds(ids)
    ensures var s := Run(TwoRenewals(req, ids));
      && 1 in s.threads && 2 in s.threads
      && s.threads[1].call == Renew(ids[0]) && s.threads[2].call == Renew(ids[0])
      && s.threads[1].pc.Done? && s.threads[1].pc.outcome.Renewed?
      && s.threads[1].pc.outcome.access == ids[3] && s.threads[1].pc.outcome.refresh == ids[2]
      && s.threads[2].pc.Done? && s.threads[2].pc.outcome.Renewed?
      && s.threads[2].pc.outcome.access == ids[5] && s.threads[2].pc.outcome.refresh == ids[4]
      && {ids[2], ids[4]} <= s.db.refreshTokens.Keys && {ids[3], ids[5]} <= s.db.tokens.Keys
      && Root(s.history, ids[2]) == Root(s.history, ids[4])
  {
    var tail := Moves(1, 1) + (Moves(2, 1) + (Moves(1, 3) + Moves(2, 3)));
    RunAppend(Init(), Login(0, req, ids[0], ids[1]),
              FirstHalf(1, ids[0], ids[2], ids[3]) + (FirstHalf(2, ids[0], ids[4], ids[5]) + tail));
    var s0 := RunFrom(Init(), Login(0, req, ids[0], ids[1]));
    RunAppend(s0, FirstHalf(1, ids[0], ids[2], ids[3]), FirstHalf(2, ids[0], ids[4], ids[5]) + tail);
    var s1 := RunFrom(s0, FirstHalf(1, ids[0], ids[2], ids[3]));
    RunAppend(s1, FirstHalf(2, ids[0], ids[4], ids[5]), tail);
    var s2 := RunFrom(s1, FirstHalf(2, ids[0], ids[4], ids[5]));
    FirstRenewalStored(req, ids);
    SecondRenewalStored(s1, ids);
    ForkFrom(s2, ids);
  }

  lemma ForkFrom(s: System, ids: seq<string>)
    requires |ids| == 6 && DistinctIds(ids) && BothAboutToReload(s, ids)
    ensures var s' := RunFrom(s, Moves(1, 1) + (Moves(2, 1) + (Moves(1, 3) + Moves(2, 3))));
      && 1 in s'.threads && 2 in s'.threads
      && s'.threads[1].call == Renew(ids[0]) && s'.threads[2].call == Renew(ids[0])
      && s'.threads[1].pc.Done? && s'.threads[1].pc.outcome.Renewed?
      && s'.threads[1].pc.outcome.access == ids[3] && s'.threads[1].pc.outcome.refresh == ids[2]
      && s'.threads[2].pc.Done? && s'.threads[2].pc.outcome.Renewed?
      && s'.threads[2].pc.outcome.access == ids[5] && s'.threads[2].pc.outcome.refresh == ids[4]
      && {ids[2], ids[4]} <= s'.db.refreshTokens.Keys && {ids[3], ids[5]} <= s'.db.tokens.Keys
      && Root(s'.history, ids[2]) == Root(s'.history, ids[4])
  {
    RunAppend(s, Moves(1, 1), Moves(2, 1) + (Moves(1, 3) + Moves(2, 3)));
    var s1 := RunFrom(s, Moves(1, 1));
    ReloadFinds(s, 1, ids[0], ids[2], ids[3]);
    RunAppend(s1, Moves(2, 1), Moves(1, 3) + Moves(2, 3));
    var s2 := RunFrom(s1, Moves(2, 1));
    ReloadFinds(s1, 2, ids[0], ids[4], ids[5]);
    RunAppend(s2, Moves(1, 3), Moves(2, 3));
    var s3 := RunFrom(s2, Moves(1, 3));
    var p := s2.threads[1].pc.renew;
    SecondHalfDone(s2, 1, p.current, p.draft, p.prior);
    var q := s3.threads[2].pc.renew;
    SecondHalfDone(s3, 2, q.current, q.draft, q.prior);
  }

  /** A renewal that has reloaded its token while the user's session with the client is terminated. */
  function RenewalAcrossTermination(req: TokenRequest, ids: seq<string>): seq<Label>
    requires |ids| == 6
  {
    Login(0, req, ids[0], ids[1]) +
    (FirstHalf(1, ids[0], ids[2], ids[3]) +
    (Moves(1, 1) + (([Start(2, Terminate(req.Subject(), req.Application()))] + Moves(2, 2)) + Moves(1, 3))))
  }

  lemma TerminateDone(s: System, t: nat, user: string, client: string)
    requires t !in s.threads
    ensures var s' := RunFrom(s, [Start(t, Terminate(user, client))] + Moves(t, 2));
      && Aside(s, s', t)
      && s'.db.refreshTokens.Keys <= s.db.refreshTokens.Keys
      && s'.threads[t].call == Terminate(user, client) && s'.threads[t].pc == Done(Terminated)
  {
    var s1 := Exec(s, Start(t, Terminate(user, client)));
    RunCons(s, Start(t, Terminate(user, client)), Moves(t, 2));
    TerminateSteps(s.db, s.clock, user, client);
    assert s1.db == s.db && s1.clock == s.clock && Aside(s, s1, t);
    MovesReach(s1, t, 2,
               s.db.(refreshTokens := s.db.refreshTokens - RefreshTokensOf(s.db, user, client),
                     tokens := s.db.tokens - AccessTokensOf(s.db, user, client)), Done(Terminated));
    AsideTransitive(s, s1, RunFrom(s1, Moves(t, 2)), t);
  }

  /** The renewal brings the terminated chain back: a refresh token of that user and client is
      stored, and handed out, after TerminateSession has returned. */
  lemma RenewalSurvivesTermination(req: TokenRequest, ids: seq<string>)
    requires |ids| == 6 && DistinctIds(ids)
    ensures var s := Run(RenewalAcrossTermination(req, ids));
      && 1 in s.threads && 2 in s.threads
      && s.threads[2].call == Terminate(req.Subject(), req.Application()) && s.threads[2].pc == Done(Terminated)
      && s.threads[1].pc.Done? && s.threads[1].pc.outcome.Renewed? && s.threads[1].pc.outcome.refresh == ids[2]
      && ids[2] in s.db.refreshTokens
      && s.db.refreshTokens[ids[2]].userId == req.Subject()
      && s.db.refreshTokens[ids[2]].applicationId == req.Application()
  {
    var terminate := [Start(2, Terminate(req.Subject(), req.Application()))] + Moves(2, 2);
    var s0 := RunFrom(Init(), Login(0, req, ids[0], ids[1]));
    var s1 := RunFrom(s0, FirstHalf(1, ids[0], ids[2], ids[3]));
    RunAppend(Init(), Login(0, req, ids[0], ids[1]), FirstHalf(1, ids[0], ids[2], ids[3]) + (Moves(1, 1) + (terminate + Moves(1, 3))));
    RunAppend(s0, FirstHalf(1, ids[0], ids[2], ids[3]), Moves(1, 1) + (terminate + Moves(1, 3)));
    FirstRenewalStored(req, ids);
    RowOfLogin(req, ids);
    RevivedFrom(s1, req.Subject(), req.Application(), ids);
  }

  lemma RowOfLogin(req: TokenRequest, ids: seq<string>)
    requires |ids| == 6 && DistinctIds(ids)
    ensures var s1 := RunFrom(RunFrom(Init(), Login(0, req, ids[0], ids[1])), FirstHalf(1, ids[0], ids[2], ids[3]));
      && ids[0] in s1.db.refreshTokens
      && s1.db.refreshTokens[ids[0]].userId == req.Subject() && s1.db.refreshTokens[ids[0]].applicationId == req.Application()
  {
    AfterLogin(req, ids[0], ids[1]);
    AfterFirstHalf(RunFrom(Init(), Login(0, req, ids[0], ids[1])), 1, ids[0], ids[2], ids[3]);
  }

  lemma TerminatedBetween(s: System, user: string, client: string, ids: seq<string>)
    requires |ids| == 6 && DistinctIds(ids) && OneAboutToReload(s, ids)
    ensures var s' := RunFrom(RunFrom(s, Moves(1, 1)), [Start(2, Terminate(user, client))] + Moves(2, 2));
      && 1 in s'.threads && 2 in s'.threads && s'.threads[2] == Thread(Terminate(user, client), Done(Terminated), s'.threads[2].mark)
      && s'.threads[1].pc.InRenew? && s'.threads[1].pc.renew.RenewDeleteRefresh?
      && s'.threads[1].pc.renew.prior == s.db.refreshTokens[ids[0]]
      && s'.threads[1].pc.renew.draft.refreshTokenId == ids[2] && s'.db.refreshTokens.Keys <= {ids[0]}
  {
    ReloadFinds(s, 1, ids[0], ids[2], ids[3]);
    TerminateDone(RunFrom(s, Moves(1, 1)), 2, user, client);
  }

  lemma RevivedFrom(s: System, user: string, client: string, ids: seq<string>)
    requires |ids| == 6 && DistinctIds(ids) && OneAboutToReload(s, ids)
    requires s.db.refreshTokens[ids[0]].userId == user && s.db.refreshTokens[ids[0]].applicationId == client
    ensures var s' := RunFrom(s, Moves(1, 1) + (([Start(2, Terminate(user, client))] + Moves(2, 2)) + Moves(1, 3)));
      && 1 in s'.threads && 2 in s'.threads
      && s'.threads[2].call == Terminate(user, client) && s'.threads[2].pc == Done(Terminated)
      && s'.threads[1].pc.Done? && s'.threads[1].pc.outcome.Renewed? && s'.threads[1].pc.outcome.refresh == ids[2]
      && ids[2] in s'.db.refreshTokens
      && s'.db.refreshTokens[ids[2]].userId == user && s'.db.refreshTokens[ids[2]].applicationId == client
  {
    var terminate := [Start(2, Terminate(user, client))] + Moves(2, 2);
    var s1 := RunFrom(s, Moves(1, 1));
    var s2 := RunFrom(s1, terminate);
    RunAppend(s, Moves(1, 1), terminate + Moves(1, 3));
    RunAppend(s1, terminate, Moves(1, 3));
    TerminatedBetween(s, user, client, ids);
    var p := s2.threads[1].pc.renew;
    SecondHalfDone(s2, 1, p.current, p.draft, p.prior);
  }
}
