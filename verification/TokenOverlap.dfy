/** Exactly when overlapping calls fork a chain or outlive the termination of a session. */
module TokenOverlap {
  import opened Prelude
  import opened TokenTables
  import opened TokenMachine
  import opened TokenInvariant
  import opened TokenPreservation
  import opened TokenSafety
  import opened TokenSerial
  import opened TokenAlone

  /** Thread t's renewal reloads its token, finds it valid, and will go on. */
  predicate Finds(s: System, t: nat) {
    && t in s.threads && s.threads[t].pc.InRenew? && s.threads[t].pc.renew.RenewReload?
    && s.threads[t].pc.renew.current in s.db.refreshTokens
    && s.clock <= s.db.refreshTokens[s.threads[t].pc.renew.current].expiration
  }

  /** It does so while another renewal of the same token has reloaded it but not yet deleted it. */
  ghost predicate Collides(s: System, t: nat) {
    Finds(s, t) && exists u :: u in s.threads && u != t && AboutToDelete(s.threads[u].pc, s.threads[t].pc.renew.current)
  }

  // ---- A refresh token is renewed once, if and only if no two renewals collide ------------------------

  lemma FindsCommits(s: System, t: nat, r: string)
    requires Inv(s) && t in s.threads && CanMove(s.threads[t].pc)
    requires Renews(MoveThread(s, t).threads[t], r) && !Renews(s.threads[t], r)
    ensures Finds(s, t) && s.threads[t].pc.renew.current == r
  {
    assert LocalsOk(s, t, s.threads[t]);
  }

  lemma ApartRenewsOnce(s: System, t: nat)
    requires Inv(s) && RenewedOnce(s) && t in s.threads && CanMove(s.threads[t].pc) && !Collides(s, t)
    ensures RenewedOnce(MoveThread(s, t))
  {
    var s' := MoveThread(s, t);
    forall u, v, r | u in s'.threads && v in s'.threads && Renews(s'.threads[u], r) && Renews(s'.threads[v], r)
      ensures u == v
    {
      if u == t && v != t && !Renews(s.threads[t], r) { FindsCommits(s, t, r); RenewerHasDeleted(s, v, r); }
      if v == t && u != t && !Renews(s.threads[t], r) { FindsCommits(s, t, r); RenewerHasDeleted(s, u, r); }
    }
  }

  lemma FindsMoves(s: System, t: nat)
    requires Finds(s, t)
    ensures var s' := MoveThread(s, t); var c := s.threads[t].pc.renew.current;
      && s'.db == s.db && s'.clock == s.clock && s'.history.minted == s.history.minted
      && s'.threads.Keys == s.threads.Keys && (forall u :: u in s.threads && u != t ==> s'.threads[u] == s.threads[u])
      && AboutToDelete(s'.threads[t].pc, c) && s'.threads[t].call == s.threads[t].call
  {
  }

  lemma CollisionRenewsTwice(s: System, t: nat)
    requires Inv(s) && Collides(s, t)
    ensures !RenewedOnce(MoveThread(s, t))
  {
    var s' := MoveThread(s, t);
    var c := s.threads[t].pc.renew.current;
    var u :| u in s.threads && u != t && AboutToDelete(s.threads[u].pc, c);
    FindsMoves(s, t);
    assert LocalsOk(s, t, s.threads[t]) && LocalsOk(s, u, s.threads[u]);
    assert Renews(s'.threads[t], c) && Renews(s'.threads[u], c);
  }

  /** The label is not a collision. */
  ghost predicate Apart(s: System, l: Label) {
    l.Move? ==> !Collides(s, l.t)
  }

  lemma RenewedOnceQuiet(s: System, l: Label)
    requires RenewedOnce(s) && !l.Move?
    ensures RenewedOnce(Exec(s, l))
  {
    var s' := Exec(s, l);
    forall u, v, r | u in s'.threads && v in s'.threads && Renews(s'.threads[u], r) && Renews(s'.threads[v], r)
      ensures u == v
    {
      assert Renews(s.threads[u], r) && Renews(s.threads[v], r);
    }
  }

  lemma RenewedOnceStep(s: System, l: Label)
    requires Inv(s) && RenewedOnce(s)
    ensures RenewedOnce(Exec(s, l)) <==> Apart(s, l)
  {
    if !l.Move? {
      RenewedOnceQuiet(s, l);
    } else if l.t in s.threads && CanMove(s.threads[l.t].pc) {
      if Collides(s, l.t) { CollisionRenewsTwice(s, l.t); } else { ApartRenewsOnce(s, l.t); }
    }
  }

  ghost predicate OnceAt(ls: seq<Label>, n: nat)
    requires n <= |ls|
  {
    RenewedOnce(Run(ls[..n]))
  }

  ghost predicate ApartAt(ls: seq<Label>, n: nat)
    requires n < |ls|
  {
    Apart(Run(ls[..n]), ls[n])
  }

  lemma OnceStep(ls: seq<Label>, n: nat)
    requires n < |ls| && OnceAt(ls, n)
    ensures OnceAt(ls, n + 1) <==> ApartAt(ls, n)
  {
    assert ls[..n + 1][..n] == ls[..n];
    RunKeeps(ls[..n]);
    RenewedOnceStep(Run(ls[..n]), ls[n]);
  }

  lemma {:induction false} OnceUpTo(ls: seq<Label>, n: nat)
    requires n <= |ls| && forall k :: 0 <= k < n ==> ApartAt(ls, k)
    ensures OnceAt(ls, n)
  {
    if n > 0 {
      OnceUpTo(ls, n - 1);
      OnceStep(ls, n - 1);
    }
  }

  /** Over any run, whatever overlaps: at no time has a refresh token been renewed, or is being
      renewed, by two calls, if and only if no renewal found its token while another renewal of it
      stood between its reload and its deletion. */
  lemma RenewedOnceIff(ls: seq<Label>)
    ensures (forall n | 0 <= n <= |ls| :: OnceAt(ls, n)) <==> (forall n | 0 <= n < |ls| :: ApartAt(ls, n))
  {
    if forall n | 0 <= n < |ls| :: ApartAt(ls, n) {
      forall n | 0 <= n <= |ls| ensures OnceAt(ls, n) { OnceUpTo(ls, n); }
    }
    if forall n | 0 <= n <= |ls| :: OnceAt(ls, n) {
      forall n | 0 <= n < |ls| ensures ApartAt(ls, n) { assert OnceAt(ls, n + 1); OnceStep(ls, n); }
    }
  }

  // ---- Without collisions no chain forks ----------------------------------------------------------------

  function Current(pc: Pc): string
    requires Committed(pc)
  {
    pc.renew.current
  }

  ghost predicate OneCommitted(s: System) {
    forall t, u | t in s.threads && u in s.threads && Committed(s.threads[t].pc) && Committed(s.threads[u].pc) ::
      Root(s.history, Current(s.threads[t].pc)) == Root(s.history, Current(s.threads[u].pc)) ==> t == u
  }

  /** The only row that the chain of a committed renewal can have is the one it will delete. */
  ghost predicate HoldsChain(s: System, pc: Pc)
    requires Committed(pc)
  {
    forall r :: r in s.db.refreshTokens && Root(s.history, r) == Root(s.history, Current(pc)) ==> AboutToDelete(pc, r)
  }

  ghost predicate Unforked(s: System) {
    && OneRowPerChain(s) && OneCommitted(s)
    && forall t :: t in s.threads && Committed(s.threads[t].pc) ==> HoldsChain(s, s.threads[t].pc)
  }

  /** A renewal becomes committed by finding its token. */
  lemma CommitsByFinding(s: System, t: nat)
    requires t in s.threads && CanMove(s.threads[t].pc) && Committed(MoveThread(s, t).threads[t].pc)
    ensures var pc := s.threads[t].pc; var s' := MoveThread(s, t);
      && Current(s'.threads[t].pc) == pc.renew.current
      && s'.history.minted == s.history.minted
      && if Finds(s, t) then s'.db == s.db && AboutToDelete(s'.threads[t].pc, pc.renew.current)
         else Committed(pc) && s'.db.refreshTokens == s.db.refreshTokens - (if AboutToDelete(pc, pc.renew.current) then {pc.renew.current} else {})
  {
  }

  lemma OneCommittedKept(s: System, t: nat, u: nat)
    requires Inv(s) && Unforked(s) && t in s.threads && CanMove(s.threads[t].pc) && !Collides(s, t)
    requires Committed(MoveThread(s, t).threads[t].pc)
    requires u in s.threads && u != t && Committed(s.threads[u].pc)
    ensures Root(s.history, Current(MoveThread(s, t).threads[t].pc)) != Root(s.history, Current(s.threads[u].pc))
  {
    CommitsByFinding(s, t);
    if Finds(s, t) {
      assert HoldsChain(s, s.threads[u].pc);
    }
  }

  lemma HoldsKeptByMover(s: System, t: nat)
    requires OneRowPerChain(s) && t in s.threads && CanMove(s.threads[t].pc)
    requires Committed(s.threads[t].pc) ==> HoldsChain(s, s.threads[t].pc)
    requires Committed(MoveThread(s, t).threads[t].pc)
    ensures HoldsChain(MoveThread(s, t), MoveThread(s, t).threads[t].pc)
  {
    CommitsByFinding(s, t);
  }

  /** A new row is in a chain without rows, and in that of no other committed renewal. */
  lemma LoneNewRow(s: System, t: nat, q: string)
    requires Inv(s) && Unforked(s) && t in s.threads && CanMove(s.threads[t].pc)
    requires q in MoveThread(s, t).db.refreshTokens && q !in s.db.refreshTokens
    ensures forall r :: r in s.db.refreshTokens ==> Root(s.history, r) != Root(s.history, q)
    ensures forall u :: u in s.threads && u != t && Committed(s.threads[u].pc) ==>
      Root(s.history, Current(s.threads[u].pc)) != Root(s.history, q)
  {
    NewRow(s, t, q);
    forall r | r in s.db.refreshTokens
      ensures Root(s.history, r) != Root(s.history, q)
    {
      assert RefreshRowOk(s.history, s.db.refreshTokens[r]);
      RootInserted(s.history, r);
      assert Committed(s.threads[t].pc) ==> HoldsChain(s, s.threads[t].pc);
    }
    forall u | u in s.threads && u != t && Committed(s.threads[u].pc)
      ensures Root(s.history, Current(s.threads[u].pc)) != Root(s.history, q)
    {
      assert LocalsOk(s, u, s.threads[u]);
      RootInserted(s.history, Current(s.threads[u].pc));
    }
  }

  lemma OneRowKeptApart(s: System, t: nat, q: string, r: string)
    requires Inv(s) && Unforked(s) && t in s.threads && CanMove(s.threads[t].pc)
    requires q in MoveThread(s, t).db.refreshTokens && r in MoveThread(s, t).db.refreshTokens
    requires Root(s.history, q) == Root(s.history, r)
    ensures q == r
  {
    WhatMovesAdd(s, t, q);
    WhatMovesAdd(s, t, r);
    if q !in s.db.refreshTokens {
      LoneNewRow(s, t, q);
    } else if r !in s.db.refreshTokens {
      LoneNewRow(s, t, r);
    }
  }

  lemma HoldsKeptByOther(s: System, t: nat, u: nat)
    requires Inv(s) && Unforked(s) && t in s.threads && CanMove(s.threads[t].pc)
    requires u in s.threads && u != t && Committed(s.threads[u].pc)
    ensures HoldsChain(MoveThread(s, t), s.threads[u].pc)
  {
    var s' := MoveThread(s, t);
    assert s'.history.minted == s.history.minted && HoldsChain(s, s.threads[u].pc);
    forall r | r in s'.db.refreshTokens && Root(s'.history, r) == Root(s'.history, Current(s.threads[u].pc))
      ensures AboutToDelete(s.threads[u].pc, r)
    {
      if r !in s.db.refreshTokens { LoneNewRow(s, t, r); }
    }
  }

  lemma UnforkedMove(s: System, t: nat)
    requires Inv(s) && Unforked(s) && t in s.threads && CanMove(s.threads[t].pc) && !Collides(s, t)
    ensures Unforked(MoveThread(s, t))
  {
    var s' := MoveThread(s, t);
    assert s'.history.minted == s.history.minted;
    forall q, r | q in s'.db.refreshTokens && r in s'.db.refreshTokens && Root(s'.history, q) == Root(s'.history, r)
      ensures q == r
    {
      OneRowKeptApart(s, t, q, r);
    }
    forall u | u in s'.threads && u != t && Committed(s'.threads[u].pc) && Committed(s'.threads[t].pc)
      ensures Root(s.history, Current(s'.threads[t].pc)) != Root(s.history, Current(s'.threads[u].pc))
    {
      OneCommittedKept(s, t, u);
    }
    forall u | u in s'.threads && Committed(s'.threads[u].pc)
      ensures HoldsChain(s', s'.threads[u].pc)
    {
      if u == t { HoldsKeptByMover(s, t); } else { HoldsKeptByOther(s, t, u); }
    }
  }

  lemma UnforkedDraw(s: System, t: nat, r: string, a: string)
    requires Inv(s) && Unforked(s) && t in s.threads && AwaitsIds(s.threads[t].pc) && FreshIds(s.history, r, a)
    ensures Unforked(Exec(s, DrawIds(t, r, a)))
  {
    var s' := Exec(s, DrawIds(t, r, a));
    DrawSame(s, t, r, a);
    forall u | u in s'.threads && Committed(s'.threads[u].pc)
      ensures u in s.threads && s'.threads[u] == s.threads[u]
      ensures Root(s'.history, Current(s.threads[u].pc)) == Root(s.history, Current(s.threads[u].pc))
      ensures HoldsChain(s', s.threads[u].pc)
    {
      assert LocalsOk(s, u, s.threads[u]);
      assert HoldsChain(s, s.threads[u].pc);
    }
  }

  lemma UnforkedQuiet(s: System, l: Label)
    requires Unforked(s) && !l.Move? && !l.DrawIds?
    ensures Unforked(Exec(s, l))
  {
    var s' := Exec(s, l);
    forall u | u in s'.threads && Committed(s'.threads[u].pc)
      ensures u in s.threads && s'.threads[u] == s.threads[u] && HoldsChain(s', s.threads[u].pc)
    {
      assert HoldsChain(s, s.threads[u].pc);
    }
  }

  lemma UnforkedStep(s: System, l: Label)
    requires Inv(s) && Unforked(s) && Apart(s, l)
    ensures Unforked(Exec(s, l))
  {
    match l
    case Move(t) => if t in s.threads && CanMove(s.threads[t].pc) { UnforkedMove(s, t); }
    case DrawIds(t, r, a) =>
      if t in s.threads && AwaitsIds(s.threads[t].pc) && FreshIds(s.history, r, a) { UnforkedDraw(s, t, r, a); }
    case _ => UnforkedQuiet(s, l);
  }

  /** A finished renewal has replaced r. */
  predicate Superseded(s: System, r: string) {
    exists t :: t in s.threads && Supersedes(s.threads[t], r)
  }

  predicate Supersedes(th: Thread, r: string) {
    th.call == Renew(r) && th.pc.Done? && th.pc.outcome.Renewed?
  }

  /** Of the refresh tokens a chain has ever had, at most one was not replaced. */
  ghost predicate OneTip(s: System) {
    forall q, r | q in s.history.inserted && r in s.history.inserted && IsRefresh(s.history, q) && IsRefresh(s.history, r) ::
      Root(s.history, q) == Root(s.history, r) && !Superseded(s, q) && !Superseded(s, r) ==> q == r
  }

  lemma SupersededStays(s: System, l: Label, r: string)
    requires Superseded(s, r)
    ensures Superseded(Exec(s, l), r)
  {
    var t :| t in s.threads && Supersedes(s.threads[t], r);
    assert Supersedes(Exec(s, l).threads[t], r);
  }

  /** A refresh id enters the tables as a new row. */
  lemma NewlyInserted(s: System, t: nat, x: string)
    requires Inv(s) && t in s.threads && CanMove(s.threads[t].pc)
    requires x in MoveThread(s, t).history.inserted && x !in s.history.inserted && IsRefresh(s.history, x)
    ensures InsertsRefresh(s.threads[t].pc, x) && x in MoveThread(s, t).db.refreshTokens && x !in s.db.refreshTokens
  {
    var s' := MoveThread(s, t);
    MoveKeeps(s, t);
    assert x in s'.db.tokens ==> TokenRowOk(s'.history, s'.db.tokens[x]);
    assert x in s.db.refreshTokens ==> RefreshRowOk(s.history, s.db.refreshTokens[x]);
    WhatMovesAdd(s, t, x);
  }

  /** Inserting the row of a renewal is the statement that replaces the renewed token. */
  lemma InsertSupersedes(s: System, t: nat, x: string)
    requires Inv(s) && t in s.threads && s.threads[t].pc.InRenew? && InsertsRefresh(s.threads[t].pc, x)
    requires x in MoveThread(s, t).db.refreshTokens && x !in s.db.refreshTokens
    ensures Supersedes(MoveThread(s, t).threads[t], s.threads[t].pc.renew.current)
  {
    assert LocalsOk(s, t, s.threads[t]);
  }

  /** A new refresh token leaves its chain no other token that was not replaced. */
  lemma NewTip(s: System, t: nat, x: string, q: string)
    requires Inv(s) && RenewedOnce(s) && OneTip(s) && t in s.threads && CanMove(s.threads[t].pc)
    requires x in MoveThread(s, t).history.inserted && x !in s.history.inserted && IsRefresh(s.history, x)
    requires q in s.history.inserted && IsRefresh(s.history, q) && Root(s.history, q) == Root(s.history, x)
    ensures Superseded(MoveThread(s, t), q)
  {
    NewlyInserted(s, t, x);
    NewRow(s, t, x);
    RootInserted(s.history, q);
    var c := s.threads[t].pc.renew.current;
    assert LocalsOk(s, t, s.threads[t]);
    InsertSupersedes(s, t, x);
    if q != c {
      NotYetSuperseded(s, t);
      SupersededStays(s, Move(t), q);
    }
  }

  lemma NotYetSuperseded(s: System, t: nat)
    requires Inv(s) && RenewedOnce(s) && t in s.threads && Committed(s.threads[t].pc)
    ensures !Superseded(s, Current(s.threads[t].pc))
  {
    assert LocalsOk(s, t, s.threads[t]);
    forall u | u in s.threads && Supersedes(s.threads[u], Current(s.threads[t].pc))
      ensures u == t
    {
      assert Renews(s.threads[u], Current(s.threads[t].pc)) && Renews(s.threads[t], Current(s.threads[t].pc));
    }
  }

  lemma OneTipMove(s: System, t: nat)
    requires Inv(s) && RenewedOnce(s) && OneTip(s) && t in s.threads && CanMove(s.threads[t].pc)
    ensures OneTip(MoveThread(s, t))
  {
    var s' := MoveThread(s, t);
    assert s'.history.minted == s.history.minted;
    forall q, r | q in s'.history.inserted && r in s'.history.inserted && IsRefresh(s.history, q) && IsRefresh(s.history, r)
        && Root(s.history, q) == Root(s.history, r) && !Superseded(s', q) && !Superseded(s', r)
      ensures q == r
    {
      if q in s.history.inserted && r in s.history.inserted {
        if Superseded(s, q) { SupersededStays(s, Move(t), q); }
        if Superseded(s, r) { SupersededStays(s, Move(t), r); }
      } else if q in s.history.inserted {
        NewTip(s, t, r, q);
      } else if r in s.history.inserted {
        NewTip(s, t, q, r);
      } else {
        NewlyInserted(s, t, q);
        NewlyInserted(s, t, r);
      }
    }
  }

  lemma OneTipDraw(s: System, t: nat, r: string, a: string)
    requires Inv(s) && OneTip(s) && t in s.threads && AwaitsIds(s.threads[t].pc) && FreshIds(s.history, r, a)
    ensures OneTip(Exec(s, DrawIds(t, r, a)))
  {
    var s' := Exec(s, DrawIds(t, r, a));
    DrawGrows(s, t, r, a);
    forall q | q in s.history.inserted
      ensures q in s.history.minted && s'.history.minted[q] == s.history.minted[q]
      ensures Superseded(s, q) ==> Superseded(s', q)
    {
      if Superseded(s, q) { SupersededStays(s, DrawIds(t, r, a), q); }
    }
  }

  lemma OneTipStep(s: System, l: Label)
    requires Inv(s) && RenewedOnce(s) && OneTip(s)
    ensures OneTip(Exec(s, l))
  {
    match l
    case Move(t) => if t in s.threads && CanMove(s.threads[t].pc) { OneTipMove(s, t); }
    case DrawIds(t, r, a) =>
      if t in s.threads && AwaitsIds(s.threads[t].pc) && FreshIds(s.history, r, a) { OneTipDraw(s, t, r, a); }
    case _ =>
      forall q | Superseded(s, q) ensures Superseded(Exec(s, l), q) { SupersededStays(s, l, q); }
  }

  lemma LiveIsTip(s: System, a: string)
    requires Inv(s) && Live(s, a)
    ensures var r := s.history.minted[a].refresh;
      && IsRefresh(s.history, r) && s.history.minted[r].access == a && r in s.history.inserted
      && !Superseded(s, r)
  {
    var r := s.history.minted[a].refresh;
    assert AccessRecordOk(s.history, a);
    forall t | t in s.threads
      ensures !Supersedes(s.threads[t], r)
    {
      assert LocalsOk(s, t, s.threads[t]);
    }
  }

  lemma OneTipOneLive(s: System)
    requires Inv(s) && OneTip(s)
    ensures OneLivePerChain(s)
  {
    forall a, b | Live(s, a) && Live(s, b) && ChainOf(s.history, a) == ChainOf(s.history, b)
      ensures a == b
    {
      LiveIsTip(s, a);
      LiveIsTip(s, b);
    }
  }

  /** Whatever else overlaps or dies halfway, without collisions a chain never has two refresh tokens,
      nor two valid access tokens that were handed out. */
  lemma {:induction false} ApartChainsDoNotFork(ls: seq<Label>)
    requires forall n | 0 <= n < |ls| :: ApartAt(ls, n)
    ensures OneRowPerChain(Run(ls)) && OneLivePerChain(Run(ls))
    ensures Unforked(Run(ls)) && OneTip(Run(ls))
  {
    RunKeeps(ls);
    if ls != [] {
      var front := ls[..|ls| - 1];
      forall n | 0 <= n < |front|
        ensures ApartAt(front, n)
      {
        assert front[..n] == ls[..n];
        assert ApartAt(ls, n);
      }
      ApartChainsDoNotFork(front);
      assert ApartAt(ls, |ls| - 1);
      ApartStep(front, ls[|ls| - 1]);
    }
    OneTipOneLive(Run(ls));
  }

  lemma ApartStep(ls: seq<Label>, l: Label)
    requires Unforked(Run(ls)) && OneTip(Run(ls)) && Apart(Run(ls), l)
    requires forall n | 0 <= n < |ls| :: ApartAt(ls, n)
    ensures Unforked(Exec(Run(ls), l)) && OneTip(Exec(Run(ls), l))
  {
    RunKeeps(ls);
    OnceUpTo(ls, |ls|);
    assert ls[..|ls|] == ls;
    UnforkedStep(Run(ls), l);
    OneTipStep(Run(ls), l);
  }

  // ---- A committed renewal goes through -----------------------------------------------------------------

  lemma DraftIsNew(s: System, u: nat)
    requires Inv(s) && u in s.threads && Committed(s.threads[u].pc)
    ensures var d := s.threads[u].pc.renew.draft;
      && d.refreshTokenId !in s.db.refreshTokens
      && d.refreshTokenId in s.history.minted && s.history.minted[d.refreshTokenId].owner == u
      && Root(s.history, d.refreshTokenId) == Root(s.history, Current(s.threads[u].pc))
      && d.refreshTokenId != Current(s.threads[u].pc)
  {
    assert LocalsOk(s, u, s.threads[u]);
    var r := s.threads[u].pc.renew.draft.refreshTokenId;
    assert r in s.db.refreshTokens ==> RefreshRowOk(s.history, s.db.refreshTokens[r]);
  }

  /** How many statements a committed renewal has left. */
  function Left(pc: RenewPc): nat {
    match pc
    case RenewDeleteRefresh(_, _, _) => 3
    case RenewDeleteAccess(_, _, _) => 2
    case _ => 1
  }

  lemma CommittedSteps(db: Tables, now: Time, pc: Pc)
    requires Committed(pc) && pc.renew.draft.refreshTokenId !in db.refreshTokens
    ensures var (db', pc') := Steps(db, now, pc, Left(pc.renew)); var d := pc.renew.draft;
      && d.refreshTokenId in db'.refreshTokens
      && db'.refreshTokens.Keys >= db.refreshTokens.Keys - {Current(pc)}
      && pc' == Done(Renewed(d.id, d.refreshTokenId, d.expiration))
  {
    var p := pc.renew;
    if p.RenewDeleteRefresh? {
      RotateSteps(db, now, p.current, p.draft, p.prior);
    } else if p.RenewDeleteAccess? {
      assert Steps(db, now, pc, 2) ==
        Steps(db.(tokens := db.tokens - {p.prior.accessToken}), now, InRenew(RenewInsertRefresh(p.current, p.draft, p.prior)), 1);
    }
  }

  /** Every committed renewal, left to itself, succeeds and gives its chain a refresh token. */
  lemma CommittedRevives(s: System, u: nat)
    requires Inv(s) && u in s.threads && Committed(s.threads[u].pc)
    ensures var s' := RunFrom(s, Moves(u, Left(s.threads[u].pc.renew))); var d := s.threads[u].pc.renew.draft;
      && d.refreshTokenId in s'.db.refreshTokens
      && s'.db.refreshTokens.Keys >= s.db.refreshTokens.Keys - {Current(s.threads[u].pc)}
      && s'.threads.Keys == s.threads.Keys && (forall v :: v in s.threads && v != u ==> s'.threads[v] == s.threads[v])
      && s'.threads[u].pc == Done(Renewed(d.id, d.refreshTokenId, d.expiration))
      && s'.history.minted == s.history.minted
      && Root(s'.history, d.refreshTokenId) == Root(s.history, Current(s.threads[u].pc))
  {
    DraftIsNew(s, u);
    CommittedSteps(s.db, s.clock, s.threads[u].pc);
    MovesAreSteps(s, u, Left(s.threads[u].pc.renew));
  }

  /** After a collision both renewals are about to delete the same token. */
  lemma CollisionLeavesTwo(s: System, t: nat) returns (u: nat)
    requires Collides(s, t)
    ensures var s' := Exec(s, Move(t)); var c := s.threads[t].pc.renew.current;
      && u != t && t in s'.threads && u in s'.threads
      && AboutToDelete(s'.threads[t].pc, c) && AboutToDelete(s'.threads[u].pc, c)
  {
    u :| u in s.threads && u != t && AboutToDelete(s.threads[u].pc, s.threads[t].pc.renew.current);
    FindsMoves(s, t);
  }

  /** Every collision can fork its chain: both renewals go through and leave two refresh tokens. */
  lemma CollisionCanFork(ls: seq<Label>, t: nat)
    requires Collides(Run(ls), t)
    ensures exists more :: !OneRowPerChain(RunFrom(Run(ls), more))
  {
    var s := Run(ls);
    RunKeeps(ls);
    var u := CollisionLeavesTwo(s, t);
    ExecKeeps(s, Move(t));
    BothGoThrough(Exec(s, Move(t)), t, u, s.threads[t].pc.renew.current);
    RunOne(s, Move(t));
    RunAppend(s, [Move(t)], Moves(t, 3) + Moves(u, 3));
    assert !OneRowPerChain(RunFrom(s, [Move(t)] + (Moves(t, 3) + Moves(u, 3))));
  }

  lemma BothGoThrough(s: System, t: nat, u: nat, c: string)
    requires Inv(s) && t in s.threads && u in s.threads && u != t
    requires AboutToDelete(s.threads[t].pc, c) && AboutToDelete(s.threads[u].pc, c)
    ensures !OneRowPerChain(RunFrom(s, Moves(t, 3) + Moves(u, 3)))
  {
    CommittedRevives(s, t);
    DraftIsNew(s, t);
    RunFromKeeps(s, Moves(t, 3));
    RunAppend(s, Moves(t, 3), Moves(u, 3));
    SecondGoesThrough(RunFrom(s, Moves(t, 3)), t, u, s.threads[t].pc.renew.draft.refreshTokenId);
  }

  lemma SecondGoesThrough(s: System, t: nat, u: nat, q: string)
    requires Inv(s) && u in s.threads && u != t && Committed(s.threads[u].pc) && s.threads[u].pc.renew.RenewDeleteRefresh?
    requires q in s.db.refreshTokens && q in s.history.minted && s.history.minted[q].owner == t
    requires q != Current(s.threads[u].pc) && Root(s.history, q) == Root(s.history, Current(s.threads[u].pc))
    ensures !OneRowPerChain(RunFrom(s, Moves(u, 3)))
  {
    CommittedRevives(s, u);
    DraftIsNew(s, u);
    var s' := RunFrom(s, Moves(u, 3));
    var r := s.threads[u].pc.renew.draft.refreshTokenId;
    assert q in s'.db.refreshTokens && r in s'.db.refreshTokens && q != r;
    assert Root(s'.history, q) == Root(s'.history, r);
  }

  // ---- Termination ----------------------------------------------------------------------------------------

  /** Whatever runs afterwards, the chain has no refresh token again. */
  ghost predicate StaysEnded(s: System, root: string) {
    forall more :: NoRow(RunFrom(s, more), root)
  }

  lemma {:induction false} EndedForGood(s: System, ls: seq<Label>, root: string)
    requires Inv(s) && Ended(s, root) && root in s.history.inserted
    ensures Ended(RunFrom(s, ls), root) && HistoryGrows(s.history, RunFrom(s, ls).history)
  {
    if ls != [] {
      var front := ls[..|ls| - 1];
      EndedForGood(s, front, root);
      RunFromKeeps(s, front);
      EndedStays(RunFrom(s, front), ls[|ls| - 1], root);
      ExecInterferes(RunFrom(s, front), ls[|ls| - 1]);
    }
  }

  predicate AtTermination(s: System, t: nat, user: string, client: string) {
    t in s.threads && s.threads[t].pc == InTerminate(TerminateRefresh(user, client))
  }

  lemma TerminationClears(s: System, t: nat, user: string, client: string, r: string)
    requires Inv(s) && AtTermination(s, t, user, client) && BelongsTo(s.history, r, user, client)
    ensures var s' := Exec(s, Move(t));
      && Inv(s') && NoRow(s', Root(s.history, r)) && s'.history.minted == s.history.minted
      && s'.threads.Keys == s.threads.Keys && (forall u :: u in s.threads && u != t ==> s'.threads[u] == s.threads[u])
      && s'.threads[t].pc == InTerminate(TerminateAccess(user, client))
      && s.history.inserted <= s'.history.inserted
  {
    ExecKeeps(s, Move(t));
    NoRowOf(Exec(s, Move(t)), user, client, r);
  }

  /** In every interleaving: a chain that the user and client had when TerminateSession deletes the
      refresh tokens never gets a refresh token again, if and only if at that moment no renewal of
      the chain has found its token and is still to finish. */
  lemma TerminationIsFinalIff(ls: seq<Label>, t: nat, user: string, client: string, r: string)
    requires AtTermination(Run(ls), t, user, client)
    requires BelongsTo(Run(ls).history, r, user, client) && r in Run(ls).history.inserted
    ensures StaysEnded(Exec(Run(ls), Move(t)), Root(Run(ls).history, r)) <==> NoCommitted(Run(ls), Root(Run(ls).history, r))
  {
    var s := Run(ls);
    var s' := Exec(s, Move(t));
    var root := Root(s.history, r);
    RunKeeps(ls);
    RootInserted(s.history, r);
    TerminationClears(s, t, user, client, r);
    if NoCommitted(s, root) {
      EndedIsFinal(s', root);
    } else {
      var u :| u in s.threads && Committed(s.threads[u].pc) && Root(s.history, s.threads[u].pc.renew.current) == root;
      CommittedIsNotFinal(s', u, root);
    }
  }

  lemma EndedIsFinal(s: System, root: string)
    requires Inv(s) && Ended(s, root) && root in s.history.inserted
    ensures StaysEnded(s, root)
  {
    forall more
      ensures NoRow(RunFrom(s, more), root)
    {
      EndedForGood(s, more, root);
    }
  }

  lemma CommittedIsNotFinal(s: System, u: nat, root: string)
    requires Inv(s) && u in s.threads && Committed(s.threads[u].pc) && Root(s.history, s.threads[u].pc.renew.current) == root
    ensures !StaysEnded(s, root)
  {
    CommittedRevives(s, u);
    assert !NoRow(RunFrom(s, Moves(u, Left(s.threads[u].pc.renew))), root);
  }

  lemma RowIsNotFinal(s: System, q: string)
    requires q in s.db.refreshTokens
    ensures !StaysEnded(s, Root(s.history, q))
  {
    assert RunFrom(s, []) == s;
    assert !NoRow(RunFrom(s, []), Root(s.history, q));
  }

  predicate AtRevocation(s: System, t: nat, r: string) {
    t in s.threads && s.threads[t].pc.InRevoke? && s.threads[t].pc.revoke.RevokeDeleteRefresh?
    && s.threads[t].pc.revoke.prior.id == r
  }

  /** r is the only refresh token that its chain can have. */
  ghost predicate OnlyRow(s: System, r: string) {
    forall q :: q in s.db.refreshTokens && Root(s.history, q) == Root(s.history, r) ==> q == r
  }

  lemma RevocationDeletes(s: System, t: nat, r: string)
    requires Inv(s) && AtRevocation(s, t, r)
    ensures var s' := Exec(s, Move(t));
      && s'.db.refreshTokens == s.db.refreshTokens - {r} && s'.history.minted == s.history.minted
      && s'.threads.Keys == s.threads.Keys && (forall u :: u in s.threads && u != t ==> s'.threads[u] == s.threads[u])
      && !Committed(s'.threads[t].pc) && s.history.inserted <= s'.history.inserted
      && IsRefresh(s.history, r) && r in s.history.inserted
  {
    assert LocalsOk(s, t, s.threads[t]);
  }

  /** In every interleaving: after RevokeToken has deleted a refresh token, its chain never has a
      refresh token again, if and only if at that moment the chain had no other, and no renewal of it
      had found its token and was still to finish. */
  lemma RevocationIsFinalIff(ls: seq<Label>, t: nat, r: string)
    requires AtRevocation(Run(ls), t, r)
    ensures StaysEnded(Exec(Run(ls), Move(t)), Root(Run(ls).history, r)) <==>
      OnlyRow(Run(ls), r) && NoCommitted(Run(ls), Root(Run(ls).history, r))
  {
    RunKeeps(ls);
    RevocationOutcome(Run(ls), t, r);
  }

  lemma RevocationLeavesRow(s: System, t: nat, r: string)
    requires Inv(s) && AtRevocation(s, t, r) && !OnlyRow(s, r)
    ensures !StaysEnded(Exec(s, Move(t)), Root(s.history, r))
  {
    RevocationDeletes(s, t, r);
    var q :| q in s.db.refreshTokens && Root(s.history, q) == Root(s.history, r) && q != r;
    RowIsNotFinal(Exec(s, Move(t)), q);
  }

  lemma RevocationEnds(s: System, t: nat, r: string)
    requires Inv(s) && AtRevocation(s, t, r) && OnlyRow(s, r) && NoCommitted(s, Root(s.history, r))
    ensures var s' := Exec(s, Move(t)); var root := Root(s.history, r);
      Inv(s') && Ended(s', root) && root in s'.history.inserted
  {
    RevocationDeletes(s, t, r);
    ExecKeeps(s, Move(t));
    RootInserted(s.history, r);
  }

  lemma RevocationLeavesRenewal(s: System, t: nat, r: string)
    requires Inv(s) && AtRevocation(s, t, r) && !NoCommitted(s, Root(s.history, r))
    ensures !StaysEnded(Exec(s, Move(t)), Root(s.history, r))
  {
    RevocationDeletes(s, t, r);
    ExecKeeps(s, Move(t));
    var u :| u in s.threads && Committed(s.threads[u].pc) && Root(s.history, s.threads[u].pc.renew.current) == Root(s.history, r);
    CommittedIsNotFinal(Exec(s, Move(t)), u, Root(s.history, r));
  }

  lemma RevocationOutcome(s: System, t: nat, r: string)
    requires Inv(s) && AtRevocation(s, t, r)
    ensures StaysEnded(Exec(s, Move(t)), Root(s.history, r)) <==> OnlyRow(s, r) && NoCommitted(s, Root(s.history, r))
  {
    if !OnlyRow(s, r) {
      RevocationLeavesRow(s, t, r);
    } else if NoCommitted(s, Root(s.history, r)) {
      RevocationEnds(s, t, r);
      EndedIsFinal(Exec(s, Move(t)), Root(s.history, r));
    } else {
      RevocationLeavesRenewal(s, t, r);
    }
  }

  /** From then on the terminating thread leads to a dead chain. */
  ghost predicate Terminating(s: System, t: nat, user: string, client: string, root: string) {
    && Ended(s, root) && root in s.history.inserted
    && t in s.threads
    && (|| s.threads[t].pc == InTerminate(TerminateAccess(user, client))
        || s.threads[t].pc == Done(Abandoned)
        || (s.threads[t].pc == Done(Terminated) && Dead(s, root)))
  }

  lemma LiveTokensDeleted(s: System, t: nat, user: string, client: string, r: string)
    requires Inv(s) && t in s.threads && s.threads[t].pc == InTerminate(TerminateAccess(user, client))
    requires BelongsTo(s.history, r, user, client)
    ensures NoLive(MoveThread(s, t), Root(s.history, r))
  {
    var s' := MoveThread(s, t);
    forall a | Live(s', a)
      ensures ChainOf(s'.history, a) != Root(s.history, r)
    {
      if ChainOf(s'.history, a) == Root(s.history, r) {
        LiveBelongs(s, a, r, user, client);
      }
    }
  }

  lemma TerminatingStep(s: System, l: Label, t: nat, user: string, client: string, r: string)
    requires Inv(s) && BelongsTo(s.history, r, user, client) && Terminating(s, t, user, client, Root(s.history, r))
    ensures Terminating(Exec(s, l), t, user, client, Root(s.history, r))
    ensures BelongsTo(Exec(s, l).history, r, user, client) && Root(Exec(s, l).history, r) == Root(s.history, r)
  {
    var root := Root(s.history, r);
    EndedStays(s, l, root);
    ExecInterferes(s, l);
    if s.threads[t].pc == Done(Terminated) {
      DeadStays(s, l, root);
    } else if l == Move(t) && s.threads[t].pc.InTerminate? {
      LiveTokensDeleted(s, t, user, client, r);
    }
  }

  lemma {:induction false} TerminatingRun(s: System, ls: seq<Label>, t: nat, user: string, client: string, r: string)
    requires Inv(s) && BelongsTo(s.history, r, user, client) && Terminating(s, t, user, client, Root(s.history, r))
    ensures var s' := RunFrom(s, ls);
      Terminating(s', t, user, client, Root(s.history, r)) && BelongsTo(s'.history, r, user, client) && Root(s'.history, r) == Root(s.history, r)
  {
    if ls != [] {
      var front := ls[..|ls| - 1];
      TerminatingRun(s, front, t, user, client, r);
      RunFromKeeps(s, front);
      TerminatingStep(RunFrom(s, front), ls[|ls| - 1], t, user, client, r);
    }
  }

  /** With no such renewal under way, whatever overlaps: once TerminateSession has returned, the
      chain has neither a refresh token nor an access token in anyone's hands, then and ever after. */
  lemma TerminationKillsTheChain(ls: seq<Label>, more: seq<Label>, t: nat, user: string, client: string, r: string)
    requires AtTermination(Run(ls), t, user, client)
    requires BelongsTo(Run(ls).history, r, user, client) && r in Run(ls).history.inserted
    requires NoCommitted(Run(ls), Root(Run(ls).history, r))
    ensures var s := RunFrom(Exec(Run(ls), Move(t)), more);
      t in s.threads && s.threads[t].pc == Done(Terminated) ==> Dead(s, Root(Run(ls).history, r))
  {
    var s := Run(ls);
    RunKeeps(ls);
    RootInserted(s.history, r);
    TerminationClears(s, t, user, client, r);
    TerminatingRun(Exec(s, Move(t)), more, t, user, client, r);
  }

  /** Whatever runs afterwards, once thread t has returned with this outcome the chain is dead. */
  ghost predicate ReturnsDead(s: System, t: nat, outcome: Outcome, root: string) {
    forall more :: var s' := RunFrom(s, more); t in s'.threads && s'.threads[t].pc == Done(outcome) ==> Dead(s', root)
  }

  lemma CommittedIsNotDead(s: System, s': System, t: nat, u: nat, root: string)
    requires u in s.threads && u != t && Committed(s.threads[u].pc) && Root(s.history, s.threads[u].pc.renew.current) == root
    requires s'.history.minted == s.history.minted && u in s'.threads && s'.threads[u] == s.threads[u]
    ensures !Dead(s', root)
  {
  }

  lemma TerminationReturns(s: System, t: nat, user: string, client: string)
    requires t in s.threads && s.threads[t].pc == InTerminate(TerminateAccess(user, client))
    ensures var s' := RunFrom(s, [Move(t)]);
      && s'.history.minted == s.history.minted && t in s'.threads && s'.threads[t].pc == Done(Terminated)
      && (forall u :: u in s.threads && u != t ==> u in s'.threads && s'.threads[u] == s.threads[u])
  {
    RunOne(s, Move(t));
  }

  /** In every interleaving: when TerminateSession returns, the chain is dead, then and ever after, if
      and only if no renewal of it that had found its token was unfinished when the refresh tokens
      were deleted. */
  lemma TerminationKillsTheChainIff(ls: seq<Label>, t: nat, user: string, client: string, r: string)
    requires AtTermination(Run(ls), t, user, client)
    requires BelongsTo(Run(ls).history, r, user, client) && r in Run(ls).history.inserted
    ensures ReturnsDead(Exec(Run(ls), Move(t)), t, Terminated, Root(Run(ls).history, r)) <==>
      NoCommitted(Run(ls), Root(Run(ls).history, r))
  {
    var s := Run(ls);
    var s' := Exec(s, Move(t));
    var root := Root(s.history, r);
    if NoCommitted(s, root) {
      forall more
        ensures t in RunFrom(s', more).threads && RunFrom(s', more).threads[t].pc == Done(Terminated) ==> Dead(RunFrom(s', more), root)
      {
        TerminationKillsTheChain(ls, more, t, user, client, r);
      }
    } else {
      var u :| u in s.threads && Committed(s.threads[u].pc) && Root(s.history, s.threads[u].pc.renew.current) == root;
      RunKeeps(ls);
      TerminationClears(s, t, user, client, r);
      TerminationReturns(s', t, user, client);
      CommittedIsNotDead(s', RunFrom(s', [Move(t)]), t, u, root);
    }
  }

  // ---- The access tokens of a revoked chain ---------------------------------------------------------------

  /** a is the only live access token that the chain can have. */
  ghost predicate OnlyLive(s: System, root: string, a: string) {
    forall x :: Live(s, x) && ChainOf(s.history, x) == root ==> x == a
  }

  /** The revoking thread is to delete the last live access token of an ended chain, or is done. */
  ghost predicate Revoking(s: System, t: nat, root: string, a: string) {
    && Ended(s, root) && root in s.history.inserted
    && t in s.threads
    && (|| (s.threads[t].pc.InRevoke? && s.threads[t].pc.revoke.RevokeDeletePartner?
            && s.threads[t].pc.revoke.prior.accessToken == a && OnlyLive(s, root, a))
        || s.threads[t].pc == Done(Abandoned)
        || (s.threads[t].pc == Done(RevokedRefresh) && Dead(s, root)))
  }

  lemma OnlyLiveStays(s: System, l: Label, root: string, a: string)
    requires Inv(s) && Ended(s, root) && root in s.history.inserted && OnlyLive(s, root, a)
    ensures OnlyLive(Exec(s, l), root, a)
  {
    forall x | Live(Exec(s, l), x) && ChainOf(Exec(s, l).history, x) == root
      ensures x == a
    {
      NoNewLive(s, l, root, x);
    }
  }

  lemma PartnerDeleted(s: System, t: nat)
    requires t in s.threads && s.threads[t].pc.InRevoke? && s.threads[t].pc.revoke.RevokeDeletePartner?
    ensures var s' := Exec(s, Move(t));
      && s'.db.refreshTokens == s.db.refreshTokens
      && s'.db.tokens == s.db.tokens - {s.threads[t].pc.revoke.prior.accessToken}
      && s'.history.minted == s.history.minted && s'.history.returned == s.history.returned
      && s'.threads.Keys == s.threads.Keys && (forall u :: u in s.threads && u != t ==> s'.threads[u] == s.threads[u])
      && s'.threads[t].pc == Done(RevokedRefresh)
  {
  }

  lemma RevokingStep(s: System, l: Label, t: nat, root: string, a: string)
    requires Inv(s) && Revoking(s, t, root, a)
    ensures Revoking(Exec(s, l), t, root, a)
  {
    EndedStays(s, l, root);
    ExecInterferes(s, l);
    if s.threads[t].pc == Done(RevokedRefresh) {
      DeadStays(s, l, root);
    } else if s.threads[t].pc.InRevoke? {
      OnlyLiveStays(s, l, root, a);
      if l == Move(t) { PartnerDeleted(s, t); }
    }
  }

  lemma {:induction false} RevokingRun(s: System, ls: seq<Label>, t: nat, root: string, a: string)
    requires Inv(s) && Revoking(s, t, root, a)
    ensures Revoking(RunFrom(s, ls), t, root, a)
  {
    if ls != [] {
      var front := ls[..|ls| - 1];
      RevokingRun(s, front, t, root, a);
      RunFromKeeps(s, front);
      RevokingStep(RunFrom(s, front), ls[|ls| - 1], t, root, a);
    }
  }

  lemma RevocationPending(s: System, t: nat, r: string)
    requires Inv(s) && AtRevocation(s, t, r)
    ensures var s' := Exec(s, Move(t));
      && s'.threads[t].pc.InRevoke? && s'.threads[t].pc.revoke.RevokeDeletePartner?
      && IsRefresh(s.history, r) && s'.threads[t].pc.revoke.prior.accessToken == s.history.minted[r].access
      && s'.db.tokens == s.db.tokens && s'.history.returned == s.history.returned && s'.history.minted == s.history.minted
  {
    assert LocalsOk(s, t, s.threads[t]);
  }

  lemma RevocationLeadsToDeath(s: System, t: nat, r: string)
    requires Inv(s) && AtRevocation(s, t, r) && OnlyRow(s, r) && NoCommitted(s, Root(s.history, r))
    requires IsRefresh(s.history, r) && OnlyLive(s, Root(s.history, r), s.history.minted[r].access)
    ensures ReturnsDead(Exec(s, Move(t)), t, RevokedRefresh, Root(s.history, r))
  {
    var s' := Exec(s, Move(t));
    var root := Root(s.history, r);
    RevocationEnds(s, t, r);
    RevocationPending(s, t, r);
    forall x | Live(s', x) && ChainOf(s'.history, x) == root
      ensures x == s.history.minted[r].access
    {
      assert Live(s, x);
    }
    forall more
      ensures t in RunFrom(s', more).threads && RunFrom(s', more).threads[t].pc == Done(RevokedRefresh) ==> Dead(RunFrom(s', more), root)
    {
      RevokingRun(s', more, t, root, s.history.minted[r].access);
    }
  }

  /** What is left when the revoking thread goes straight on. */
  lemma RevocationReturns(s: System, t: nat, r: string)
    requires Inv(s) && AtRevocation(s, t, r)
    ensures IsRefresh(s.history, r)
    ensures var s' := RunFrom(Exec(s, Move(t)), [Move(t)]);
      && s'.db.refreshTokens == s.db.refreshTokens - {r} && s'.db.tokens == s.db.tokens - {s.history.minted[r].access}
      && s'.history.minted == s.history.minted && s'.history.returned == s.history.returned
      && t in s'.threads && s'.threads[t].pc == Done(RevokedRefresh)
      && (forall u :: u in s.threads && u != t ==> u in s'.threads && s'.threads[u] == s.threads[u])
  {
    RevocationDeletes(s, t, r);
    RevocationPending(s, t, r);
    RunOne(Exec(s, Move(t)), Move(t));
    PartnerDeleted(Exec(s, Move(t)), t);
  }

  lemma DeathNeedsNoRenewal(s: System, s': System, t: nat, root: string)
    requires t in s.threads && !Committed(s.threads[t].pc) && NoCommitted(s', root)
    requires s'.history.minted == s.history.minted
    requires forall u :: u in s.threads && u != t ==> u in s'.threads && s'.threads[u] == s.threads[u]
    ensures NoCommitted(s, root)
  {
    forall u | u in s.threads && Committed(s.threads[u].pc)
      ensures Root(s.history, s.threads[u].pc.renew.current) != root
    {
      assert s'.threads[u] == s.threads[u];
    }
  }

  lemma DeathNeedsNoOther(s: System, s': System, r: string, a: string)
    requires NoRow(s', Root(s.history, r)) && NoLive(s', Root(s.history, r))
    requires s'.history.minted == s.history.minted && s'.history.returned == s.history.returned
    requires s'.db.refreshTokens == s.db.refreshTokens - {r} && s'.db.tokens == s.db.tokens - {a}
    ensures OnlyRow(s, r) && OnlyLive(s, Root(s.history, r), a)
  {
    forall q | q in s.db.refreshTokens && q != r
      ensures Root(s.history, q) != Root(s.history, r)
    {
      assert q in s'.db.refreshTokens;
    }
    forall x | Live(s, x) && x != a
      ensures Live(s', x)
    {
    }
  }

  lemma RevocationDeathNeeds(s: System, t: nat, r: string)
    requires Inv(s) && AtRevocation(s, t, r)
    requires ReturnsDead(Exec(s, Move(t)), t, RevokedRefresh, Root(s.history, r))
    ensures OnlyRow(s, r) && NoCommitted(s, Root(s.history, r))
    ensures IsRefresh(s.history, r) && OnlyLive(s, Root(s.history, r), s.history.minted[r].access)
  {
    var s' := RunFrom(Exec(s, Move(t)), [Move(t)]);
    RevocationReturns(s, t, r);
    DeathNeedsNoRenewal(s, s', t, Root(s.history, r));
    DeathNeedsNoOther(s, s', r, s.history.minted[r].access);
  }

  /** In every interleaving: when RevokeToken returns after deleting a refresh token, the chain is dead,
      then and ever after, if and only if at that deletion the chain had no other refresh token, no
      renewal that had found its token and was unfinished, and no live access token but the partner of
      the revoked one. A live token without a row exists where a revocation or termination died halfway. */
  lemma RevocationKillsTheChainIff(ls: seq<Label>, t: nat, r: string)
    requires AtRevocation(Run(ls), t, r)
    ensures var s := Run(ls); var root := Root(s.history, r);
      && IsRefresh(s.history, r)
      && (ReturnsDead(Exec(s, Move(t)), t, RevokedRefresh, root) <==>
            OnlyRow(s, r) && NoCommitted(s, root) && OnlyLive(s, root, s.history.minted[r].access))
  {
    var s := Run(ls);
    var root := Root(s.history, r);
    RunKeeps(ls);
    RevocationReturns(s, t, r);
    if ReturnsDead(Exec(s, Move(t)), t, RevokedRefresh, root) {
      RevocationDeathNeeds(s, t, r);
    }
    if OnlyRow(s, r) && NoCommitted(s, root) && OnlyLive(s, root, s.history.minted[r].access) {
      RevocationLeadsToDeath(s, t, r);
    }
  }
}
