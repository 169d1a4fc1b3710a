/** The guarantees of the signing-key cache under every interleaving and over restarts. */
module KeySafety {
  import opened Prelude
  import opened KeyMachine
  import opened KeyInvariant

  lemma MoveKeeps(s: System, t: nat, pick: string)
    requires Inv(s) && t in s.threads
    ensures Inv(MoveThread(s, t, pick))
  {
    var s' := MoveThread(s, t, pick);
    LockKept(s, t, pick);
    MemoryKept(s, t, pick);
    CurrentKept(s, t, pick);
    GeneratedKept(s, t, pick);
    forall u | u in s'.threads
      ensures LocalsOk(s', s'.threads[u])
    {
      if u == t { MoverKept(s, t, pick); } else { OthersKept(s, t, pick, u); }
    }
  }

  /** Labels that touch neither core nor log, and at most add a thread at its entry. */
  ghost predicate Quiet(s: System, s': System) {
    && s'.core == s.core && s'.log == s.log
    && (forall u :: u in s.threads ==> u in s'.threads && s'.threads[u] == s.threads[u])
    && (forall u :: u in s'.threads && u !in s.threads ==> s'.threads[u].pc == Entry(s'.threads[u].call))
  }

  lemma QuietGenerated(s: System, s': System)
    requires GeneratedOk(s) && Quiet(s, s')
    ensures GeneratedOk(s')
  {
    forall i | 0 <= i < |s.log.generated| && Storing(s, s.log.generated[i])
      ensures Storing(s', s.log.generated[i])
    {
      var k := s.log.generated[i];
      var u :| u in s.threads && s.threads[u].pc == InPin(PinStore(k.algorithm, k));
      assert s'.threads[u].pc == InPin(PinStore(k.algorithm, k));
    }
  }

  lemma QuietCurrent(s: System, s': System)
    requires CurrentOk(s) && Quiet(s, s')
    ensures CurrentOk(s')
  {
    if !CurrentCached(s.core.mem) {
      var u :| u in s.threads && SettingCache(s.threads[u].pc);
      assert SettingCache(s'.threads[u].pc);
    }
  }

  lemma QuietLocals(s: System, s': System, u: nat)
    requires Quiet(s, s') && u in s'.threads && (u in s.threads ==> LocalsOk(s, s.threads[u]))
    ensures LocalsOk(s', s'.threads[u])
  {
  }

  lemma QuietLock(s: System, s': System)
    requires LockOk(s) && Quiet(s, s')
    ensures LockOk(s')
  {
  }

  lemma QuietKeeps(s: System, s': System)
    requires Inv(s) && Quiet(s, s')
    ensures Inv(s')
  {
    QuietLock(s, s');
    QuietCurrent(s, s');
    QuietGenerated(s, s');
    forall u | u in s'.threads
      ensures LocalsOk(s', s'.threads[u])
    {
      QuietLocals(s, s', u);
    }
  }

  lemma BootHolds(table: KeyTable, now: Time, pick: string)
    requires CanBoot(table, pick)
    ensures var c := BootCore(table, now, pick);
      MemoryOk(c) && TableGrows(table, c.table) && CurrentCached(c.mem)
  {
  }

  lemma RestartKeeps(s: System, pick: string)
    requires Inv(s) && CanBoot(s.core.table, pick)
    ensures Inv(Exec(s, Restart(pick)))
  {
    BootHolds(s.core.table, s.clock, pick);
  }

  lemma ExecKeeps(s: System, l: Label)
    requires Inv(s)
    ensures Inv(Exec(s, l))
  {
    match l
    case Start(_, _) => QuietKeeps(s, Exec(s, l));
    case Move(t, pick) => if t in s.threads { MoveKeeps(s, t, pick); }
    case Tick(_) => QuietKeeps(s, Exec(s, l));
    case Restart(pick) => if CanBoot(s.core.table, pick) { RestartKeeps(s, pick); }
  }

  lemma {:induction false} RunFromKeeps(s: System, ls: seq<Label>)
    requires Inv(s)
    ensures Inv(RunFrom(s, ls))
  {
    if ls != [] {
      RunFromKeeps(s, ls[..|ls| - 1]);
      ExecKeeps(RunFrom(s, ls[..|ls| - 1]), ls[|ls| - 1]);
    }
  }

  /** A run of the service: first boot on any key table, then any labels, restarts included. */
  ghost predicate Reachable(s: System) {
    exists table, now, pick, ls | CanBoot(table, pick) :: s == RunFrom(Boot(table, now, pick), ls)
  }

  lemma ReachableInv(s: System)
    requires Reachable(s)
    ensures Inv(s)
  {
    var table, now, pick, ls :| CanBoot(table, pick) && s == RunFrom(Boot(table, now, pick), ls);
    BootHolds(table, now, pick);
    RunFromKeeps(Boot(table, now, pick), ls);
  }

  /** However many callers race for an algorithm, one process generates at most one key for it on
      demand; pinned callers always get a key of the algorithm they asked for, and the same key
      unless that algorithm was rotated in this process. */
  lemma PinnedCallersAgree(s: System, t: nat, u: nat, alg: Algorithm)
    requires Reachable(s) && Supported(alg) && t in s.threads && u in s.threads
    requires s.threads[t].call == Sign(Some(alg)) && s.threads[t].pc.Done?
    requires s.threads[u].call == Sign(Some(alg)) && s.threads[u].pc.Done?
    ensures forall i, j | 0 <= i < j < |s.log.generated| :: s.log.generated[i].algorithm != s.log.generated[j].algorithm
    ensures s.threads[t].pc.outcome.Signed? && s.threads[t].pc.outcome.key.algorithm == alg
    ensures s.threads[u].pc.outcome.Signed? && s.threads[u].pc.outcome.key.algorithm == alg
    ensures alg !in s.log.rotated ==> s.threads[t].pc.outcome.key == s.threads[u].pc.outcome.key
  {
    ReachableInv(s);
    assert LocalsOk(s, s.threads[t]) && LocalsOk(s, s.threads[u]);
  }

  /** Whenever nobody holds the write lock, the current key is the cached key of its algorithm;
      each cached key is an active row of the algorithm it is cached under. */
  lemma CacheIsConsistent(s: System, alg: Algorithm)
    requires Reachable(s)
    ensures s.core.lock.writer.None? ==> CurrentCached(s.core.mem)
    ensures alg in s.core.mem.keysByAlg ==>
      s.core.mem.keysByAlg[alg].algorithm == alg && Holds(s.core.table, s.core.mem.keysByAlg[alg])
  {
    ReachableInv(s);
    forall u | u in s.threads && SettingCache(s.threads[u].pc)
      ensures s.core.lock.writer == Some(u)
    {
    }
  }

  // ---- Keys stay published --------------------------------------------------------------------------

  predicate PublishesAll(s: System, u: nat, keys: set<Key>) {
    u in s.threads && s.threads[u].pc.Done? && s.threads[u].pc.outcome.Published? ==>
      keys <= s.threads[u].pc.outcome.keys
  }

  lemma PublishStep(s: System, l: Label, u: nat, keys: set<Key>)
    requires Inv(s) && keys <= s.log.signed && PublishesAll(s, u, keys)
    ensures keys <= Exec(s, l).log.signed && PublishesAll(Exec(s, l), u, keys)
  {
    if l.Move? && l.t == u && u in s.threads && s.threads[u].pc.InPublish? {
      forall k | k in keys
        ensures k in ActiveKeys(s.core.table)
      {
        assert Holds(s.core.table, k);
      }
    }
  }

  lemma {:induction false} PublishRun(s: System, ls: seq<Label>, u: nat, keys: set<Key>)
    requires Inv(s) && keys <= s.log.signed && PublishesAll(s, u, keys)
    ensures keys <= RunFrom(s, ls).log.signed && PublishesAll(RunFrom(s, ls), u, keys)
  {
    if ls != [] {
      var front := ls[..|ls| - 1];
      PublishRun(s, front, u, keys);
      RunFromKeeps(s, front);
      PublishStep(RunFrom(s, front), ls[|ls| - 1], u, keys);
    }
  }

  /** Section 10.1.1 of OpenID Connect Core 1.0: every key that SigningKey has ever returned, in
      this process or an earlier one, is in every key set whose call starts later; and a key set
      is always read from the table. */
  lemma ReturnedKeysStayPublished(s: System, more: seq<Label>, u: nat)
    requires Reachable(s) && u !in s.threads
    ensures var s' := RunFrom(s, more);
      u in s'.threads && s'.threads[u].call == Publish && s'.threads[u].pc.Done? ==>
        s'.threads[u].pc.outcome.Published? && s.log.signed <= s'.threads[u].pc.outcome.keys
  {
    ReachableInv(s);
    PublishRun(s, more, u, s.log.signed);
    RunFromKeeps(s, more);
    var s' := RunFrom(s, more);
    assert u in s'.threads ==> LocalsOk(s', s'.threads[u]);
  }
}
