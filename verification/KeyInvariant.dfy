/** What every step of every key operation keeps, and what follows under any interleaving. */
module KeyInvariant {
  import opened Prelude
  import opened KeyMachine

  predicate HoldsRead(pc: Pc) {
    match pc
    case InPin(p) => p.PinRead? || p.PinRUnlock?
    case InCurrent(p) => p.CurrentRead? || p.CurrentRUnlock?
    case _ => false
  }

  predicate HoldsWrite(pc: Pc) {
    match pc
    case InPin(p) => p.PinRecheck? || p.PinQuery? || p.PinInsert? || p.PinStore? || p.PinUnlock?
    case InRotate(p) => p.RotateSetKey? || p.RotateSetCache? || p.RotateUnlock?
    case _ => false
  }

  /** The lock is held by exactly the threads that think they hold it. */
  ghost predicate LockOk(s: System) {
    && (forall t :: t in s.core.lock.readers <==> t in s.threads && HoldsRead(s.threads[t].pc))
    && (forall t :: t in s.threads && HoldsWrite(s.threads[t].pc) ==> s.core.lock.writer == Some(t))
    && (s.core.lock.writer.Some? ==>
          s.core.lock.writer.value in s.threads && HoldsWrite(s.threads[s.core.lock.writer.value].pc)
          && s.core.lock.readers == {})
  }

  /** Every key in memory is an active row, and sits under its own algorithm. */
  ghost predicate MemoryOk(c: Core) {
    && Holds(c.table, c.mem.key)
    && (forall alg :: alg in c.mem.keysByAlg ==>
          c.mem.keysByAlg[alg].algorithm == alg && Holds(c.table, c.mem.keysByAlg[alg]))
  }

  predicate SettingCache(pc: Pc) {
    pc.InRotate? && pc.rotate.RotateSetCache?
  }

  predicate CurrentCached(m: Memory) {
    m.key.algorithm in m.keysByAlg && m.keysByAlg[m.key.algorithm] == m.key
  }

  /** The current key is the cached key of its algorithm, except to the writer between its two
      assignments. */
  ghost predicate CurrentOk(s: System) {
    CurrentCached(s.core.mem) || exists t :: t in s.threads && SettingCache(s.threads[t].pc)
  }

  /** An algorithm that was not rotated in this process keeps the key it was given. */
  predicate Settled(s: System, alg: Algorithm, k: Key) {
    alg !in s.log.rotated ==> alg in s.core.mem.keysByAlg && s.core.mem.keysByAlg[alg] == k
  }

  ghost predicate Ungenerated(s: System, alg: Algorithm) {
    alg !in s.core.mem.keysByAlg && forall i :: 0 <= i < |s.log.generated| ==> s.log.generated[i].algorithm != alg
  }

  ghost predicate LocalsOk(s: System, th: Thread) {
    match th.pc
    case InPin(p) =>
      && th.call == Sign(Some(p.alg)) && Supported(p.alg)
      && (match p
          case PinRUnlock(alg, Some(k)) => k.algorithm == alg && Holds(s.core.table, k) && Settled(s, alg, k)
          case PinQuery(alg) => Ungenerated(s, alg)
          case PinInsert(alg) => Ungenerated(s, alg)
          case PinStore(alg, k) => alg !in s.core.mem.keysByAlg && k.algorithm == alg && Holds(s.core.table, k)
          case PinUnlock(alg, k) => k.algorithm == alg && Holds(s.core.table, k) && Settled(s, alg, k)
          case _ => true)
    case InCurrent(p) =>
      && th.call.Sign? && (th.call.pin.Some? ==> !Supported(th.call.pin.value))
      && (p.CurrentRUnlock? ==> Holds(s.core.table, p.key))
    case InRotate(p) =>
      && th.call.Rotate?
      && (match p
          case RotateInsert(alg) => th.call == Rotate(alg)
          case RotateSetCache(k) => th.call == Rotate(k.algorithm) && Holds(s.core.table, k) && s.core.mem.key == k
          case _ => th.call == Rotate(p.key.algorithm) && Holds(s.core.table, p.key))
    case InPublish => th.call == Publish
    case Done(o) =>
      match o
      case Signed(k) =>
        th.call.Sign? && Holds(s.core.table, k)
        && (th.call.pin.Some? && Supported(th.call.pin.value) ==>
              k.algorithm == th.call.pin.value && Settled(s, th.call.pin.value, k))
      case Rotated(k) => th.call == Rotate(k.algorithm) && Holds(s.core.table, k)
      case Published(_) => th.call == Publish
      case Fallback => false
      case Unsupported => th.call.Rotate? && !Supported(th.call.alg)
  }

  ghost predicate Storing(s: System, k: Key) {
    exists t :: t in s.threads && s.threads[t].pc == InPin(PinStore(k.algorithm, k))
  }

  /** Each algorithm has at most one key generated on demand in this process, and that key is
      cached or about to be. */
  ghost predicate GeneratedOk(s: System) {
    && (forall i, j :: 0 <= i < j < |s.log.generated| ==> s.log.generated[i].algorithm != s.log.generated[j].algorithm)
    && (forall i :: 0 <= i < |s.log.generated| ==>
          s.log.generated[i].algorithm in s.core.mem.keysByAlg || Storing(s, s.log.generated[i]))
  }

  ghost predicate LogOk(s: System) {
    && (forall k :: k in s.log.signed ==> Holds(s.core.table, k))
    && (forall i :: 0 <= i < |s.log.answers| ==> s.log.answers[i].key in s.log.signed)
  }

  ghost predicate Inv(s: System) {
    && LockOk(s) && MemoryOk(s.core) && CurrentOk(s) && GeneratedOk(s) && LogOk(s)
    && forall t :: t in s.threads ==> LocalsOk(s, s.threads[t])
  }

  // ---- Preservation -------------------------------------------------------------------------------

  /** Rows are only ever added. */
  predicate TableGrows(table: KeyTable, table': KeyTable) {
    forall x :: x in table ==> x in table' && table'[x] == table[x]
  }

  lemma AdvanceGrows(c: Core, t: nat, now: Time, pc: Pc, pick: string)
    ensures TableGrows(c.table, Advance(c, t, now, pc, pick).0.table)
  {
  }

  /** How a step changes what its thread holds and the lock. */
  lemma LockChanges(s: System, t: nat, pick: string)
    requires LockOk(s) && t in s.threads
    ensures var s' := MoveThread(s, t, pick); var pc := s.threads[t].pc; var pc' := s'.threads[t].pc;
      var lock := s.core.lock; var lock' := s'.core.lock;
      || (lock' == lock && HoldsRead(pc') == HoldsRead(pc) && HoldsWrite(pc') == HoldsWrite(pc))
      || (lock' == lock.(readers := lock.readers + {t}) && lock.writer.None? && HoldsRead(pc') && !HoldsWrite(pc'))
      || (lock' == lock.(readers := lock.readers - {t}) && HoldsRead(pc) && !HoldsRead(pc') && !HoldsWrite(pc'))
      || (lock' == lock.(writer := Some(t)) && lock.writer.None? && lock.readers == {} && !HoldsRead(pc') && HoldsWrite(pc'))
      || (lock' == lock.(writer := None) && HoldsWrite(pc) && !HoldsRead(pc') && !HoldsWrite(pc'))
  {
  }

  lemma LockKept(s: System, t: nat, pick: string)
    requires LockOk(s) && t in s.threads
    ensures LockOk(MoveThread(s, t, pick))
  {
    LockChanges(s, t, pick);
  }

  lemma MemoryKept(s: System, t: nat, pick: string)
    requires Inv(s) && t in s.threads
    ensures MemoryOk(MoveThread(s, t, pick).core) && LogOk(MoveThread(s, t, pick))
  {
    assert LocalsOk(s, s.threads[t]);
    AdvanceGrows(s.core, t, s.clock, s.threads[t].pc, pick);
  }

  lemma CurrentKept(s: System, t: nat, pick: string)
    requires Inv(s) && t in s.threads
    ensures CurrentOk(MoveThread(s, t, pick))
  {
    var s' := MoveThread(s, t, pick);
    assert LocalsOk(s, s.threads[t]);
    if CurrentCached(s.core.mem) {
      if SettingCache(s'.threads[t].pc) { }
    } else {
      var u :| u in s.threads && SettingCache(s.threads[u].pc);
      if u != t { assert u in s'.threads && SettingCache(s'.threads[u].pc); }
    }
  }

  /** Only the writer changes memory, and only rotation replaces a cached key. */
  lemma MemoryChanges(s: System, t: nat, pick: string)
    requires Inv(s) && t in s.threads
    ensures var s' := MoveThread(s, t, pick);
      && (s'.core.mem != s.core.mem ==> s.core.lock.writer == Some(t))
      && s.log.rotated <= s'.log.rotated
      && (forall alg | alg in s.core.mem.keysByAlg ::
            && alg in s'.core.mem.keysByAlg
            && (alg !in s'.log.rotated ==> s'.core.mem.keysByAlg[alg] == s.core.mem.keysByAlg[alg]))
      && (s'.log.generated != s.log.generated ==> s.core.lock.writer == Some(t))
  {
    assert LocalsOk(s, s.threads[t]);
  }

  lemma OthersKept(s: System, t: nat, pick: string, u: nat)
    requires Inv(s) && t in s.threads && u in s.threads && u != t
    ensures LocalsOk(MoveThread(s, t, pick), s.threads[u])
  {
    assert LocalsOk(s, s.threads[u]);
    MemoryChanges(s, t, pick);
    AdvanceGrows(s.core, t, s.clock, s.threads[t].pc, pick);
  }

  lemma PinMoverKept(s: System, t: nat, pick: string)
    requires LockOk(s) && MemoryOk(s.core) && t in s.threads && LocalsOk(s, s.threads[t]) && s.threads[t].pc.InPin?
    requires GeneratedOk(s)
    requires TableGrows(s.core.table, MoveThread(s, t, pick).core.table)
    ensures LocalsOk(MoveThread(s, t, pick), MoveThread(s, t, pick).threads[t])
  {
  }

  lemma CurrentMoverKept(s: System, t: nat, pick: string)
    requires MemoryOk(s.core) && t in s.threads && LocalsOk(s, s.threads[t]) && s.threads[t].pc.InCurrent?
    ensures LocalsOk(MoveThread(s, t, pick), MoveThread(s, t, pick).threads[t])
  {
  }

  lemma RotateMoverKept(s: System, t: nat, pick: string)
    requires t in s.threads && LocalsOk(s, s.threads[t]) && s.threads[t].pc.InRotate?
    requires TableGrows(s.core.table, MoveThread(s, t, pick).core.table)
    ensures LocalsOk(MoveThread(s, t, pick), MoveThread(s, t, pick).threads[t])
  {
  }

  lemma PublishMoverKept(s: System, t: nat, pick: string)
    requires MemoryOk(s.core) && t in s.threads && LocalsOk(s, s.threads[t]) && (s.threads[t].pc.InPublish? || s.threads[t].pc.Done?)
    ensures LocalsOk(MoveThread(s, t, pick), MoveThread(s, t, pick).threads[t])
  {
  }

  lemma MoverKept(s: System, t: nat, pick: string)
    requires Inv(s) && t in s.threads
    ensures LocalsOk(MoveThread(s, t, pick), MoveThread(s, t, pick).threads[t])
  {
    assert LocalsOk(s, s.threads[t]);
    AdvanceGrows(s.core, t, s.clock, s.threads[t].pc, pick);
    match s.threads[t].pc
    case InPin(_) => PinMoverKept(s, t, pick);
    case InCurrent(_) => CurrentMoverKept(s, t, pick);
    case InRotate(_) => RotateMoverKept(s, t, pick);
    case _ => PublishMoverKept(s, t, pick);
  }

  lemma GeneratedKept(s: System, t: nat, pick: string)
    requires Inv(s) && t in s.threads
    ensures GeneratedOk(MoveThread(s, t, pick))
  {
    var s' := MoveThread(s, t, pick);
    assert LocalsOk(s, s.threads[t]);
    MemoryChanges(s, t, pick);
    forall i | 0 <= i < |s'.log.generated|
      ensures s'.log.generated[i].algorithm in s'.core.mem.keysByAlg || Storing(s', s'.log.generated[i])
    {
      var k := s'.log.generated[i];
      if i == |s.log.generated| {
        assert s'.threads[t].pc == InPin(PinStore(k.algorithm, k));
      } else if k.algorithm !in s.core.mem.keysByAlg {
        assert Storing(s, k);
        var u :| u in s.threads && s.threads[u].pc == InPin(PinStore(k.algorithm, k));
        if u != t {
          assert s'.threads[u].pc == InPin(PinStore(k.algorithm, k));
        }
      }
    }
  }
}
