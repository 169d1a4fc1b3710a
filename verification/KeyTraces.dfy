/** Runs in which the cache and the table disagree. */
module KeyTraces {
  import opened Prelude
  import opened KeyMachine

  /** Thread t has the lock to itself and runs the rest of its rotation. */
  function Finish(t: nat): seq<Label> {
    [Move(t, "")] + ([Move(t, "")] + ([Move(t, "")] + ([Move(t, "")] + [])))
  }

  /** One step of a rotation, apart from the log. */
  lemma RotateStep(s: System, t: nat, p: RotatePc, pick: string)
    requires t in s.threads && s.threads[t].pc == InRotate(p)
    ensures var s' := Exec(s, Move(t, pick)); var (core, pc) := AdvanceRotate(s.core, t, s.clock, p, pick);
      s'.core == core && s'.clock == s.clock && s'.threads == s.threads[t := Thread(s.threads[t].call, pc)]
  {
  }

  lemma FinishRotation(s: System, t: nat, k: Key)
    requires t in s.threads && s.threads[t].pc == InRotate(RotateLock(k)) && s.core.lock == Lock({}, None)
    ensures var s' := RunFrom(s, Finish(t));
      && s'.core == Core(s.core.table, Memory(k, s.core.mem.keysByAlg[k.algorithm := k]), Lock({}, None))
      && s'.clock == s.clock && s'.threads == s.threads[t := Thread(s.threads[t].call, Done(Rotated(k)))]
  {
    RunFour(s, Move(t, ""), Move(t, ""), Move(t, ""), Move(t, ""));
    var s1 := Exec(s, Move(t, ""));
    var s2 := Exec(s1, Move(t, ""));
    var s3 := Exec(s2, Move(t, ""));
    RotateStep(s, t, RotateLock(k), "");
    RotateStep(s1, t, RotateSetKey(k), "");
    RotateStep(s2, t, RotateSetCache(k), "");
    RotateStep(s3, t, RotateUnlock(k), "");
  }

  /** Two rotations of one algorithm: the first writes the table first and the cache last. */
  function TwoInserts(first: string, second: string): seq<Label> {
    [Start(1, Rotate(RS256))] + ([Start(2, Rotate(RS256))] + ([Tick(1)] + ([Move(1, first)] +
    ([Tick(2)] + ([Move(2, second)] + [])))))
  }

  function TwoRotations(first: string, second: string): seq<Label> {
    TwoInserts(first, second) + (Finish(2) + Finish(1))
  }

  lemma AfterTwoInserts(boot: string, first: string, second: string)
    requires boot != first && boot != second && first != second
    ensures var s := RunFrom(Boot(map[], 0, boot), TwoInserts(first, second));
      && s.core.table == map[boot := KeyRow(RS256, true, 0), first := KeyRow(RS256, true, 1), second := KeyRow(RS256, true, 2)]
      && s.core.lock == Lock({}, None) && s.threads.Keys == {1, 2}
      && s.threads[1].pc == InRotate(RotateLock(Key(first, RS256)))
      && s.threads[2].pc == InRotate(RotateLock(Key(second, RS256)))
  {
    var s0 := Boot(map[], 0, boot);
    var s1 := Exec(s0, Start(1, Rotate(RS256)));
    var s2 := Exec(s1, Start(2, Rotate(RS256)));
    var s3 := Exec(s2, Tick(1));
    var s4 := Exec(s3, Move(1, first));
    var s5 := Exec(s4, Tick(2));
    var rest6 := [Move(2, second)] + [];
    var rest5 := [Tick(2)] + rest6;
    var rest4 := [Move(1, first)] + rest5;
    var rest3 := [Tick(1)] + rest4;
    var rest2 := [Start(2, Rotate(RS256))] + rest3;
    RunCons(s0, Start(1, Rotate(RS256)), rest2);
    RunCons(s1, Start(2, Rotate(RS256)), rest3);
    RunCons(s2, Tick(1), rest4);
    RunCons(s3, Move(1, first), rest5);
    RunCons(s4, Tick(2), rest6);
    RunCons(s5, Move(2, second), []);
    InsertOf(s3, 1, first);
    InsertOf(s5, 2, second);
  }

  lemma InsertOf(s: System, t: nat, id: string)
    requires t in s.threads && s.threads[t].pc == InRotate(RotateInsert(RS256)) && id !in s.core.table
    ensures Exec(s, Move(t, id)) == System(s.core.(table := Inserted(s.core.table, id, RS256, s.clock)), s.clock,
      s.threads[t := Thread(s.threads[t].call, InRotate(RotateLock(Key(id, RS256))))],
      s.log.(made := s.log.made + [Made(Key(id, RS256), false)]))
  {
  }

  /** Afterwards, with no operation under way and all creation times distinct, the current key and
      the cached key are not the newest row. */
  lemma OverlappingRotationsLoseTheNewest(boot: string, first: string, second: string)
    requires boot != first && boot != second && first != second
    ensures var s := RunFrom(Boot(map[], 0, boot), TwoRotations(first, second));
      && s.threads.Keys == {1, 2} && s.threads[1].pc.Done? && s.threads[2].pc.Done?
      && s.core.table == map[boot := KeyRow(RS256, true, 0), first := KeyRow(RS256, true, 1), second := KeyRow(RS256, true, 2)]
      && s.core.mem.key == Key(first, RS256)
      && RS256 in s.core.mem.keysByAlg && s.core.mem.keysByAlg[RS256] == Key(first, RS256)
      && !NewestOf(s.core.table, RS256, first)
  {
    var s0 := Boot(map[], 0, boot);
    RunAppend(s0, TwoInserts(first, second), Finish(2) + Finish(1));
    AfterTwoInserts(boot, first, second);
    var s1 := RunFrom(s0, TwoInserts(first, second));
    RunAppend(s1, Finish(2), Finish(1));
    FinishRotation(s1, 2, Key(second, RS256));
    FinishRotation(RunFrom(s1, Finish(2)), 1, Key(first, RS256));
    assert IsActive(s1.core.table, second);
  }

  // ---- A key generated on demand, then a restart ------------------------------------------------

  function ToTheLock(t: nat): seq<Label> {
    [Start(t, Sign(Some(ES256)))] + ([Move(t, "")] + ([Move(t, "")] + ([Move(t, "")] + ([Move(t, "")] + []))))
  }

  function Generate(t: nat, id: string): seq<Label> {
    [Move(t, "")] + ([Move(t, "")] + ([Move(t, id)] + ([Move(t, "")] + ([Move(t, "")] + []))))
  }

  function PinThenRestart(id: string): seq<Label> {
    [Tick(1)] + (ToTheLock(1) + (Generate(1, id) + [Restart(id)]))
  }

  /** One step of a pinned call, apart from the log. */
  lemma PinStep(s: System, t: nat, p: PinPc, pick: string)
    requires t in s.threads && s.threads[t].pc == InPin(p)
    ensures var s' := Exec(s, Move(t, pick)); var (core, pc) := AdvancePin(s.core, t, s.clock, p, pick);
      s'.core == core && s'.clock == s.clock && s'.threads == s.threads[t := Thread(s.threads[t].call, pc)]
  {
  }

  lemma LockReached(s: System, t: nat)
    requires t !in s.threads && s.core.lock == Lock({}, None) && ES256 !in s.core.mem.keysByAlg
    ensures var s' := RunFrom(s, ToTheLock(t));
      && s'.core == s.core.(lock := Lock({}, Some(t))) && s'.clock == s.clock
      && s'.threads == s.threads[t := Thread(Sign(Some(ES256)), InPin(PinRecheck(ES256)))]
  {
    var s1 := Exec(s, Start(t, Sign(Some(ES256))));
    var s2 := Exec(s1, Move(t, ""));
    var s3 := Exec(s2, Move(t, ""));
    var s4 := Exec(s3, Move(t, ""));
    RunFive(s, Start(t, Sign(Some(ES256))), Move(t, ""), Move(t, ""), Move(t, ""), Move(t, ""));
    PinStep(s1, t, PinRLock(ES256), "");
    PinStep(s2, t, PinRead(ES256), "");
    PinStep(s3, t, PinRUnlock(ES256, None), "");
    assert s4.core == s.core;
    PinStep(s4, t, PinLock(ES256), "");
  }

  lemma RowGenerated(s: System, t: nat, id: string)
    requires t in s.threads && s.threads[t].pc == InPin(PinRecheck(ES256)) && ES256 !in s.core.mem.keysByAlg
    requires !HasActiveOf(s.core.table, ES256) && id !in s.core.table
    ensures var s' := Exec(Exec(Exec(s, Move(t, "")), Move(t, "")), Move(t, id));
      && s'.core == s.core.(table := Inserted(s.core.table, id, ES256, s.clock))
      && t in s'.threads && s'.threads[t].pc == InPin(PinStore(ES256, Key(id, ES256)))
  {
    var s1 := Exec(s, Move(t, ""));
    PinStep(s, t, PinRecheck(ES256), "");
    PinStep(s1, t, PinQuery(ES256), "");
    PinStep(Exec(s1, Move(t, "")), t, PinInsert(ES256), id);
  }

  lemma GeneratePlayed(s: System, t: nat, id: string)
    ensures RunFrom(s, Generate(t, id)) ==
      Exec(Exec(Exec(Exec(Exec(s, Move(t, "")), Move(t, "")), Move(t, id)), Move(t, "")), Move(t, ""))
  {
    RunFive(s, Move(t, ""), Move(t, ""), Move(t, id), Move(t, ""), Move(t, ""));
  }

  lemma RowCached(s: System, t: nat, k: Key)
    requires t in s.threads && s.threads[t].pc == InPin(PinStore(ES256, k))
    ensures var s' := Exec(Exec(s, Move(t, "")), Move(t, ""));
      s'.core.table == s.core.table && s'.core.mem.key == s.core.mem.key
  {
    PinStep(s, t, PinStore(ES256, k), "");
    PinStep(Exec(s, Move(t, "")), t, PinUnlock(ES256, k), "");
  }

  lemma Generated(s: System, t: nat, id: string)
    requires t in s.threads && s.threads[t].pc == InPin(PinRecheck(ES256)) && ES256 !in s.core.mem.keysByAlg
    requires !HasActiveOf(s.core.table, ES256) && id !in s.core.table
    ensures var s' := RunFrom(s, Generate(t, id));
      s'.core.table == Inserted(s.core.table, id, ES256, s.clock) && s'.core.mem.key == s.core.mem.key
  {
    GeneratePlayed(s, t, id);
    RowGenerated(s, t, id);
    RowCached(Exec(Exec(Exec(s, Move(t, "")), Move(t, "")), Move(t, id)), t, Key(id, ES256));
  }

  lemma GeneratedFromBoot(boot: string, id: string)
    requires boot != id
    ensures var s := RunFrom(Boot(map[], 0, boot), [Tick(1)] + (ToTheLock(1) + Generate(1, id)));
      s.core.mem.key == Key(boot, RS256) && s.core.table == map[boot := KeyRow(RS256, true, 0), id := KeyRow(ES256, true, 1)]
  {
    var s0 := Boot(map[], 0, boot);
    var s1 := Exec(s0, Tick(1));
    RunCons(s0, Tick(1), ToTheLock(1) + Generate(1, id));
    RunAppend(s1, ToTheLock(1), Generate(1, id));
    LockReached(s1, 1);
    Generated(RunFrom(s1, ToTheLock(1)), 1, id);
  }

  /** The generated key is the newest row, so the restart makes it the default key; until then the
      default key was the RS256 key of the first boot. */
  lemma RestartChangesTheDefault(boot: string, id: string)
    requires boot != id
    ensures var s := RunFrom(Boot(map[], 0, boot), [Tick(1)] + (ToTheLock(1) + Generate(1, id)));
      s.core.mem.key == Key(boot, RS256)
    ensures RunFrom(Boot(map[], 0, boot), PinThenRestart(id)).core.mem.key == Key(id, ES256)
  {
    var before := [Tick(1)] + (ToTheLock(1) + Generate(1, id));
    var s := RunFrom(Boot(map[], 0, boot), before);
    GeneratedFromBoot(boot, id);
    assert PinThenRestart(id) == before + [Restart(id)];
    RunAppend(Boot(map[], 0, boot), before, [Restart(id)]);
    RunOne(s, Restart(id));
    assert IsActive(s.core.table, id);
  }

  // ---- A key generated on demand while a rotation is under way --------------------------------------

  /** The pinned call has found no key and is to insert one; a rotation inserts its own first. */
  function RotationBetween(first: string): seq<Label> {
    [Move(1, "")] + ([Move(1, "")] + ([Start(2, Rotate(ES256))] + ([Tick(1)] + ([Move(2, first)] + []))))
  }

  /** The pinned call inserts and caches the newer key and returns. */
  function GenerationAfter(second: string): seq<Label> {
    [Tick(2)] + ([Move(1, second)] + ([Move(1, "")] + ([Move(1, "")] + [])))
  }

  function GenerationAcrossRotation(first: string, second: string): seq<Label> {
    ToTheLock(1) + (RotationBetween(first) + (GenerationAfter(second) + Finish(2)))
  }

  lemma AfterRotationBetween(s: System, first: string)
    requires s.threads == map[1 := Thread(Sign(Some(ES256)), InPin(PinRecheck(ES256)))] && s.clock == 0
    requires ES256 !in s.core.mem.keysByAlg && !HasActiveOf(s.core.table, ES256) && first !in s.core.table
    ensures var s' := RunFrom(s, RotationBetween(first));
      && s'.core == s.core.(table := Inserted(s.core.table, first, ES256, 1)) && s'.clock == 1
      && s'.threads.Keys == {1, 2} && s'.threads[1].pc == InPin(PinInsert(ES256))
      && s'.threads[2].pc == InRotate(RotateLock(Key(first, ES256)))
  {
    RunFive(s, Move(1, ""), Move(1, ""), Start(2, Rotate(ES256)), Tick(1), Move(2, first));
    PinStep(s, 1, PinRecheck(ES256), "");
    PinStep(Exec(s, Move(1, "")), 1, PinQuery(ES256), "");
    RotationInserts(Exec(Exec(s, Move(1, "")), Move(1, "")), first);
  }

  lemma RotationInserts(s: System, first: string)
    requires s.threads.Keys == {1} && s.clock == 0 && first !in s.core.table
    ensures var s' := Exec(Exec(Exec(s, Start(2, Rotate(ES256))), Tick(1)), Move(2, first));
      && s'.core == s.core.(table := Inserted(s.core.table, first, ES256, 1)) && s'.clock == 1
      && s'.threads == s.threads[2 := Thread(Rotate(ES256), InRotate(RotateLock(Key(first, ES256))))]
  {
    RotateStep(Exec(Exec(s, Start(2, Rotate(ES256))), Tick(1)), 2, RotateInsert(ES256), first);
  }

  lemma AfterGeneration(s: System, second: string)
    requires s.threads.Keys == {1, 2} && s.threads[1].pc == InPin(PinInsert(ES256)) && s.clock == 1
    requires second !in s.core.table
    ensures var s' := RunFrom(s, GenerationAfter(second)); var k := Key(second, ES256);
      && s'.core == Core(Inserted(s.core.table, second, ES256, 2),
                         s.core.mem.(keysByAlg := s.core.mem.keysByAlg[ES256 := k]), s.core.lock.(writer := None))
      && s'.threads == s.threads[1 := Thread(s.threads[1].call, Done(Signed(k)))]
  {
    var k := Key(second, ES256);
    var s2 := Exec(Exec(s, Tick(2)), Move(1, second));
    RunFour(s, Tick(2), Move(1, second), Move(1, ""), Move(1, ""));
    PinStep(Exec(s, Tick(2)), 1, PinInsert(ES256), second);
    CachedAndReturned(s2, k);
  }

  lemma CachedAndReturned(s: System, k: Key)
    requires 1 in s.threads && s.threads[1].pc == InPin(PinStore(ES256, k))
    ensures var s' := Exec(Exec(s, Move(1, "")), Move(1, ""));
      && s'.core == Core(s.core.table, s.core.mem.(keysByAlg := s.core.mem.keysByAlg[ES256 := k]), s.core.lock.(writer := None))
      && s'.threads == s.threads[1 := Thread(s.threads[1].call, Done(Signed(k)))]
  {
    PinStep(s, 1, PinStore(ES256, k), "");
    PinStep(Exec(s, Move(1, "")), 1, PinUnlock(ES256, k), "");
  }

  /** From the lock on, whatever the keys are called. */
  lemma GenerationCrossed(s: System, first: string, second: string)
    requires s.threads == map[1 := Thread(Sign(Some(ES256)), InPin(PinRecheck(ES256)))] && s.clock == 0
    requires s.core.lock == Lock({}, Some(1)) && ES256 !in s.core.mem.keysByAlg && !HasActiveOf(s.core.table, ES256)
    requires first !in s.core.table && second !in s.core.table && first != second
    ensures var s' := RunFrom(s, RotationBetween(first) + (GenerationAfter(second) + Finish(2)));
      && s'.threads.Keys == {1, 2} && s'.threads[1].pc == Done(Signed(Key(second, ES256))) && s'.threads[2].pc.Done?
      && s'.core.table == Inserted(Inserted(s.core.table, first, ES256, 1), second, ES256, 2)
      && ES256 in s'.core.mem.keysByAlg && s'.core.mem.keysByAlg[ES256] == Key(first, ES256)
  {
    var s2 := RunFrom(s, RotationBetween(first));
    var s3 := RunFrom(s2, GenerationAfter(second));
    RunAppend(s, RotationBetween(first), GenerationAfter(second) + Finish(2));
    RunAppend(s2, GenerationAfter(second), Finish(2));
    AfterRotationBetween(s, first);
    AfterGeneration(s2, second);
    FinishRotation(s3, 2, Key(first, ES256));
  }

  /** Afterwards, with no operation under way and all creation times distinct, the cached key of the
      algorithm is the rotation's, and the generated key is newer. */
  lemma RotationAcrossGenerationLosesTheNewest(boot: string, first: string, second: string)
    requires boot != first && boot != second && first != second
    ensures var s := RunFrom(Boot(map[], 0, boot), GenerationAcrossRotation(first, second));
      && s.threads.Keys == {1, 2} && s.threads[1].pc == Done(Signed(Key(second, ES256))) && s.threads[2].pc.Done?
      && s.core.table == map[boot := KeyRow(RS256, true, 0), first := KeyRow(ES256, true, 1), second := KeyRow(ES256, true, 2)]
      && ES256 in s.core.mem.keysByAlg && s.core.mem.keysByAlg[ES256] == Key(first, ES256)
      && !NewestOf(s.core.table, ES256, first)
  {
    var s0 := Boot(map[], 0, boot);
    RunAppend(s0, ToTheLock(1), RotationBetween(first) + (GenerationAfter(second) + Finish(2)));
    LockReached(s0, 1);
    GenerationCrossed(RunFrom(s0, ToTheLock(1)), first, second);
    var table := RunFrom(s0, GenerationAcrossRotation(first, second)).core.table;
    assert IsActive(table, second);
  }
}
