/** The cache against the queries it replaces, when operations on one algorithm do not overlap each
    other; operations on other algorithms, unpinned calls and key set reads may overlap anything. */
module KeySerial {
  import opened Prelude
  import opened KeyMachine
  import opened KeyInvariant
  import opened KeySafety
  import opened KeyOrder

  predicate AtBoundary(pc: Pc) {
    match pc
    case InPin(p) => p.PinRLock?
    case InRotate(p) => p.RotateInsert?
    case _ => true
  }

  /** The call is a pinned call or a rotation of this algorithm. */
  predicate Touches(pc: Pc, alg: Algorithm) {
    match pc
    case InPin(p) => p.alg == alg
    case InRotate(p) => if p.RotateInsert? then p.alg == alg else p.key.algorithm == alg
    case _ => false
  }

  /** No other call is in the middle of an operation on this algorithm. */
  predicate OthersIdle(s: System, t: nat, alg: Algorithm) {
    forall u :: u in s.threads && u != t && Touches(s.threads[u].pc, alg) ==> AtBoundary(s.threads[u].pc)
  }

  /** Operations on this algorithm do not overlap each other; the process may die at any point. */
  predicate SerialOn(s: System, ls: seq<Label>, alg: Algorithm) {
    ls == [] ||
    (SerialOn(s, ls[..|ls| - 1], alg) && Undisturbed(RunFrom(s, ls[..|ls| - 1]), ls[|ls| - 1], alg))
  }

  predicate Undisturbed(s: System, l: Label, alg: Algorithm) {
    l.Move? && l.t in s.threads && Touches(s.threads[l.t].pc, alg) ==> OthersIdle(s, l.t, alg)
  }

  /** A rotation between its table write and its cache write. */
  predicate Rotating(pc: Pc, k: Key) {
    pc.InRotate? && (pc.rotate == RotateLock(k) || pc.rotate == RotateSetKey(k) || pc.rotate == RotateSetCache(k))
  }

  ghost predicate ActiveOk(table: KeyTable, pc: Pc) {
    match pc
    case InPin(p) =>
      (match p
       case PinRUnlock(alg, Some(k)) => NewestOf(table, alg, k.id)
       case PinInsert(alg) => !HasActiveOf(table, alg)
       case PinStore(alg, k) => NewestOf(table, alg, k.id)
       case PinUnlock(alg, k) => NewestOf(table, alg, k.id)
       case _ => true)
    case InRotate(p) =>
      (match p
       case RotateLock(k) => NewestOf(table, k.algorithm, k.id)
       case RotateSetKey(k) => NewestOf(table, k.algorithm, k.id)
       case RotateSetCache(k) => NewestOf(table, k.algorithm, k.id)
       case _ => true)
    case _ => true
  }

  ghost predicate Excused(s: System, alg: Algorithm) {
    exists t, k :: t in s.threads && Rotating(s.threads[t].pc, k) && k.algorithm == alg
  }

  /** The cached key of this algorithm is its newest active row. */
  ghost predicate CacheNewest(s: System, alg: Algorithm) {
    alg in s.core.mem.keysByAlg ==> NewestOf(s.core.table, alg, s.core.mem.keysByAlg[alg].id) || Excused(s, alg)
  }

  predicate AnswerNewest(a: Answer) {
    NewestOf(a.table, a.alg, a.key.id) && a.key.algorithm == a.alg
  }

  ghost predicate AnswersNewest(log: Log, alg: Algorithm) {
    forall i :: 0 <= i < |log.answers| && log.answers[i].alg == alg ==> AnswerNewest(log.answers[i])
  }

  ghost predicate ThreadsOk(s: System, alg: Algorithm) {
    forall t :: t in s.threads && Touches(s.threads[t].pc, alg) ==> ActiveOk(s.core.table, s.threads[t].pc)
  }

  ghost predicate SerialInv(s: System, alg: Algorithm) {
    && NotAfter(s.core.table, s.clock) && ThreadsOk(s, alg) && CacheNewest(s, alg) && AnswersNewest(s.log, alg)
  }

  lemma InsertNewest(table: KeyTable, id: string, alg: Algorithm, now: Time)
    requires id !in table && NotAfter(table, now)
    ensures NewestOf(Inserted(table, id, alg, now), alg, id)
    ensures forall a, x :: a != alg && NewestOf(table, a, x) ==> NewestOf(Inserted(table, id, alg, now), a, x)
    ensures forall a :: a != alg && !HasActiveOf(table, a) ==> !HasActiveOf(Inserted(table, id, alg, now), a)
  {
  }

  // ---- A move of another algorithm's operation ----------------------------------------------------------

  /** It leaves everything of this algorithm alone. */
  lemma OtherMoves(s: System, t: nat, pick: string, alg: Algorithm)
    requires t in s.threads && LocalsOk(s, s.threads[t]) && !Touches(s.threads[t].pc, alg) && NotAfter(s.core.table, s.clock)
    ensures var s' := MoveThread(s, t, pick);
      && !Touches(s'.threads[t].pc, alg)
      && (alg in s'.core.mem.keysByAlg <==> alg in s.core.mem.keysByAlg)
      && (alg in s.core.mem.keysByAlg ==> s'.core.mem.keysByAlg[alg] == s.core.mem.keysByAlg[alg])
      && (s'.core.table == s.core.table
          || exists a :: a != alg && pick !in s.core.table && s'.core.table == Inserted(s.core.table, pick, a, s.clock))
  {
  }

  lemma OtherAnswers(s: System, t: nat, pick: string, alg: Algorithm)
    requires t in s.threads && !Touches(s.threads[t].pc, alg) && AnswersNewest(s.log, alg)
    ensures AnswersNewest(MoveThread(s, t, pick).log, alg)
  {
  }

  lemma NewestElsewhere(table: KeyTable, table': KeyTable, pick: string, now: Time, alg: Algorithm)
    requires NotAfter(table, now)
    requires table' == table || exists a :: a != alg && pick !in table && table' == Inserted(table, pick, a, now)
    ensures forall x :: NewestOf(table, alg, x) ==> NewestOf(table', alg, x)
    ensures !HasActiveOf(table, alg) ==> !HasActiveOf(table', alg)
    ensures NotAfter(table', now)
  {
    if table' != table {
      var a :| a != alg && pick !in table && table' == Inserted(table, pick, a, now);
      InsertNewest(table, pick, a, now);
    }
  }

  lemma ActiveElsewhere(table: KeyTable, table': KeyTable, pc: Pc, alg: Algorithm)
    requires Touches(pc, alg) && ActiveOk(table, pc)
    requires forall x :: NewestOf(table, alg, x) ==> NewestOf(table', alg, x)
    requires !HasActiveOf(table, alg) ==> !HasActiveOf(table', alg)
    ensures ActiveOk(table', pc)
  {
  }

  lemma OtherKeeps(s: System, t: nat, pick: string, alg: Algorithm)
    requires SerialInv(s, alg) && t in s.threads && LocalsOk(s, s.threads[t]) && !Touches(s.threads[t].pc, alg)
    ensures SerialInv(MoveThread(s, t, pick), alg)
  {
    var s' := MoveThread(s, t, pick);
    OtherMoves(s, t, pick, alg);
    OtherAnswers(s, t, pick, alg);
    NewestElsewhere(s.core.table, s'.core.table, pick, s.clock, alg);
    forall u | u in s'.threads && Touches(s'.threads[u].pc, alg)
      ensures ActiveOk(s'.core.table, s'.threads[u].pc)
    {
      ActiveElsewhere(s.core.table, s'.core.table, s.threads[u].pc, alg);
    }
    if Excused(s, alg) {
      var u, k :| u in s.threads && Rotating(s.threads[u].pc, k) && k.algorithm == alg;
      assert Rotating(s'.threads[u].pc, k);
    }
  }

  // ---- A move of the one operation on this algorithm ------------------------------------------------------

  lemma MoverActive(s: System, t: nat, pick: string, alg: Algorithm)
    requires NotAfter(s.core.table, s.clock) && CacheNewest(s, alg) && t in s.threads && LocalsOk(s, s.threads[t])
    requires Touches(s.threads[t].pc, alg) && OthersIdle(s, t, alg) && ActiveOk(s.core.table, s.threads[t].pc)
    ensures var s' := MoveThread(s, t, pick); Touches(s'.threads[t].pc, alg) ==> ActiveOk(s'.core.table, s'.threads[t].pc)
  {
    var pc := s.threads[t].pc;
    if pick !in s.core.table {
      InsertNewest(s.core.table, pick, alg, s.clock);
    }
    if pc.InPin? && Excused(s, alg) { ExcuseOfMover(s, t, alg); }
  }

  /** An excuse is the mover's. */
  lemma ExcuseOfMover(s: System, t: nat, alg: Algorithm)
    requires t in s.threads && OthersIdle(s, t, alg) && Excused(s, alg)
    ensures exists k :: Rotating(s.threads[t].pc, k) && k.algorithm == alg
  {
    var u, k :| u in s.threads && Rotating(s.threads[u].pc, k) && k.algorithm == alg;
    assert u == t;
  }

  lemma RotationKeepsCache(s: System, t: nat, pick: string, alg: Algorithm)
    requires NotAfter(s.core.table, s.clock) && CacheNewest(s, alg) && t in s.threads && s.threads[t].pc.InRotate?
    requires Touches(s.threads[t].pc, alg) && OthersIdle(s, t, alg) && ActiveOk(s.core.table, s.threads[t].pc)
    ensures CacheNewest(MoveThread(s, t, pick), alg)
  {
    var s' := MoveThread(s, t, pick);
    var p := s.threads[t].pc.rotate;
    if p.RotateInsert? && pick !in s.core.table {
      assert Rotating(s'.threads[t].pc, Key(pick, alg));
    } else if p.RotateLock? || p.RotateSetKey? {
      assert Rotating(s'.threads[t].pc, p.key);
    } else if !p.RotateSetCache? && Excused(s, alg) {
      ExcuseOfMover(s, t, alg);
    }
  }

  lemma PinKeepsCache(s: System, t: nat, pick: string, alg: Algorithm)
    requires NotAfter(s.core.table, s.clock) && CacheNewest(s, alg) && t in s.threads && LocalsOk(s, s.threads[t])
    requires s.threads[t].pc.InPin?
    requires Touches(s.threads[t].pc, alg) && OthersIdle(s, t, alg) && ActiveOk(s.core.table, s.threads[t].pc)
    ensures CacheNewest(MoveThread(s, t, pick), alg)
  {
    if Excused(s, alg) { ExcuseOfMover(s, t, alg); }
  }

  lemma MoverAnswers(s: System, t: nat, pick: string, alg: Algorithm)
    requires AnswersNewest(s.log, alg) && t in s.threads && LocalsOk(s, s.threads[t]) && ActiveOk(s.core.table, s.threads[t].pc)
    ensures AnswersNewest(MoveThread(s, t, pick).log, alg)
  {
  }

  lemma TimesKept(s: System, t: nat, pick: string)
    requires NotAfter(s.core.table, s.clock) && t in s.threads
    ensures NotAfter(MoveThread(s, t, pick).core.table, s.clock)
  {
  }

  lemma MoverKeeps(s: System, t: nat, pick: string, alg: Algorithm)
    requires SerialInv(s, alg) && t in s.threads && LocalsOk(s, s.threads[t])
    requires Touches(s.threads[t].pc, alg) && OthersIdle(s, t, alg)
    ensures SerialInv(MoveThread(s, t, pick), alg)
  {
    var s' := MoveThread(s, t, pick);
    MoverActive(s, t, pick, alg);
    MoverAnswers(s, t, pick, alg);
    TimesKept(s, t, pick);
    if s.threads[t].pc.InRotate? { RotationKeepsCache(s, t, pick, alg); } else { PinKeepsCache(s, t, pick, alg); }
    forall u | u in s'.threads && u != t && Touches(s'.threads[u].pc, alg)
      ensures ActiveOk(s'.core.table, s'.threads[u].pc)
    {
      assert AtBoundary(s.threads[u].pc);
    }
  }

  // ---- Runs ------------------------------------------------------------------------------------------------

  lemma BootNewest(table: KeyTable, now: Time, pick: string, alg: Algorithm)
    requires CanBoot(table, pick) && NotAfter(table, now)
    ensures var c := BootCore(table, now, pick);
      NotAfter(c.table, now) && (alg in c.mem.keysByAlg ==> NewestOf(c.table, alg, c.mem.keysByAlg[alg].id))
  {
  }

  lemma QuietKeeps(s: System, l: Label, alg: Algorithm)
    requires SerialInv(s, alg) && (l.Tick? || l.Start?)
    ensures SerialInv(Exec(s, l), alg)
  {
    var s' := Exec(s, l);
    if Excused(s, alg) {
      var u, k :| u in s.threads && Rotating(s.threads[u].pc, k) && k.algorithm == alg;
      assert Rotating(s'.threads[u].pc, k);
    }
  }

  lemma SerialStep(s: System, l: Label, alg: Algorithm)
    requires Inv(s) && SerialInv(s, alg) && Undisturbed(s, l, alg)
    ensures SerialInv(Exec(s, l), alg)
  {
    match l
    case Move(t, pick) =>
      if t in s.threads {
        assert LocalsOk(s, s.threads[t]);
        if Touches(s.threads[t].pc, alg) { MoverKeeps(s, t, pick, alg); } else { OtherKeeps(s, t, pick, alg); }
      }
    case Start(_, _) => QuietKeeps(s, l, alg);
    case Tick(_) => QuietKeeps(s, l, alg);
    case Restart(pick) => if CanBoot(s.core.table, pick) { BootNewest(s.core.table, s.clock, pick, alg); }
  }

  lemma {:induction false} SerialRun(s: System, ls: seq<Label>, alg: Algorithm)
    requires Inv(s) && SerialInv(s, alg) && SerialOn(s, ls, alg)
    ensures SerialInv(RunFrom(s, ls), alg)
  {
    if ls != [] {
      SerialRun(s, ls[..|ls| - 1], alg);
      RunFromKeeps(s, ls[..|ls| - 1]);
      SerialStep(RunFrom(s, ls[..|ls| - 1]), ls[|ls| - 1], alg);
    }
  }

  /** While operations on an algorithm do not overlap each other, whatever else does: a pinned answer
      for it is what the uncached query would have returned, its newest active key; and with no
      rotation of it under way the cache agrees with that query. */
  lemma CacheEqualsQuery(table: KeyTable, now: Time, pick: string, ls: seq<Label>, alg: Algorithm)
    requires CanBoot(table, pick) && NotAfter(table, now) && SerialOn(Boot(table, now, pick), ls, alg)
    ensures var s := RunFrom(Boot(table, now, pick), ls);
      && AnswersNewest(s.log, alg)
      && ((forall t, k | t in s.threads && Rotating(s.threads[t].pc, k) :: k.algorithm != alg) ==>
            alg in s.core.mem.keysByAlg ==> NewestOf(s.core.table, alg, s.core.mem.keysByAlg[alg].id))
  {
    BootHolds(table, now, pick);
    BootNewest(table, now, pick, alg);
    SerialRun(Boot(table, now, pick), ls, alg);
  }

  predicate SameKeysOf(table: KeyTable, table': KeyTable, alg: Algorithm) {
    && (forall x :: x in table && table[x].algorithm == alg ==> x in table' && table'[x] == table[x])
    && (forall x :: x in table' && table'[x].algorithm == alg ==> x in table && table[x] == table'[x])
  }

  /** Two pinned answers for an algorithm are the same key if no key of that algorithm was created
      in between, however often the process restarted. */
  lemma PinnedAnswerSurvivesRestart(table: KeyTable, now: Time, pick: string, ls: seq<Label>, alg: Algorithm, i: nat, j: nat)
    requires CanBoot(table, pick) && NotAfter(table, now) && SerialOn(Boot(table, now, pick), ls, alg)
    requires var answers := RunFrom(Boot(table, now, pick), ls).log.answers;
      && i < |answers| && j < |answers| && answers[i].alg == alg && answers[j].alg == alg
      && SameKeysOf(answers[i].table, answers[j].table, alg) && DistinctTimes(answers[j].table)
    ensures var answers := RunFrom(Boot(table, now, pick), ls).log.answers; answers[i].key == answers[j].key
  {
    CacheEqualsQuery(table, now, pick, ls, alg);
    var answers := RunFrom(Boot(table, now, pick), ls).log.answers;
    assert AnswerNewest(answers[i]) && AnswerNewest(answers[j]);
  }
}
