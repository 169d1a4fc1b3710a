/** Newest-row agreement in every interleaving and over restarts: exact conditions in terms of the
    order in which rows were inserted. Created_at has a resolution of one second, so "newest" needs
    distinct creation times. */
module KeyOrder {
  import opened Prelude
  import opened KeyMachine
  import opened KeyInvariant
  import opened KeySafety

  predicate DistinctTimes(table: KeyTable) {
    forall x, y :: x in table && y in table && table[x].createdAt == table[y].createdAt ==> x == y
  }

  predicate NotAfter(table: KeyTable, now: Time) {
    forall x :: x in table ==> table[x].createdAt <= now
  }

  predicate WasMade(made: seq<Made>, id: string) {
    exists i :: 0 <= i < |made| && made[i].key.id == id
  }

  /** Row j was inserted after the row of k; rows from before the service's first boot come first. */
  predicate InsertedAfter(made: seq<Made>, k: Key, j: nat) {
    j < |made| && forall i :: 0 <= i < |made| && made[i].key == k ==> i < j
  }

  ghost predicate MadeHolds(table: KeyTable, made: seq<Made>) {
    && (forall i :: 0 <= i < |made| ==> Holds(table, made[i].key))
    && (forall i, j :: 0 <= i < j < |made| ==> made[i].key.id != made[j].key.id)
  }

  ghost predicate InTimeOrder(table: KeyTable, made: seq<Made>)
    requires MadeHolds(table, made)
  {
    && (forall i, j :: 0 <= i < j < |made| ==> table[made[i].key.id].createdAt <= table[made[j].key.id].createdAt)
    && (forall x, i :: x in table && !WasMade(made, x) && 0 <= i < |made| ==>
          table[x].createdAt <= table[made[i].key.id].createdAt)
  }

  /** Rows are inserted in the order of their creation times, after all rows that were there before. */
  ghost predicate MadeOk(table: KeyTable, made: seq<Made>, now: Time) {
    NotAfter(table, now) && MadeHolds(table, made) && InTimeOrder(table, made)
  }

  /** If k was there before the service, it is the newest of its algorithm of the rows that were. */
  ghost predicate TopOf(table: KeyTable, made: seq<Made>, k: Key) {
    WasMade(made, k.id) ||
    (k.id in table &&
     forall x :: x in table && IsActive(table, x) && table[x].algorithm == k.algorithm && !WasMade(made, x) ==>
       table[x].createdAt <= table[k.id].createdAt)
  }

  ghost predicate Top(table: KeyTable, made: seq<Made>, k: Key) {
    WasMade(made, k.id) ||
    (k.id in table &&
     forall x :: x in table && IsActive(table, x) && !WasMade(made, x) ==> table[x].createdAt <= table[k.id].createdAt)
  }

  ghost predicate KeyOk(s: System, pc: Pc) {
    match pc
    case InPin(p) => p.PinStore? ==> TopOf(s.core.table, s.log.made, p.key)
    case InRotate(p) => !p.RotateInsert? ==> WasMade(s.log.made, p.key.id)
    case _ => true
  }

  ghost predicate OrderOk(s: System) {
    && MadeOk(s.core.table, s.log.made, s.clock)
    && Top(s.core.table, s.log.made, s.core.mem.key)
    && (forall alg :: alg in s.core.mem.keysByAlg ==> TopOf(s.core.table, s.log.made, s.core.mem.keysByAlg[alg]))
    && (forall t :: t in s.threads ==> KeyOk(s, s.threads[t].pc))
  }

  // ---- Every step keeps it ------------------------------------------------------------------------------

  /** A step inserts one row and records it, or leaves table and record alone. */
  lemma InsertsOrNot(s: System, t: nat, pick: string)
    requires t in s.threads
    ensures var s' := MoveThread(s, t, pick); var pc := s.threads[t].pc;
      || (s'.core.table == s.core.table && s'.log.made == s.log.made)
      || (exists k: Key, onDemand ::
            && k.id == pick && pick !in s.core.table
            && s'.core.table == Inserted(s.core.table, pick, k.algorithm, s.clock)
            && s'.log.made == s.log.made + [Made(k, onDemand)]
            && s'.core.mem == s.core.mem
            && s'.threads[t].pc == (if onDemand then InPin(PinStore(k.algorithm, k)) else InRotate(RotateLock(k)))
            && pc == (if onDemand then InPin(PinInsert(k.algorithm)) else InRotate(RotateInsert(k.algorithm))))
  {
    var pc := s.threads[t].pc;
    var s' := MoveThread(s, t, pick);
    if pc.InPin? && pc.pin.PinInsert? && pick !in s.core.table {
      var k := Key(pick, pc.pin.alg);
      assert s'.log.made == s.log.made + [Made(k, true)];
    } else if pc.InRotate? && pc.rotate.RotateInsert? && pick !in s.core.table {
      var k := Key(pick, pc.rotate.alg);
      assert s'.log.made == s.log.made + [Made(k, false)];
    }
  }

  lemma WasMadeMore(made: seq<Made>, m: Made, id: string)
    ensures WasMade(made + [m], id) <==> WasMade(made, id) || m.key.id == id
  {
    var more := made + [m];
    if WasMade(made, id) {
      var i :| 0 <= i < |made| && made[i].key.id == id;
      assert more[i].key.id == id;
    }
    if m.key.id == id { assert more[|made|].key.id == id; }
  }

  lemma InsertedHolds(table: KeyTable, made: seq<Made>, now: Time, k: Key, onDemand: bool)
    requires MadeHolds(table, made) && k.id !in table
    ensures MadeHolds(Inserted(table, k.id, k.algorithm, now), made + [Made(k, onDemand)])
    ensures forall i :: 0 <= i < |made| ==> made[i].key.id != k.id
  {
    forall i | 0 <= i < |made|
      ensures made[i].key.id != k.id && Holds(Inserted(table, k.id, k.algorithm, now), made[i].key)
    {
      assert Holds(table, made[i].key);
    }
  }

  lemma InsertedInOrder(table: KeyTable, made: seq<Made>, now: Time, k: Key, onDemand: bool)
    requires MadeOk(table, made, now) && k.id !in table
    requires MadeHolds(Inserted(table, k.id, k.algorithm, now), made + [Made(k, onDemand)])
    requires forall i :: 0 <= i < |made| ==> made[i].key.id != k.id
    ensures InTimeOrder(Inserted(table, k.id, k.algorithm, now), made + [Made(k, onDemand)])
  {
    var table' := Inserted(table, k.id, k.algorithm, now);
    var made' := made + [Made(k, onDemand)];
    forall x, i | x in table' && !WasMade(made', x) && 0 <= i < |made'|
      ensures table'[x].createdAt <= table'[made'[i].key.id].createdAt
    {
      WasMadeMore(made, Made(k, onDemand), x);
    }
  }

  lemma InsertedOk(table: KeyTable, made: seq<Made>, now: Time, k: Key, onDemand: bool)
    requires MadeOk(table, made, now) && k.id !in table
    ensures MadeOk(Inserted(table, k.id, k.algorithm, now), made + [Made(k, onDemand)], now)
  {
    InsertedHolds(table, made, now, k, onDemand);
    InsertedInOrder(table, made, now, k, onDemand);
  }

  lemma TopAfterInsert(table: KeyTable, made: seq<Made>, now: Time, k: Key, onDemand: bool, h: Key)
    requires k.id !in table && h.id in table
    ensures var table' := Inserted(table, k.id, k.algorithm, now); var made' := made + [Made(k, onDemand)];
      && WasMade(made', k.id)
      && (WasMade(made, h.id) ==> WasMade(made', h.id))
      && (TopOf(table, made, h) ==> TopOf(table', made', h))
      && (Top(table, made, h) ==> Top(table', made', h))
  {
    forall x
      ensures WasMade(made + [Made(k, onDemand)], x) <==> WasMade(made, x) || k.id == x
    {
      WasMadeMore(made, Made(k, onDemand), x);
    }
  }

  lemma OrderKeptByInsert(s: System, t: nat, pick: string, k: Key, onDemand: bool)
    requires Inv(s) && OrderOk(s) && t in s.threads && k.id == pick && pick !in s.core.table
    requires var s' := MoveThread(s, t, pick);
      && s'.core.table == Inserted(s.core.table, pick, k.algorithm, s.clock) && s'.core.mem == s.core.mem
      && s'.log.made == s.log.made + [Made(k, onDemand)]
      && s'.threads[t].pc == (if onDemand then InPin(PinStore(k.algorithm, k)) else InRotate(RotateLock(k)))
    ensures OrderOk(MoveThread(s, t, pick))
  {
    var s' := MoveThread(s, t, pick);
    InsertedOk(s.core.table, s.log.made, s.clock, k, onDemand);
    TopAfterInsert(s.core.table, s.log.made, s.clock, k, onDemand, s.core.mem.key);
    forall alg | alg in s.core.mem.keysByAlg
      ensures TopOf(s'.core.table, s'.log.made, s.core.mem.keysByAlg[alg])
    {
      TopAfterInsert(s.core.table, s.log.made, s.clock, k, onDemand, s.core.mem.keysByAlg[alg]);
    }
    forall u | u in s.threads && u != t
      ensures KeyOk(s', s.threads[u].pc)
    {
      assert KeyOk(s, s.threads[u].pc) && LocalsOk(s, s.threads[u]);
      KeyOkAfterInsert(s, s', s.threads[u].pc, k, onDemand);
    }
  }

  lemma KeyOkAfterInsert(s: System, s': System, pc: Pc, k: Key, onDemand: bool)
    requires KeyOk(s, pc) && k.id !in s.core.table
    requires s'.core.table == Inserted(s.core.table, k.id, k.algorithm, s.clock)
    requires s'.log.made == s.log.made + [Made(k, onDemand)]
    requires pc.InPin? && pc.pin.PinStore? ==> pc.pin.key.id in s.core.table
    ensures KeyOk(s', pc)
  {
    match pc
    case InPin(p) =>
      if p.PinStore? { TopAfterInsert(s.core.table, s.log.made, s.clock, k, onDemand, p.key); }
    case InRotate(p) =>
      if !p.RotateInsert? { WasMadeMore(s.log.made, Made(k, onDemand), p.key.id); }
    case _ =>
  }

  lemma MemoryTopKept(s: System, t: nat, pick: string)
    requires Inv(s) && OrderOk(s) && t in s.threads && KeyOk(s, s.threads[t].pc)
    requires MoveThread(s, t, pick).core.table == s.core.table && MoveThread(s, t, pick).log.made == s.log.made
    ensures var s' := MoveThread(s, t, pick); var mem := s'.core.mem;
      && Top(s'.core.table, s'.log.made, mem.key)
      && (forall alg :: alg in mem.keysByAlg ==> TopOf(s'.core.table, s'.log.made, mem.keysByAlg[alg]))
  {
  }

  lemma MoverKeyOk(s: System, t: nat, pick: string)
    requires t in s.threads && KeyOk(s, s.threads[t].pc)
    requires MoveThread(s, t, pick).core.table == s.core.table && MoveThread(s, t, pick).log.made == s.log.made
    ensures KeyOk(MoveThread(s, t, pick), MoveThread(s, t, pick).threads[t].pc)
  {
  }

  lemma OrderKeptOtherwise(s: System, t: nat, pick: string)
    requires Inv(s) && OrderOk(s) && t in s.threads
    requires MoveThread(s, t, pick).core.table == s.core.table && MoveThread(s, t, pick).log.made == s.log.made
    ensures OrderOk(MoveThread(s, t, pick))
  {
    var s' := MoveThread(s, t, pick);
    MemoryTopKept(s, t, pick);
    MoverKeyOk(s, t, pick);
    forall u | u in s'.threads && u != t
      ensures KeyOk(s', s'.threads[u].pc)
    {
      assert KeyOk(s, s.threads[u].pc);
    }
  }

  lemma OrderMove(s: System, t: nat, pick: string)
    requires Inv(s) && OrderOk(s) && t in s.threads
    ensures OrderOk(MoveThread(s, t, pick))
  {
    InsertsOrNot(s, t, pick);
    var s' := MoveThread(s, t, pick);
    if s'.core.table == s.core.table && s'.log.made == s.log.made {
      OrderKeptOtherwise(s, t, pick);
    } else {
      var k: Key, onDemand :|
        && k.id == pick && pick !in s.core.table
        && s'.core.table == Inserted(s.core.table, pick, k.algorithm, s.clock)
        && s'.log.made == s.log.made + [Made(k, onDemand)]
        && s'.core.mem == s.core.mem
        && s'.threads[t].pc == (if onDemand then InPin(PinStore(k.algorithm, k)) else InRotate(RotateLock(k)));
      OrderKeptByInsert(s, t, pick, k, onDemand);
    }
  }

  lemma BootOrder(table: KeyTable, made: seq<Made>, now: Time, pick: string)
    requires CanBoot(table, pick) && MadeOk(table, made, now)
    ensures var c := BootCore(table, now, pick); var made' := made + BootMade(table, pick);
      && MadeOk(c.table, made', now) && Top(c.table, made', c.mem.key)
      && (forall alg :: alg in c.mem.keysByAlg ==> TopOf(c.table, made', c.mem.keysByAlg[alg]))
  {
    if HasActive(table) {
      assert made + BootMade(table, pick) == made;
    } else {
      InsertedOk(table, made, now, Key(pick, RS256), false);
      WasMadeMore(made, Made(Key(pick, RS256), false), pick);
    }
  }

  lemma OrderStep(s: System, l: Label)
    requires Inv(s) && OrderOk(s)
    ensures OrderOk(Exec(s, l))
  {
    match l
    case Move(t, pick) => if t in s.threads { OrderMove(s, t, pick); }
    case Restart(pick) =>
      if CanBoot(s.core.table, pick) {
        BootOrder(s.core.table, s.log.made, s.clock, pick);
      }
    case Start(t, call) => OrderQuiet(s, l);
    case Tick(now) => OrderQuiet(s, l);
  }

  lemma OrderQuiet(s: System, l: Label)
    requires OrderOk(s) && (l.Start? || l.Tick?)
    ensures OrderOk(Exec(s, l))
  {
    forall u | u in Exec(s, l).threads
      ensures KeyOk(Exec(s, l), Exec(s, l).threads[u].pc)
    {
      assert u in s.threads ==> KeyOk(s, s.threads[u].pc);
    }
  }

  lemma {:induction false} OrderRun(s: System, ls: seq<Label>)
    requires Inv(s) && OrderOk(s)
    ensures OrderOk(RunFrom(s, ls)) && Inv(RunFrom(s, ls))
  {
    RunFromKeeps(s, ls);
    if ls != [] {
      OrderRun(s, ls[..|ls| - 1]);
      OrderStep(RunFrom(s, ls[..|ls| - 1]), ls[|ls| - 1]);
    }
  }

  /** A run of the service on a key table whose rows are not from the future. */
  ghost predicate Started(s: System) {
    exists table, now, pick, ls | CanBoot(table, pick) && NotAfter(table, now) :: s == RunFrom(Boot(table, now, pick), ls)
  }

  lemma StartedOk(s: System)
    requires Started(s)
    ensures Inv(s) && OrderOk(s)
  {
    var table, now, pick, ls :| CanBoot(table, pick) && NotAfter(table, now) && s == RunFrom(Boot(table, now, pick), ls);
    BootHolds(table, now, pick);
    BootOrder(table, [], now, pick);
    assert [] + BootMade(table, pick) == BootMade(table, pick);
    OrderRun(Boot(table, now, pick), ls);
  }

  // ---- Newest is last inserted ---------------------------------------------------------------------------

  lemma OlderOrLater(table: KeyTable, made: seq<Made>, now: Time, k: Key, j: nat)
    requires MadeOk(table, made, now) && Holds(table, k) && DistinctTimes(table) && j < |made|
    ensures InsertedAfter(made, k, j) ==> table[k.id].createdAt < table[made[j].key.id].createdAt
    ensures !InsertedAfter(made, k, j) ==> table[made[j].key.id].createdAt <= table[k.id].createdAt
  {
    if WasMade(made, k.id) {
      var i :| 0 <= i < |made| && made[i].key.id == k.id;
      assert Holds(table, made[i].key);
      assert made[i].key == k;
    }
  }

  lemma NewestOfIsLast(table: KeyTable, made: seq<Made>, now: Time, k: Key)
    requires MadeOk(table, made, now) && Holds(table, k) && DistinctTimes(table) && TopOf(table, made, k)
    ensures NewestOf(table, k.algorithm, k.id) <==>
      forall j: nat :: InsertedAfter(made, k, j) ==> made[j].key.algorithm != k.algorithm
  {
    forall j: nat | InsertedAfter(made, k, j) && made[j].key.algorithm == k.algorithm
      ensures !NewestOf(table, k.algorithm, k.id)
    {
      OlderOrLater(table, made, now, k, j);
      assert Holds(table, made[j].key);
    }
    if forall j: nat :: InsertedAfter(made, k, j) ==> made[j].key.algorithm != k.algorithm {
      forall x | x in table && IsActive(table, x) && table[x].algorithm == k.algorithm
        ensures table[x].createdAt <= table[k.id].createdAt
      {
        if WasMade(made, x) {
          var i :| 0 <= i < |made| && made[i].key.id == x;
          assert Holds(table, made[i].key);
          OlderOrLater(table, made, now, k, i);
        } else if WasMade(made, k.id) {
          var i :| 0 <= i < |made| && made[i].key.id == k.id;
        }
      }
    }
  }

  lemma NewestIsLast(table: KeyTable, made: seq<Made>, now: Time, k: Key)
    requires MadeOk(table, made, now) && Holds(table, k) && DistinctTimes(table) && Top(table, made, k)
    ensures Newest(table, k.id) <==> forall j: nat :: !InsertedAfter(made, k, j)
  {
    forall j: nat | InsertedAfter(made, k, j)
      ensures !Newest(table, k.id)
    {
      OlderOrLater(table, made, now, k, j);
      assert Holds(table, made[j].key);
    }
    if forall j: nat :: !InsertedAfter(made, k, j) {
      forall x | x in table && IsActive(table, x)
        ensures table[x].createdAt <= table[k.id].createdAt
      {
        if WasMade(made, x) {
          var i :| 0 <= i < |made| && made[i].key.id == x;
          OlderOrLater(table, made, now, k, i);
        } else if WasMade(made, k.id) {
          var i :| 0 <= i < |made| && made[i].key.id == k.id;
        }
      }
    }
  }

  /** In every interleaving, at any moment: a cached key is the newest active key of its algorithm
      if and only if no key of that algorithm was inserted after it. */
  lemma CachedIsNewestIff(s: System, alg: Algorithm)
    requires Started(s) && DistinctTimes(s.core.table) && alg in s.core.mem.keysByAlg
    ensures var k := s.core.mem.keysByAlg[alg];
      NewestOf(s.core.table, alg, k.id) <==>
        forall j: nat :: InsertedAfter(s.log.made, k, j) ==> s.log.made[j].key.algorithm != alg
  {
    StartedOk(s);
    NewestOfIsLast(s.core.table, s.log.made, s.clock, s.core.mem.keysByAlg[alg]);
  }

  /** The key that thread t's next statement puts into the cache. */
  predicate Caches(s: System, t: nat, k: Key) {
    t in s.threads && (s.threads[t].pc == InRotate(RotateSetCache(k)) || s.threads[t].pc == InPin(PinStore(k.algorithm, k)))
  }

  /** So a rotation or a pinned call puts an outdated key into the cache exactly if another rotation
      or pinned call inserted a key of the algorithm between its own row and its cache write. */
  lemma CacheWriteIsNewestIff(s: System, t: nat, k: Key)
    requires Started(s) && DistinctTimes(s.core.table) && Caches(s, t, k)
    ensures var s' := Exec(s, Move(t, ""));
      && k.algorithm in s'.core.mem.keysByAlg && s'.core.mem.keysByAlg[k.algorithm] == k
      && s'.core.table == s.core.table && s'.log.made == s.log.made
      && (NewestOf(s'.core.table, k.algorithm, k.id) <==>
            forall j: nat :: InsertedAfter(s'.log.made, k, j) ==> s'.log.made[j].key.algorithm != k.algorithm)
  {
    StartedOk(s);
    assert LocalsOk(s, s.threads[t]) && KeyOk(s, s.threads[t].pc);
    NewestOfIsLast(s.core.table, s.log.made, s.clock, k);
  }

  // ---- The default key over a restart ---------------------------------------------------------------------

  lemma RestartTakesTheNewest(s: System, pick: string)
    requires Inv(s) && CanBoot(s.core.table, pick) && DistinctTimes(s.core.table)
    ensures Exec(s, Restart(pick)).core.mem.key == s.core.mem.key <==> Newest(s.core.table, s.core.mem.key.id)
  {
    assert IsActive(s.core.table, s.core.mem.key.id);
  }

  /** A restart keeps the default key if and only if no key at all was inserted after it, in every
      interleaving and wherever the process dies. */
  lemma RestartKeepsDefaultIff(s: System, pick: string)
    requires Started(s) && CanBoot(s.core.table, pick) && DistinctTimes(s.core.table)
    ensures Exec(s, Restart(pick)).core.mem.key == s.core.mem.key <==> forall j: nat :: !InsertedAfter(s.log.made, s.core.mem.key, j)
  {
    StartedOk(s);
    RestartTakesTheNewest(s, pick);
    NewestIsLast(s.core.table, s.log.made, s.clock, s.core.mem.key);
  }

  /** The rotation has written its row and not yet made it the current key. */
  predicate RotatesTo(pc: Pc, k: Key) {
    pc == InRotate(RotateLock(k)) || pc == InRotate(RotateSetKey(k))
  }

  predicate NoRotation(s: System) {
    forall t :: t in s.threads && s.threads[t].pc.InRotate? ==>
      !s.threads[t].pc.rotate.RotateLock? && !s.threads[t].pc.rotate.RotateSetKey?
  }

  predicate WritesRotation(s: System, l: Label) {
    l.Move? && l.t in s.threads && s.threads[l.t].pc.InRotate? && s.threads[l.t].pc.rotate.RotateInsert?
  }

  /** A rotation writes its row only while no other is between writing its row and setting the key. */
  predicate RotationsApart(s: System, ls: seq<Label>) {
    ls == [] ||
    (RotationsApart(s, ls[..|ls| - 1])
     && (WritesRotation(RunFrom(s, ls[..|ls| - 1]), ls[|ls| - 1]) ==> NoRotation(RunFrom(s, ls[..|ls| - 1]))))
  }

  /** What came after k is on demand, or the row of a rotation that is about to make it current. */
  ghost predicate OnlyOnDemandAfter(s: System, k: Key) {
    forall j: nat | InsertedAfter(s.log.made, k, j) :: s.log.made[j].onDemand
  }

  /** What comes after the current key is on demand or belongs to a rotation under way. */
  ghost predicate DefaultOk(s: System) {
    forall j: nat | InsertedAfter(s.log.made, s.core.mem.key, j) ::
      s.log.made[j].onDemand || exists t :: t in s.threads && RotatesTo(s.threads[t].pc, s.log.made[j].key)
  }

  ghost predicate ApartOk(s: System) {
    && DefaultOk(s)
    && (forall t, k | t in s.threads && RotatesTo(s.threads[t].pc, k) :: OnlyOnDemandAfter(s, k))
  }

  lemma AfterMore(made: seq<Made>, m: Made, k: Key, j: nat)
    requires InsertedAfter(made + [m], k, j)
    ensures j == |made| || (InsertedAfter(made, k, j) && (made + [m])[j] == made[j])
    ensures m.key == k ==> j == |made| + 1
  {
    var more := made + [m];
    assert more[|made|] == m;
    forall i | 0 <= i < |made| && made[i].key == k
      ensures i < j
    {
      assert more[i].key == k;
    }
  }

  lemma ApartAfterInsert(s: System, s': System, t: nat, k: Key, onDemand: bool)
    requires ApartOk(s) && t in s.threads && (!onDemand ==> NoRotation(s))
    requires s'.core.mem == s.core.mem && s'.log.made == s.log.made + [Made(k, onDemand)]
    requires s'.threads == s.threads[t := Thread(s.threads[t].call, if onDemand then InPin(PinStore(k.algorithm, k)) else InRotate(RotateLock(k)))]
    requires !s.threads[t].pc.InRotate? || s.threads[t].pc.rotate.RotateInsert?
    ensures ApartOk(s')
  {
    var m := Made(k, onDemand);
    forall j: nat | InsertedAfter(s'.log.made, s.core.mem.key, j)
      ensures s'.log.made[j].onDemand || exists u :: u in s'.threads && RotatesTo(s'.threads[u].pc, s'.log.made[j].key)
    {
      AfterMore(s.log.made, m, s.core.mem.key, j);
      if j == |s.log.made| {
        if !onDemand { assert RotatesTo(s'.threads[t].pc, s'.log.made[j].key); }
      } else if !s.log.made[j].onDemand {
        var u :| u in s.threads && RotatesTo(s.threads[u].pc, s.log.made[j].key);
        assert RotatesTo(s'.threads[u].pc, s.log.made[j].key);
      }
    }
    forall u, h, j: nat | u in s'.threads && RotatesTo(s'.threads[u].pc, h) && InsertedAfter(s'.log.made, h, j)
      ensures s'.log.made[j].onDemand
    {
      AfterMore(s.log.made, m, h, j);
      if u != t {
        assert RotatesTo(s.threads[u].pc, h);
        assert OnlyOnDemandAfter(s, h);
      }
    }
  }

  /** Rotations under way keep their keys, and nothing new comes after these. */
  lemma RotationsKept(s: System, t: nat, pick: string)
    requires ApartOk(s) && t in s.threads && MoveThread(s, t, pick).log.made == s.log.made
    ensures var s' := MoveThread(s, t, pick);
      forall u, k | u in s'.threads && RotatesTo(s'.threads[u].pc, k) :: OnlyOnDemandAfter(s', k)
  {
    var s' := MoveThread(s, t, pick);
    forall u, k | u in s'.threads && RotatesTo(s'.threads[u].pc, k)
      ensures OnlyOnDemandAfter(s', k)
    {
      assert RotatesTo(s.threads[u].pc, k);
      assert OnlyOnDemandAfter(s, k);
    }
  }

  predicate SetsKey(pc: Pc) {
    pc.InRotate? && pc.rotate.RotateSetKey?
  }

  lemma DefaultSet(s: System, t: nat, pick: string)
    requires ApartOk(s) && t in s.threads && SetsKey(s.threads[t].pc)
    ensures DefaultOk(MoveThread(s, t, pick))
  {
    var k := s.threads[t].pc.rotate.key;
    assert RotatesTo(s.threads[t].pc, k);
    assert OnlyOnDemandAfter(s, k);
  }

  lemma DefaultUnset(s: System, t: nat, pick: string)
    requires DefaultOk(s) && t in s.threads && !SetsKey(s.threads[t].pc) && MoveThread(s, t, pick).log.made == s.log.made
    ensures DefaultOk(MoveThread(s, t, pick))
  {
    var s' := MoveThread(s, t, pick);
    assert s'.core.mem.key == s.core.mem.key;
    forall j: nat | InsertedAfter(s.log.made, s.core.mem.key, j) && !s.log.made[j].onDemand
      ensures exists u :: u in s'.threads && RotatesTo(s'.threads[u].pc, s.log.made[j].key)
    {
      var u :| u in s.threads && RotatesTo(s.threads[u].pc, s.log.made[j].key);
      assert RotatesTo(s'.threads[u].pc, s.log.made[j].key);
    }
  }

  lemma ApartOtherwise(s: System, t: nat, pick: string)
    requires ApartOk(s) && t in s.threads && MoveThread(s, t, pick).log.made == s.log.made
    ensures ApartOk(MoveThread(s, t, pick))
  {
    RotationsKept(s, t, pick);
    if SetsKey(s.threads[t].pc) { DefaultSet(s, t, pick); } else { DefaultUnset(s, t, pick); }
  }

  lemma ApartMove(s: System, t: nat, pick: string)
    requires ApartOk(s) && t in s.threads
    requires s.threads[t].pc.InRotate? && s.threads[t].pc.rotate.RotateInsert? ==> NoRotation(s)
    ensures ApartOk(MoveThread(s, t, pick))
  {
    InsertsOrNot(s, t, pick);
    var s' := MoveThread(s, t, pick);
    if s'.core.table == s.core.table && s'.log.made == s.log.made {
      ApartOtherwise(s, t, pick);
    } else {
      var k: Key, onDemand :|
        && s'.log.made == s.log.made + [Made(k, onDemand)] && s'.core.mem == s.core.mem
        && s'.threads[t].pc == (if onDemand then InPin(PinStore(k.algorithm, k)) else InRotate(RotateLock(k)))
        && s.threads[t].pc == (if onDemand then InPin(PinInsert(k.algorithm)) else InRotate(RotateInsert(k.algorithm)));
      ApartAfterInsert(s, s', t, k, onDemand);
    }
  }

  lemma ApartRestart(s: System, pick: string)
    requires Inv(s) && OrderOk(s) && CanBoot(s.core.table, pick) && DistinctTimes(Exec(s, Restart(pick)).core.table)
    ensures ApartOk(Exec(s, Restart(pick)))
  {
    var s' := Exec(s, Restart(pick));
    OrderStep(s, Restart(pick));
    NewestIsLast(s'.core.table, s'.log.made, s'.clock, s'.core.mem.key);
    BootHolds(s.core.table, s.clock, pick);
  }

  lemma ApartQuiet(s: System, l: Label)
    requires ApartOk(s) && (l.Start? || l.Tick?)
    ensures ApartOk(Exec(s, l))
  {
    var s' := Exec(s, l);
    forall u, k | u in s'.threads && RotatesTo(s'.threads[u].pc, k)
      ensures u in s.threads && RotatesTo(s.threads[u].pc, k) && OnlyOnDemandAfter(s', k)
    {
      assert RotatesTo(s.threads[u].pc, k);
      assert OnlyOnDemandAfter(s, k);
    }
    forall j: nat | InsertedAfter(s.log.made, s.core.mem.key, j) && !s.log.made[j].onDemand
      ensures exists u :: u in s'.threads && RotatesTo(s'.threads[u].pc, s.log.made[j].key)
    {
      var u :| u in s.threads && RotatesTo(s.threads[u].pc, s.log.made[j].key);
      assert RotatesTo(s'.threads[u].pc, s.log.made[j].key);
    }
  }

  lemma ExecGrows(s: System, l: Label)
    ensures TableGrows(s.core.table, Exec(s, l).core.table)
  {
    if l.Move? && l.t in s.threads {
      AdvanceGrows(s.core, l.t, s.clock, s.threads[l.t].pc, l.pick);
    } else if l.Restart? && CanBoot(s.core.table, l.pick) {
      BootHolds(s.core.table, s.clock, l.pick);
    }
  }

  lemma {:induction false} ApartRun(s: System, ls: seq<Label>)
    requires Inv(s) && OrderOk(s) && ApartOk(s) && RotationsApart(s, ls) && DistinctTimes(RunFrom(s, ls).core.table)
    ensures ApartOk(RunFrom(s, ls))
  {
    if ls != [] {
      var front := ls[..|ls| - 1];
      var before := RunFrom(s, front);
      var l := ls[|ls| - 1];
      ExecGrows(before, l);
      ApartRun(s, front);
      OrderRun(s, front);
      match l
      case Move(t, pick) => if t in before.threads { ApartMove(before, t, pick); }
      case Restart(pick) => if CanBoot(before.core.table, pick) { ApartRestart(before, pick); }
      case Start(_, _) => ApartQuiet(before, l);
      case Tick(_) => ApartQuiet(before, l);
    }
  }

  /** If rotations do not overlap each other, whatever else does: while no rotation is under way, a
      restart keeps the default key if and only if no key was generated on demand since the default
      key was inserted. */
  lemma DefaultSurvivesRestartIff(table: KeyTable, now: Time, boot: string, ls: seq<Label>, pick: string)
    requires CanBoot(table, boot) && NotAfter(table, now) && RotationsApart(Boot(table, now, boot), ls)
    requires var s := RunFrom(Boot(table, now, boot), ls); DistinctTimes(s.core.table) && NoRotation(s) && CanBoot(s.core.table, pick)
    ensures var s := RunFrom(Boot(table, now, boot), ls);
      Exec(s, Restart(pick)).core.mem.key == s.core.mem.key <==>
        forall j: nat :: InsertedAfter(s.log.made, s.core.mem.key, j) ==> !s.log.made[j].onDemand
  {
    var s0 := Boot(table, now, boot);
    var s := RunFrom(s0, ls);
    assert RunFrom(s0, []) == s0;
    assert Started(s0) && Started(s);
    StartedOk(s0);
    BootApart(table, now, boot, ls);
    ApartRun(s0, ls);
    RestartKeepsDefaultIff(s, pick);
    forall j: nat | InsertedAfter(s.log.made, s.core.mem.key, j)
      ensures s.log.made[j].onDemand
    {
      assert forall t :: t in s.threads ==> !RotatesTo(s.threads[t].pc, s.log.made[j].key);
    }
  }

  lemma {:induction false} RunGrows(s: System, ls: seq<Label>)
    ensures TableGrows(s.core.table, RunFrom(s, ls).core.table)
  {
    if ls != [] {
      RunGrows(s, ls[..|ls| - 1]);
      ExecGrows(RunFrom(s, ls[..|ls| - 1]), ls[|ls| - 1]);
    }
  }

  lemma BootApart(table: KeyTable, now: Time, boot: string, ls: seq<Label>)
    requires CanBoot(table, boot) && NotAfter(table, now)
    requires DistinctTimes(RunFrom(Boot(table, now, boot), ls).core.table)
    ensures ApartOk(Boot(table, now, boot))
  {
    var s0 := Boot(table, now, boot);
    RunGrows(s0, ls);
    assert RunFrom(s0, []) == s0;
    assert Started(s0);
    StartedOk(s0);
    NewestIsLast(s0.core.table, s0.log.made, s0.clock, s0.core.mem.key);
  }
}
