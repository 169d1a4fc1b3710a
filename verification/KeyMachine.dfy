/** Signing keys: the signing_keys table, the cache in front of it and its read-write lock
    (internal/storage/storage.go, internal/storage/keys.go). Every lock operation, every access
    to the cache and every SQL statement is one step; restarts build a new cache on the same table. */
module KeyMachine {
  import opened Prelude

  datatype Algorithm = RS256 | ES256 | OtherAlgorithm(name: string)

  predicate Supported(alg: Algorithm) {
    alg == RS256 || alg == ES256
  }

  datatype KeyRow = KeyRow(algorithm: Algorithm, active: bool, createdAt: Time)

  type KeyTable = map<string, KeyRow>

  datatype Key = Key(id: string, algorithm: Algorithm)

  // ---- Queries ---------------------------------------------------------------------------------

  predicate IsActive(table: KeyTable, id: string) {
    id in table && table[id].active
  }

  predicate Holds(table: KeyTable, k: Key) {
    IsActive(table, k.id) && table[k.id].algorithm == k.algorithm
  }

  /** id may be the one row of an ORDER BY created_at DESC LIMIT 1 over the active rows. */
  predicate Newest(table: KeyTable, id: string) {
    IsActive(table, id) && forall x :: x in table && IsActive(table, x) ==> table[x].createdAt <= table[id].createdAt
  }

  /** The same query restricted to one algorithm. */
  predicate NewestOf(table: KeyTable, alg: Algorithm, id: string) {
    && IsActive(table, id) && table[id].algorithm == alg
    && forall x :: x in table && IsActive(table, x) && table[x].algorithm == alg ==> table[x].createdAt <= table[id].createdAt
  }

  predicate HasActive(table: KeyTable) {
    exists x :: x in table && IsActive(table, x)
  }

  predicate HasActiveOf(table: KeyTable, alg: Algorithm) {
    exists x :: x in table && IsActive(table, x) && table[x].algorithm == alg
  }

  function ActiveKeys(table: KeyTable): set<Key> {
    set id | id in table && table[id].active :: Key(id, table[id].algorithm)
  }

  function Inserted(table: KeyTable, id: string, alg: Algorithm, now: Time): KeyTable {
    table[id := KeyRow(alg, true, now)]
  }

  // ---- Programs --------------------------------------------------------------------------------

  datatype Call =
    | Sign(pin: Option<Algorithm>)     // SigningKey, with the algorithm its context asks for
    | Rotate(alg: Algorithm)           // RotateSigningKey
    | Publish                          // KeySet

  /** ensureKeyForAlg */
  datatype PinPc =
    | PinRLock(alg: Algorithm)
    | PinRead(alg: Algorithm)
    | PinRUnlock(alg: Algorithm, found: Option<Key>)
    | PinLock(alg: Algorithm)
    | PinRecheck(alg: Algorithm)
    | PinQuery(alg: Algorithm)
    | PinInsert(alg: Algorithm)
    | PinStore(alg: Algorithm, key: Key)
    | PinUnlock(alg: Algorithm, key: Key)

  /** currentKey */
  datatype CurrentPc =
    | CurrentRLock
    | CurrentRead
    | CurrentRUnlock(key: Key)

  /** RotateSigningKey writes the table before it takes the lock. */
  datatype RotatePc =
    | RotateInsert(alg: Algorithm)
    | RotateLock(key: Key)
    | RotateSetKey(key: Key)
    | RotateSetCache(key: Key)
    | RotateUnlock(key: Key)

  datatype Outcome =
    | Signed(key: Key)
    | Rotated(key: Key)
    | Published(keys: set<Key>)
    | Fallback                         // KeySet found no active row and publishes the current key
    | Unsupported

  datatype Pc =
    | InPin(pin: PinPc)
    | InCurrent(current: CurrentPc)
    | InRotate(rotate: RotatePc)
    | InPublish
    | Done(outcome: Outcome)

  function Entry(call: Call): Pc {
    match call
    case Sign(Some(alg)) => if Supported(alg) then InPin(PinRLock(alg)) else InCurrent(CurrentRLock)
    case Sign(None) => InCurrent(CurrentRLock)
    case Rotate(alg) => if Supported(alg) then InRotate(RotateInsert(alg)) else Done(Unsupported)
    case Publish => InPublish
  }

  datatype Memory = Memory(key: Key, keysByAlg: map<Algorithm, Key>)

  datatype Lock = Lock(readers: set<nat>, writer: Option<nat>)

  /** What the steps of a call read and write. */
  datatype Core = Core(table: KeyTable, mem: Memory, lock: Lock)

  /** `pick` is the row a query returns among equally new ones, or the drawn id of a new row.
      A step that is blocked or given an impossible pick changes nothing. */
  function AdvancePin(c: Core, t: nat, now: Time, pc: PinPc, pick: string): (Core, Pc) {
    match pc
    case PinRLock(alg) =>
      if c.lock.writer.None? then (c.(lock := c.lock.(readers := c.lock.readers + {t})), InPin(PinRead(alg)))
      else (c, InPin(pc))
    case PinRead(alg) =>
      (c, InPin(PinRUnlock(alg, if alg in c.mem.keysByAlg then Some(c.mem.keysByAlg[alg]) else None)))
    case PinRUnlock(alg, found) =>
      (c.(lock := c.lock.(readers := c.lock.readers - {t})),
       match found
       case Some(k) => Done(Signed(k))
       case None => InPin(PinLock(alg)))
    case PinLock(alg) =>
      if c.lock.writer.None? && c.lock.readers == {} then (c.(lock := c.lock.(writer := Some(t))), InPin(PinRecheck(alg)))
      else (c, InPin(pc))
    case PinRecheck(alg) =>
      (c, InPin(if alg in c.mem.keysByAlg then PinUnlock(alg, c.mem.keysByAlg[alg]) else PinQuery(alg)))
    case PinQuery(alg) =>
      if !HasActiveOf(c.table, alg) then (c, InPin(PinInsert(alg)))
      else if NewestOf(c.table, alg, pick) then (c, InPin(PinStore(alg, Key(pick, alg))))
      else (c, InPin(pc))
    case PinInsert(alg) =>
      if pick !in c.table then (c.(table := Inserted(c.table, pick, alg, now)), InPin(PinStore(alg, Key(pick, alg))))
      else (c, InPin(pc))
    case PinStore(alg, k) =>
      (c.(mem := c.mem.(keysByAlg := c.mem.keysByAlg[alg := k])), InPin(PinUnlock(alg, k)))
    case PinUnlock(alg, k) =>
      (c.(lock := c.lock.(writer := None)), Done(Signed(k)))
  }

  function AdvanceCurrent(c: Core, t: nat, pc: CurrentPc): (Core, Pc) {
    match pc
    case CurrentRLock =>
      if c.lock.writer.None? then (c.(lock := c.lock.(readers := c.lock.readers + {t})), InCurrent(CurrentRead))
      else (c, InCurrent(pc))
    case CurrentRead => (c, InCurrent(CurrentRUnlock(c.mem.key)))
    case CurrentRUnlock(k) => (c.(lock := c.lock.(readers := c.lock.readers - {t})), Done(Signed(k)))
  }

  function AdvanceRotate(c: Core, t: nat, now: Time, pc: RotatePc, pick: string): (Core, Pc) {
    match pc
    case RotateInsert(alg) =>
      if pick !in c.table then (c.(table := Inserted(c.table, pick, alg, now)), InRotate(RotateLock(Key(pick, alg))))
      else (c, InRotate(pc))
    case RotateLock(k) =>
      if c.lock.writer.None? && c.lock.readers == {} then (c.(lock := c.lock.(writer := Some(t))), InRotate(RotateSetKey(k)))
      else (c, InRotate(pc))
    case RotateSetKey(k) => (c.(mem := c.mem.(key := k)), InRotate(RotateSetCache(k)))
    case RotateSetCache(k) =>
      (c.(mem := c.mem.(keysByAlg := c.mem.keysByAlg[k.algorithm := k])), InRotate(RotateUnlock(k)))
    case RotateUnlock(k) => (c.(lock := c.lock.(writer := None)), Done(Rotated(k)))
  }

  function AdvancePublish(c: Core): (Core, Pc) {
    (c, Done(if HasActive(c.table) then Published(ActiveKeys(c.table)) else Fallback))
  }

  function Advance(c: Core, t: nat, now: Time, pc: Pc, pick: string): (Core, Pc) {
    match pc
    case InPin(p) => AdvancePin(c, t, now, p, pick)
    case InCurrent(p) => AdvanceCurrent(c, t, p)
    case InRotate(p) => AdvanceRotate(c, t, now, p, pick)
    case InPublish => AdvancePublish(c)
    case Done(_) => (c, pc)
  }

  // ---- The system ---------------------------------------------------------------------------------

  /** A pinned answer, and the table it was given on. */
  datatype Answer = Answer(alg: Algorithm, key: Key, table: KeyTable)

  /** A row inserted by this service, on demand of a pinned call or not. */
  datatype Made = Made(key: Key, onDemand: bool)

  /** `signed`, `answers` and `made`, the rows in the order of their insertion, go on over restarts;
      `generated` and `rotated` are of this process. */
  datatype Log = Log(signed: set<Key>, answers: seq<Answer>, generated: seq<Key>, rotated: set<Algorithm>, made: seq<Made>)

  datatype Thread = Thread(call: Call, pc: Pc)

  datatype System = System(core: Core, clock: Time, threads: map<nat, Thread>, log: Log)

  datatype Label =
    | Start(t: nat, call: Call)
    | Move(t: nat, pick: string)
    | Tick(now: Time)
    | Restart(pick: string)

  function Noted(log: Log, th: Thread, pc: Pc, table: KeyTable): Log {
    if th.pc.InPin? && th.pc.pin.PinInsert? && pc.InPin? && pc.pin.PinStore? then
      log.(generated := log.generated + [pc.pin.key], made := log.made + [Made(pc.pin.key, true)])
    else if th.pc.InRotate? && th.pc.rotate.RotateInsert? && pc.InRotate? && pc.rotate.RotateLock? then
      log.(made := log.made + [Made(pc.rotate.key, false)])
    else if th.pc.InRotate? && th.pc.rotate.RotateSetCache? then
      log.(rotated := log.rotated + {th.pc.rotate.key.algorithm})
    else if !th.pc.Done? && pc.Done? && pc.outcome.Signed? then
      log.(signed := log.signed + {pc.outcome.key},
           answers := if th.pc.InPin? then log.answers + [Answer(th.pc.pin.alg, pc.outcome.key, table)] else log.answers)
    else log
  }

  function MoveThread(s: System, t: nat, pick: string): System
    requires t in s.threads
  {
    var th := s.threads[t];
    var (core, pc) := Advance(s.core, t, s.clock, th.pc, pick);
    System(core, s.clock, s.threads[t := Thread(th.call, pc)], Noted(s.log, th, pc, core.table))
  }

  /** NewStorage on a table: it loads the newest active key, or generates an RS256 key. */
  predicate CanBoot(table: KeyTable, pick: string) {
    if HasActive(table) then Newest(table, pick) else pick !in table
  }

  function BootCore(table: KeyTable, now: Time, pick: string): Core
    requires CanBoot(table, pick)
  {
    var table' := if HasActive(table) then table else Inserted(table, pick, RS256, now);
    var key := Key(pick, table'[pick].algorithm);
    Core(table', Memory(key, map[key.algorithm := key]), Lock({}, None))
  }

  function BootMade(table: KeyTable, pick: string): seq<Made> {
    if HasActive(table) then [] else [Made(Key(pick, RS256), false)]
  }

  function Boot(table: KeyTable, now: Time, pick: string): System
    requires CanBoot(table, pick)
  {
    System(BootCore(table, now, pick), now, map[], Log({}, [], [], {}, BootMade(table, pick)))
  }

  function Exec(s: System, l: Label): System {
    match l
    case Start(t, call) =>
      if t in s.threads then s else s.(threads := s.threads[t := Thread(call, Entry(call))])
    case Move(t, pick) => if t in s.threads then MoveThread(s, t, pick) else s
    case Tick(now) => if s.clock <= now then s.(clock := now) else s
    case Restart(pick) =>
      if CanBoot(s.core.table, pick) then
        System(BootCore(s.core.table, s.clock, pick), s.clock, map[], 
               s.log.(generated := [], rotated := {}, made := s.log.made + BootMade(s.core.table, pick)))
      else s
  }

  function RunFrom(s: System, ls: seq<Label>): System {
    if ls == [] then s else Exec(RunFrom(s, ls[..|ls| - 1]), ls[|ls| - 1])
  }

  lemma RunOne(s: System, l: Label)
    ensures RunFrom(s, [l]) == Exec(s, l)
  {
    assert RunFrom(s, [l][..0]) == s;
  }

  lemma {:induction false} RunAppend(s: System, a: seq<Label>, b: seq<Label>)
    ensures RunFrom(s, a + b) == RunFrom(RunFrom(s, a), b)
  {
    if b == [] {
      assert a + b == a;
    } else {
      RunAppend(s, a, b[..|b| - 1]);
      assert (a + b)[..|a + b| - 1] == a + b[..|b| - 1];
    }
  }

  lemma RunCons(s: System, l: Label, ls: seq<Label>)
    ensures RunFrom(s, [l] + ls) == RunFrom(Exec(s, l), ls)
  {
    RunOne(s, l);
    RunAppend(s, [l], ls);
  }

  lemma RunFour(s: System, a: Label, b: Label, c: Label, d: Label)
    ensures RunFrom(s, [a] + ([b] + ([c] + ([d] + [])))) == Exec(Exec(Exec(Exec(s, a), b), c), d)
  {
    RunCons(s, a, [b] + ([c] + ([d] + [])));
    RunCons(Exec(s, a), b, [c] + ([d] + []));
    RunCons(Exec(Exec(s, a), b), c, [d] + []);
    RunCons(Exec(Exec(Exec(s, a), b), c), d, []);
  }

  lemma RunFive(s: System, a: Label, b: Label, c: Label, d: Label, e: Label)
    ensures RunFrom(s, [a] + ([b] + ([c] + ([d] + ([e] + []))))) == Exec(Exec(Exec(Exec(Exec(s, a), b), c), d), e)
  {
    RunCons(s, a, [b] + ([c] + ([d] + ([e] + []))));
    RunFour(Exec(s, a), b, c, d, e);
  }
}
