/** The signing-key methods as they change the storage object, one call at a time. Each leaves the
    table and the cache exactly as the steps of KeyMachine do for a caller that is alone; `pick` is
    the row a query returned or the id drawn for a new row, `rows` what an ordered query returned. */
module KeyStorage {
  import opened Prelude
  import opened KeyMachine

  // ---- A caller on its own ------------------------------------------------------------------------

  /** n steps of thread t with nothing in between. */
  function Steps(c: Core, t: nat, now: Time, pc: Pc, pick: string, n: nat): (Core, Pc)
    decreases n
  {
    if n == 0 then (c, pc)
    else
      var (c', pc') := Advance(c, t, now, pc, pick);
      Steps(c', t, now, pc', pick, n - 1)
  }

  function Moves(t: nat, pick: string, n: nat): seq<Label> {
    if n == 0 then [] else [Move(t, pick)] + Moves(t, pick, n - 1)
  }

  lemma MoveIsStep(s: System, t: nat, pick: string)
    requires t in s.threads
    ensures var s' := Exec(s, Move(t, pick)); var (core, pc) := Advance(s.core, t, s.clock, s.threads[t].pc, pick);
      && s'.core == core && s'.clock == s.clock && s'.threads == s.threads[t := Thread(s.threads[t].call, pc)]
  {
  }

  /** Moving one thread n times in the machine is running its program for n steps. */
  lemma {:induction false} MovesAreSteps(s: System, t: nat, pick: string, n: nat)
    requires t in s.threads
    decreases n
    ensures var s' := RunFrom(s, Moves(t, pick, n)); var (core, pc) := Steps(s.core, t, s.clock, s.threads[t].pc, pick, n);
      && s'.core == core && s'.clock == s.clock
      && t in s'.threads && s'.threads[t].pc == pc && s'.threads[t].call == s.threads[t].call
      && s'.threads.Keys == s.threads.Keys
      && (forall u :: u in s.threads && u != t ==> s'.threads[u] == s.threads[u])
  {
    if n > 0 {
      RunCons(s, Move(t, pick), Moves(t, pick, n - 1));
      MoveIsStep(s, t, pick);
      MovesAreSteps(Exec(s, Move(t, pick)), t, pick, n - 1);
    }
  }

  predicate Free(lock: Lock) {
    lock.writer.None? && lock.readers == {}
  }

  /** pick answers the query for alg, or is unused when there is no such row. */
  predicate Picks(table: KeyTable, alg: Algorithm, pick: string) {
    if HasActiveOf(table, alg) then NewestOf(table, alg, pick) else pick !in table
  }

  lemma PinStepsTo(c: Core, t: nat, now: Time, pc: Pc, pick: string, n: nat, c': Core, pc': Pc)
    requires n > 0 && Advance(c, t, now, pc, pick) == (c', pc')
    ensures Steps(c, t, now, pc, pick, n) == Steps(c', t, now, pc', pick, n - 1)
  {
  }

  /** ensureKeyForAlg on a cached algorithm. */
  lemma CachedSteps(c: Core, t: nat, now: Time, alg: Algorithm, pick: string)
    requires Free(c.lock) && alg in c.mem.keysByAlg
    ensures Steps(c, t, now, InPin(PinRLock(alg)), pick, 3) == (c, Done(Signed(c.mem.keysByAlg[alg])))
  {
    var held := c.(lock := c.lock.(readers := c.lock.readers + {t}));
    assert c.lock.readers + {t} - {t} == c.lock.readers;
    var k := c.mem.keysByAlg[alg];
    PinStepsTo(c, t, now, InPin(PinRLock(alg)), pick, 3, held, InPin(PinRead(alg)));
    PinStepsTo(held, t, now, InPin(PinRead(alg)), pick, 2, held, InPin(PinRUnlock(alg, Some(k))));
    PinStepsTo(held, t, now, InPin(PinRUnlock(alg, Some(k))), pick, 1, c, Done(Signed(k)));
  }

  /** The way to the query, for an algorithm that is not cached. */
  lemma MissSteps(c: Core, t: nat, now: Time, alg: Algorithm, pick: string, n: nat)
    requires Free(c.lock) && alg !in c.mem.keysByAlg && n >= 5
    ensures Steps(c, t, now, InPin(PinRLock(alg)), pick, n)
         == Steps(c.(lock := c.lock.(writer := Some(t))), t, now, InPin(PinQuery(alg)), pick, n - 5)
  {
    var held := c.(lock := c.lock.(readers := c.lock.readers + {t}));
    assert c.lock.readers + {t} - {t} == c.lock.readers;
    var own := c.(lock := c.lock.(writer := Some(t)));
    PinStepsTo(c, t, now, InPin(PinRLock(alg)), pick, n, held, InPin(PinRead(alg)));
    PinStepsTo(held, t, now, InPin(PinRead(alg)), pick, n - 1, held, InPin(PinRUnlock(alg, None)));
    PinStepsTo(held, t, now, InPin(PinRUnlock(alg, None)), pick, n - 2, c, InPin(PinLock(alg)));
    PinStepsTo(c, t, now, InPin(PinLock(alg)), pick, n - 3, own, InPin(PinRecheck(alg)));
    PinStepsTo(own, t, now, InPin(PinRecheck(alg)), pick, n - 4, own, InPin(PinQuery(alg)));
  }

  /** The way back from the query once the row is known. */
  lemma StoreSteps(c: Core, t: nat, now: Time, alg: Algorithm, pick: string)
    requires c.lock == Lock({}, Some(t))
    ensures Steps(c, t, now, InPin(PinStore(alg, Key(pick, alg))), pick, 2)
         == (Core(c.table, c.mem.(keysByAlg := c.mem.keysByAlg[alg := Key(pick, alg)]), Lock({}, None)),
             Done(Signed(Key(pick, alg))))
  {
    var k := Key(pick, alg);
    var cached := c.(mem := c.mem.(keysByAlg := c.mem.keysByAlg[alg := k]));
    PinStepsTo(c, t, now, InPin(PinStore(alg, k)), pick, 2, cached, InPin(PinUnlock(alg, k)));
    PinStepsTo(cached, t, now, InPin(PinUnlock(alg, k)), pick, 1, cached.(lock := Lock({}, None)), Done(Signed(k)));
  }

  /** Eight statements load an existing row, nine create one. */
  function MissLength(table: KeyTable, alg: Algorithm): nat {
    if HasActiveOf(table, alg) then 8 else 9
  }

  function TableWith(table: KeyTable, alg: Algorithm, pick: string, now: Time): KeyTable {
    if HasActiveOf(table, alg) then table else Inserted(table, pick, alg, now)
  }

  lemma EnsureSteps(c: Core, t: nat, now: Time, alg: Algorithm, pick: string)
    requires Free(c.lock) && alg !in c.mem.keysByAlg && Picks(c.table, alg, pick)
    ensures Steps(c, t, now, InPin(PinRLock(alg)), pick, MissLength(c.table, alg))
         == (Core(TableWith(c.table, alg, pick, now), c.mem.(keysByAlg := c.mem.keysByAlg[alg := Key(pick, alg)]), Lock({}, None)),
             Done(Signed(Key(pick, alg))))
  {
    var own := c.(lock := c.lock.(writer := Some(t)));
    var k := Key(pick, alg);
    MissSteps(c, t, now, alg, pick, MissLength(c.table, alg));
    if HasActiveOf(c.table, alg) {
      PinStepsTo(own, t, now, InPin(PinQuery(alg)), pick, 3, own, InPin(PinStore(alg, k)));
      StoreSteps(own, t, now, alg, pick);
    } else {
      var made := own.(table := Inserted(c.table, pick, alg, now));
      PinStepsTo(own, t, now, InPin(PinQuery(alg)), pick, 4, own, InPin(PinInsert(alg)));
      PinStepsTo(own, t, now, InPin(PinInsert(alg)), pick, 3, made, InPin(PinStore(alg, k)));
      StoreSteps(made, t, now, alg, pick);
    }
  }

  lemma CurrentSteps(c: Core, t: nat, now: Time, pick: string)
    requires Free(c.lock)
    ensures Steps(c, t, now, InCurrent(CurrentRLock), pick, 3) == (c, Done(Signed(c.mem.key)))
  {
    var held := c.(lock := c.lock.(readers := c.lock.readers + {t}));
    assert c.lock.readers + {t} - {t} == c.lock.readers;
    PinStepsTo(c, t, now, InCurrent(CurrentRLock), pick, 3, held, InCurrent(CurrentRead));
    PinStepsTo(held, t, now, InCurrent(CurrentRead), pick, 2, held, InCurrent(CurrentRUnlock(c.mem.key)));
    PinStepsTo(held, t, now, InCurrent(CurrentRUnlock(c.mem.key)), pick, 1, c, Done(Signed(c.mem.key)));
  }

  lemma RotateSteps(c: Core, t: nat, now: Time, alg: Algorithm, pick: string)
    requires Free(c.lock) && pick !in c.table
    ensures Steps(c, t, now, InRotate(RotateInsert(alg)), pick, 5)
         == (Core(Inserted(c.table, pick, alg, now), Memory(Key(pick, alg), c.mem.keysByAlg[alg := Key(pick, alg)]), Lock({}, None)),
             Done(Rotated(Key(pick, alg))))
  {
    var k := Key(pick, alg);
    var made := c.(table := Inserted(c.table, pick, alg, now));
    var own := made.(lock := c.lock.(writer := Some(t)));
    var set1 := own.(mem := c.mem.(key := k));
    var set2 := own.(mem := Memory(k, c.mem.keysByAlg[alg := k]));
    PinStepsTo(c, t, now, InRotate(RotateInsert(alg)), pick, 5, made, InRotate(RotateLock(k)));
    PinStepsTo(made, t, now, InRotate(RotateLock(k)), pick, 4, own, InRotate(RotateSetKey(k)));
    PinStepsTo(own, t, now, InRotate(RotateSetKey(k)), pick, 3, set1, InRotate(RotateSetCache(k)));
    PinStepsTo(set1, t, now, InRotate(RotateSetCache(k)), pick, 2, set2, InRotate(RotateUnlock(k)));
    PinStepsTo(set2, t, now, InRotate(RotateUnlock(k)), pick, 1, set2.(lock := Lock({}, None)), Done(Rotated(k)));
  }

  // ---- Lists of keys --------------------------------------------------------------------------------

  /** What an ORDER BY created_at DESC over the active rows may return. */
  ghost predicate NewestFirst(table: KeyTable, rows: seq<string>) {
    && (forall i, j :: 0 <= i < j < |rows| ==> rows[i] != rows[j])
    && (forall i :: 0 <= i < |rows| ==> IsActive(table, rows[i]))
    && (forall id :: id in table && IsActive(table, id) ==> id in rows)
    && (forall i, j :: 0 <= i < j < |rows| ==> table[rows[j]].createdAt <= table[rows[i]].createdAt)
  }

  /** Each element once, where it first appears. */
  function FirstAppearances<T(==)>(s: seq<T>): seq<T> {
    if s == [] then []
    else
      var earlier := FirstAppearances(s[..|s| - 1]);
      if s[|s| - 1] in earlier then earlier else earlier + [s[|s| - 1]]
  }

  lemma OneMoreAppearance<T>(s: seq<T>, x: T)
    ensures FirstAppearances(s + [x]) == if x in FirstAppearances(s) then FirstAppearances(s) else FirstAppearances(s) + [x]
  {
    assert (s + [x])[..|s|] == s;
  }

  function FirstIndex<T(==)>(s: seq<T>, x: T): (i: nat)
    requires x in s
    ensures i < |s| && s[i] == x && x !in s[..i]
  {
    if s[0] == x then 0 else 1 + FirstIndex(s[1..], x)
  }

  lemma {:induction false} FirstIndexInPrefix<T>(s: seq<T>, x: T, n: nat)
    requires n <= |s| && x in s[..n]
    ensures FirstIndex(s, x) == FirstIndex(s[..n], x)
  {
    if s[0] != x {
      assert s[..n][1..] == s[1..][..n - 1];
      FirstIndexInPrefix(s[1..], x, n - 1);
    }
  }

  /** Without duplicates, with the same elements, and in the order of first appearance. */
  lemma {:induction false} FirstAppearancesAreInOrder<T>(s: seq<T>)
    ensures var r := FirstAppearances(s);
      && (forall i :: 0 <= i < |r| ==> r[i] in s) && (forall i :: 0 <= i < |s| ==> s[i] in r)
      && (forall i, j :: 0 <= i < j < |r| ==> FirstIndex(s, r[i]) < FirstIndex(s, r[j]))
  {
    if s != [] {
      var n := |s| - 1;
      var front := s[..n];
      FirstAppearancesAreInOrder(front);
      var r := FirstAppearances(s);
      assert s == front + [s[n]];
      forall i, j | 0 <= i < j < |r|
        ensures FirstIndex(s, r[i]) < FirstIndex(s, r[j])
      {
        var earlier := FirstAppearances(front);
        assert r[i] == earlier[i];
        FirstIndexInPrefix(s, r[i], n);
        if j < |earlier| {
          assert r[j] == earlier[j];
          FirstIndexInPrefix(s, r[j], n);
        }
      }
    }
  }

  /** Of two elements the later one appears nowhere in s without the earlier one before it. */
  ghost predicate InOrderOf<T>(r: seq<T>, s: seq<T>) {
    && (forall i, j :: 0 <= i < j < |r| ==> r[i] != r[j])
    && forall i, j, q :: 0 <= i < j < |r| && 0 <= q < |s| && s[q] == r[j] ==> r[i] in s[..q]
  }

  lemma {:induction false} AppearsNoEarlier<T>(s: seq<T>, x: T, q: nat)
    requires q < |s| && s[q] == x
    ensures FirstIndex(s, x) <= q
  {
    if s[0] != x {
      AppearsNoEarlier(s[1..], x, q - 1);
    }
  }

  lemma FirstAppearancesInOrderOf<T>(s: seq<T>)
    ensures InOrderOf(FirstAppearances(s), s)
  {
    var r := FirstAppearances(s);
    FirstAppearancesAreInOrder(s);
    forall i, j | 0 <= i < j < |r|
      ensures r[i] != r[j]
    {
      assert FirstIndex(s, r[i]) < FirstIndex(s, r[j]);
    }
    forall i, j, q | 0 <= i < j < |r| && 0 <= q < |s| && s[q] == r[j]
      ensures r[i] in s[..q]
    {
      AppearsNoEarlier(s, r[j], q);
      assert FirstIndex(s, r[i]) < FirstIndex(s, r[j]);
      assert s[..q][FirstIndex(s, r[i])] == r[i];
    }
  }

  function KeysOf(table: KeyTable, rows: seq<string>): seq<Key>
    requires forall i :: 0 <= i < |rows| ==> rows[i] in table
  {
    seq(|rows|, i requires 0 <= i < |rows| => Key(rows[i], table[rows[i]].algorithm))
  }

  function AlgorithmsOf(keys: seq<Key>): seq<Algorithm> {
    seq(|keys|, i requires 0 <= i < |keys| => keys[i].algorithm)
  }

  lemma QueryIsKeySet(table: KeyTable, rows: seq<string>)
    requires NewestFirst(table, rows)
    ensures (set k | k in KeysOf(table, rows)) == ActiveKeys(table)
    ensures rows == [] <==> !HasActive(table)
  {
    var keys := KeysOf(table, rows);
    forall id | id in table && table[id].active
      ensures Key(id, table[id].algorithm) in keys
    {
      assert IsActive(table, id);
      var i :| 0 <= i < |rows| && rows[i] == id;
      assert keys[i] == Key(id, table[id].algorithm);
    }
    if rows != [] { assert IsActive(table, rows[0]); }
  }

  /** The advertised algorithms are exactly those that have a published key. */
  lemma AlgorithmsArePublished(table: KeyTable, rows: seq<string>, alg: Algorithm)
    requires NewestFirst(table, rows)
    ensures alg in FirstAppearances(AlgorithmsOf(KeysOf(table, rows))) <==> HasActiveOf(table, alg)
  {
    var algs := AlgorithmsOf(KeysOf(table, rows));
    FirstAppearancesAreInOrder(algs);
    if HasActiveOf(table, alg) {
      var x :| x in table && IsActive(table, x) && table[x].algorithm == alg;
      var i :| 0 <= i < |rows| && rows[i] == x;
      assert algs[i] == alg;
    }
    if i :| 0 <= i < |algs| && algs[i] == alg {
      assert IsActive(table, rows[i]);
    }
  }

  method UniqueAlgorithms(keys: seq<Key>) returns (algs: seq<Algorithm>)
    ensures algs == FirstAppearances(AlgorithmsOf(keys))
  {
    var seen := {};
    algs := [];
    ghost var all: seq<Algorithm> := [];
    for i := 0 to |keys|
      invariant |all| == i && forall j :: 0 <= j < i ==> all[j] == keys[j].algorithm
      invariant algs == FirstAppearances(all)
      invariant forall a :: a in seen <==> a in algs
    {
      OneMoreAppearance(all, keys[i].algorithm);
      all := all + [keys[i].algorithm];
      if keys[i].algorithm !in seen {
        seen := seen + {keys[i].algorithm};
        algs := algs + [keys[i].algorithm];
      }
    }
    assert all == AlgorithmsOf(keys);
  }

  /** The table has an active row of this algorithm. */
  ghost predicate ActiveRowOf(table: KeyTable, alg: Algorithm) {
    exists x :: x in table && table[x].active && table[x].algorithm == alg
  }

  // ---- The storage object -----------------------------------------------------------------------------

  class SigningKeys {
    var table: KeyTable
    var key: Key
    var keysByAlg: map<Algorithm, Key>

    ghost function State(): Core
      reads this
    {
      Core(table, Memory(key, keysByAlg), Lock({}, None))
    }

    /** NewStorage and loadOrCreateSigningKey. */
    constructor (table: KeyTable, now: Time, pick: string)
      requires CanBoot(table, pick)
      ensures State() == BootCore(table, now, pick)
      ensures (exists x :: x in table && table[x].active) ==>
        && this.table == table && key.id in table && table[key.id].active && key.algorithm == table[key.id].algorithm
        && forall x :: x in table && table[x].active ==> table[x].createdAt <= table[key.id].createdAt
      ensures !(exists x :: x in table && table[x].active) ==>
        key.id !in table && key.algorithm == RS256 && this.table == table[key.id := KeyRow(RS256, true, now)]
      ensures keysByAlg == map[key.algorithm := key]
    {
      assert (exists x :: x in table && table[x].active) ==> HasActive(table) by {
        assert forall x :: x in table && table[x].active ==> IsActive(table, x);
      }
      var alg: Algorithm;
      if HasActive(table) {
        this.table := table;
        alg := table[pick].algorithm;
      } else {
        this.table := Inserted(table, pick, RS256, now);
        alg := RS256;
      }
      key := Key(pick, alg);
      keysByAlg := map[alg := Key(pick, alg)];
    }

    method EnsureKeyForAlg(alg: Algorithm, now: Time, pick: string) returns (k: Key)
      requires Supported(alg) && Picks(table, alg, pick)
      modifies this
      ensures Steps(old(State()), 0, now, InPin(PinRLock(alg)), pick,
                    if alg in old(keysByAlg) then 3 else MissLength(old(table), alg))
           == (State(), Done(Signed(k)))
      ensures key == old(key)
      ensures alg in old(keysByAlg) ==> k == old(keysByAlg)[alg] && table == old(table) && keysByAlg == old(keysByAlg)
      ensures alg !in old(keysByAlg) ==>
        NewestOf(old(table), alg, k.id) || (!HasActiveOf(old(table), alg) && table == Inserted(old(table), k.id, alg, now))
      ensures alg !in old(keysByAlg) ==> k.algorithm == alg && keysByAlg == old(keysByAlg)[alg := k]
      ensures alg !in old(keysByAlg) && ActiveRowOf(old(table), alg) ==>
        && table == old(table) && k.id in table && table[k.id].active && table[k.id].algorithm == alg
        && forall x :: x in table && table[x].active && table[x].algorithm == alg ==> table[x].createdAt <= table[k.id].createdAt
      ensures alg !in old(keysByAlg) && !ActiveRowOf(old(table), alg) ==>
        k.id !in old(table) && table == old(table)[k.id := KeyRow(alg, true, now)]
    {
      assert ActiveRowOf(table, alg) <==> HasActiveOf(table, alg) by {
        assert forall x :: x in table ==> (IsActive(table, x) <==> table[x].active);
      }
      if alg in keysByAlg {
        CachedSteps(State(), 0, now, alg, pick);
        return keysByAlg[alg];
      }
      EnsureSteps(State(), 0, now, alg, pick);
      k := Key(pick, alg);
      if !HasActiveOf(table, alg) {
        table := Inserted(table, pick, alg, now);
      }
      keysByAlg := keysByAlg[alg := k];
    }

    /** SigningKey: a supported algorithm in the request's context is honoured. */
    method SigningKey(pin: Option<Algorithm>, now: Time, pick: string) returns (k: Key)
      requires pin.Some? ==> Picks(table, pin.value, pick)
      modifies this
      ensures key == old(key)
      ensures if pin.Some? && Supported(pin.value)
        then Steps(old(State()), 0, now, Entry(Sign(pin)), pick,
                   if pin.value in old(keysByAlg) then 3 else MissLength(old(table), pin.value))
             == (State(), Done(Signed(k)))
        else Steps(old(State()), 0, now, Entry(Sign(pin)), pick, 3) == (State(), Done(Signed(k)))
      ensures pin == Some(RS256) || pin == Some(ES256) ==>
        if pin.value in old(keysByAlg) then k == old(keysByAlg)[pin.value] else k.algorithm == pin.value
      ensures pin != Some(RS256) && pin != Some(ES256) ==> k == key && table == old(table) && keysByAlg == old(keysByAlg)
    {
      if pin.Some? && Supported(pin.value) {
        k := EnsureKeyForAlg(pin.value, now, pick);
        return;
      }
      CurrentSteps(State(), 0, now, pick);
      return key;
    }

    method RotateSigningKey(alg: Algorithm, now: Time, pick: string) returns (result: Result<Key>)
      requires pick !in table
      modifies this
      ensures !Supported(alg) ==> result.Err? && State() == old(State())
      ensures Supported(alg) ==> result.Ok? && key == result.value
      ensures Supported(alg) ==>
        Steps(old(State()), 0, now, Entry(Rotate(alg)), pick, 5) == (State(), Done(Rotated(key)))
        && key.id == pick && table == Inserted(old(table), pick, alg, now)
      ensures result.Ok? <==> alg == RS256 || alg == ES256
      ensures result.Ok? ==>
        && key == Key(pick, alg) && keysByAlg == old(keysByAlg)[alg := key]
        && table == old(table)[pick := KeyRow(alg, true, now)]
    {
      if !Supported(alg) {
        return Err("unsupported signature algorithm");
      }
      RotateSteps(State(), 0, now, alg, pick);
      var made := Key(pick, alg);
      table := Inserted(table, pick, alg, now);
      key := made;
      keysByAlg := keysByAlg[alg := made];
      return Ok(made);
    }

    method LoadAllSigningKeys(rows: seq<string>) returns (out: seq<Key>)
      requires NewestFirst(table, rows)
      ensures out == KeysOf(table, rows)
      ensures |out| == |rows| && forall i :: 0 <= i < |rows| ==> out[i] == Key(rows[i], table[rows[i]].algorithm)
    {
      out := [];
      for i := 0 to |rows|
        invariant |out| == i && forall j :: 0 <= j < i ==> out[j] == Key(rows[j], table[rows[j]].algorithm)
      {
        out := out + [Key(rows[i], table[rows[i]].algorithm)];
      }
    }

    /** Publishes every active key, newest first; the current key when there is none. */
    method KeySet(rows: seq<string>) returns (out: seq<Key>)
      requires NewestFirst(table, rows)
      ensures out == if HasActive(table) then KeysOf(table, rows) else [key]
      ensures HasActive(table) ==> (set k | k in out) == ActiveKeys(table)
      ensures (exists x :: x in table && table[x].active) ==>
        && |out| == |rows| && (forall i :: 0 <= i < |rows| ==> out[i] == Key(rows[i], table[rows[i]].algorithm))
        && forall k :: k in out <==> k.id in table && table[k.id].active && table[k.id].algorithm == k.algorithm
      ensures !(exists x :: x in table && table[x].active) ==> out == [key]
    {
      assert HasActive(table) <==> exists x :: x in table && table[x].active by {
        assert forall x :: x in table ==> (IsActive(table, x) <==> table[x].active);
      }
      assert forall k :: k in ActiveKeys(table) <==> k.id in table && table[k.id].active && table[k.id].algorithm == k.algorithm;
      var keys := LoadAllSigningKeys(rows);
      QueryIsKeySet(table, rows);
      if |keys| == 0 {
        return [key];
      }
      out := [];
      for i := 0 to |keys|
        invariant out == keys[..i]
      {
        out := out + [keys[i]];
      }
    }

    method SignatureAlgorithms(rows: seq<string>) returns (algs: seq<Algorithm>)
      requires NewestFirst(table, rows)
      ensures HasActive(table) ==> algs == FirstAppearances(AlgorithmsOf(KeysOf(table, rows)))
      ensures HasActive(table) ==> forall alg :: alg in algs <==> HasActiveOf(table, alg)
      ensures !HasActive(table) ==> algs == [key.algorithm]
      ensures (exists x :: x in table && table[x].active) ==>
        && (forall alg :: alg in algs <==> ActiveRowOf(table, alg))
        && var t := table; InOrderOf(algs, seq(|rows|, i requires 0 <= i < |rows| && rows[i] in t => t[rows[i]].algorithm))
    {
      assert forall x :: x in table ==> (IsActive(table, x) <==> table[x].active);
      var keys := LoadAllSigningKeys(rows);
      QueryIsKeySet(table, rows);
      if |keys| == 0 {
        return [key.algorithm];
      }
      algs := UniqueAlgorithms(keys);
      FirstAppearancesInOrderOf(AlgorithmsOf(keys));
      ghost var t := table;
      assert AlgorithmsOf(keys) == seq(|rows|, i requires 0 <= i < |rows| && rows[i] in t => t[rows[i]].algorithm);
      forall alg
        ensures alg in algs <==> HasActiveOf(table, alg)
      {
        AlgorithmsArePublished(table, rows, alg);
      }
    }
  }
}
