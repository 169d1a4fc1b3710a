/** What the key log puts on record happened: rows made, keys returned, algorithms rotated. */
module KeyRecords {
  import opened Prelude
  import opened KeyMachine
  import opened KeyInvariant
  import opened KeySafety

  /** A move adds at most one row to the table, and puts exactly that row on record: as generated on
      demand if the call is SigningKey, as rotated in if it is RotateSigningKey. */
  lemma InsertsAreNoted(s: System, t: nat, pick: string)
    requires Reachable(s) && t in s.threads
    ensures var s' := Exec(s, Move(t, pick)); var table, table' := s.core.table, s'.core.table;
      if table' == table then s'.log.made == s.log.made && s'.log.generated == s.log.generated
      else
        && pick !in table && pick in table' && table' == table[pick := KeyRow(table'[pick].algorithm, true, s.clock)]
        && var k := Key(pick, table'[pick].algorithm);
           && (s.threads[t].call == Sign(Some(k.algorithm)) || s.threads[t].call == Rotate(k.algorithm))
           && s'.log.made == s.log.made + [Made(k, s.threads[t].call.Sign?)]
           && s'.log.generated == s.log.generated + (if s.threads[t].call.Sign? then [k] else [])
  {
    ReachableInv(s);
    assert LocalsOk(s, s.threads[t]);
  }

  /** KeySet publishes exactly the active rows of the table as it stands. */
  lemma PublishesTheActiveRows(s: System, t: nat, pick: string, k: Key)
    requires Reachable(s) && t in s.threads && s.threads[t].call == Publish && !s.threads[t].pc.Done?
    ensures var s' := Exec(s, Move(t, pick)); var table := s.core.table;
      && s'.core == s.core && s'.threads[t].pc.Done? && s'.threads[t].pc.outcome.Published?
      && (k in s'.threads[t].pc.outcome.keys <==> k.id in table && table[k.id].active && table[k.id].algorithm == k.algorithm)
  {
    ReachableInv(s);
    assert LocalsOk(s, s.threads[t]);
    assert IsActive(s.core.table, s.core.mem.key.id);
  }

  ghost predicate Answered(s: System, alg: Algorithm, k: Key) {
    exists i :: 0 <= i < |s.log.answers| && s.log.answers[i].alg == alg && s.log.answers[i].key == k
  }

  /** What a call that is over has done is on record. */
  ghost predicate OnRecord(s: System, th: Thread) {
    match th.pc
    case Done(Signed(k)) =>
      && k in s.log.signed
      && (th.call == Sign(Some(RS256)) || th.call == Sign(Some(ES256)) ==> Answered(s, th.call.pin.value, k))
    case Done(Rotated(k)) => k.algorithm in s.log.rotated
    case InRotate(RotateUnlock(k)) => k.algorithm in s.log.rotated
    case _ => true
  }

  /** An algorithm is on record as rotated only if a call rotated it in this process. */
  ghost predicate WasRotated(s: System, alg: Algorithm) {
    exists t :: t in s.threads && s.threads[t].call == Rotate(alg)
  }

  ghost predicate RecordsOk(s: System) {
    && (forall t :: t in s.threads ==> OnRecord(s, s.threads[t]))
    && (forall alg :: alg in s.log.rotated ==> WasRotated(s, alg))
  }

  lemma LogGrows(s: System, t: nat, pick: string)
    requires t in s.threads
    ensures var log' := MoveThread(s, t, pick).log;
      && s.log.signed <= log'.signed && s.log.rotated <= log'.rotated
      && |s.log.answers| <= |log'.answers| && (forall i :: 0 <= i < |s.log.answers| ==> log'.answers[i] == s.log.answers[i])
  {
  }

  lemma StaysOnRecord(s: System, s': System, th: Thread)
    requires s.log.signed <= s'.log.signed && s.log.rotated <= s'.log.rotated
    requires |s.log.answers| <= |s'.log.answers| && (forall i :: 0 <= i < |s.log.answers| ==> s'.log.answers[i] == s.log.answers[i])
    requires OnRecord(s, th)
    ensures OnRecord(s', th)
  {
    if th.pc.Done? && th.pc.outcome.Signed? && th.call.Sign? && th.call.pin.Some? && Answered(s, th.call.pin.value, th.pc.outcome.key) {
      var i :| 0 <= i < |s.log.answers| && s.log.answers[i].alg == th.call.pin.value && s.log.answers[i].key == th.pc.outcome.key;
      assert s'.log.answers[i].alg == th.call.pin.value;
    }
  }

  lemma MoverOnRecord(s: System, t: nat, pick: string)
    requires t in s.threads && LocalsOk(s, s.threads[t]) && OnRecord(s, s.threads[t])
    ensures var s' := MoveThread(s, t, pick); OnRecord(s', s'.threads[t])
  {
    var s' := MoveThread(s, t, pick);
    LogGrows(s, t, pick);
    if s.threads[t].pc.Done? {
      StaysOnRecord(s, s', s.threads[t]);
    } else if s'.threads[t].pc.Done? && s'.threads[t].pc.outcome.Signed? && s.threads[t].pc.InPin? {
      var i := |s.log.answers|;
      assert s'.log.answers[i].key == s'.threads[t].pc.outcome.key && s'.log.answers[i].alg == s.threads[t].pc.pin.alg;
    }
  }

  lemma RotatedMove(s: System, t: nat, pick: string, alg: Algorithm)
    requires t in s.threads && LocalsOk(s, s.threads[t]) && alg in MoveThread(s, t, pick).log.rotated
    requires alg in s.log.rotated ==> WasRotated(s, alg)
    ensures WasRotated(MoveThread(s, t, pick), alg)
  {
    var s' := MoveThread(s, t, pick);
    if alg in s.log.rotated {
      var u :| u in s.threads && s.threads[u].call == Rotate(alg);
      assert s'.threads[u].call == Rotate(alg);
    } else {
      assert s'.threads[t].call == Rotate(alg);
    }
  }

  lemma RecordsMove(s: System, t: nat, pick: string)
    requires Inv(s) && RecordsOk(s) && t in s.threads && Inv(MoveThread(s, t, pick))
    ensures RecordsOk(MoveThread(s, t, pick))
  {
    var s' := MoveThread(s, t, pick);
    LogGrows(s, t, pick);
    assert LocalsOk(s, s.threads[t]) && LocalsOk(s', s'.threads[t]);
    forall u | u in s'.threads
      ensures OnRecord(s', s'.threads[u])
    {
      if u == t { MoverOnRecord(s, t, pick); } else { StaysOnRecord(s, s', s.threads[u]); }
    }
    forall alg | alg in s'.log.rotated
      ensures WasRotated(s', alg)
    {
      RotatedMove(s, t, pick, alg);
    }
  }

  lemma RecordsQuiet(s: System, s': System)
    requires RecordsOk(s) && Quiet(s, s')
    ensures RecordsOk(s')
  {
    forall u | u in s'.threads
      ensures OnRecord(s', s'.threads[u])
    {
      if u in s.threads { StaysOnRecord(s, s', s.threads[u]); }
    }
    forall alg | alg in s'.log.rotated
      ensures WasRotated(s', alg)
    {
      var u :| u in s.threads && s.threads[u].call == Rotate(alg);
      assert s'.threads[u].call == Rotate(alg);
    }
  }

  lemma RecordsStep(s: System, l: Label)
    requires Inv(s) && RecordsOk(s)
    ensures RecordsOk(Exec(s, l))
  {
    ExecKeeps(s, l);
    match l
    case Start(_, _) => RecordsQuiet(s, Exec(s, l));
    case Move(t, pick) => if t in s.threads { RecordsMove(s, t, pick); }
    case Tick(_) => RecordsQuiet(s, Exec(s, l));
    case Restart(_) =>
  }

  lemma {:induction false} RecordsRun(s: System, ls: seq<Label>)
    requires Inv(s) && RecordsOk(s)
    ensures RecordsOk(RunFrom(s, ls))
  {
    if ls != [] {
      RecordsRun(s, ls[..|ls| - 1]);
      RunFromKeeps(s, ls[..|ls| - 1]);
      RecordsStep(RunFrom(s, ls[..|ls| - 1]), ls[|ls| - 1]);
    }
  }

  /** In every run, each key that SigningKey returned is on record, as an answer too if a supported
      algorithm was asked for; and an algorithm is on record as rotated if RotateSigningKey returned a
      key of it, and only if a call for it was made in this process. */
  lemma ReturnsAreOnRecord(s: System, t: nat, alg: Algorithm)
    requires Reachable(s) && t in s.threads && s.threads[t].pc.Done?
    ensures s.threads[t].call.Sign? ==> s.threads[t].pc.outcome.Signed? && s.threads[t].pc.outcome.key in s.log.signed
    ensures s.threads[t].call == Sign(Some(alg)) && (alg == RS256 || alg == ES256) ==> Answered(s, alg, s.threads[t].pc.outcome.key)
    ensures s.threads[t].pc.outcome.Rotated? ==> s.threads[t].pc.outcome.key.algorithm in s.log.rotated
    ensures alg in s.log.rotated ==> WasRotated(s, alg)
  {
    var table, now, pick, ls :| CanBoot(table, pick) && s == RunFrom(Boot(table, now, pick), ls);
    BootHolds(table, now, pick);
    RecordsRun(Boot(table, now, pick), ls);
    ReachableInv(s);
    assert OnRecord(s, s.threads[t]) && LocalsOk(s, s.threads[t]);
  }
}
