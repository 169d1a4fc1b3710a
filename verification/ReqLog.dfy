/** The in-memory log of recent requests (internal/reqlog/reqlog.go). */
module ReqLog {
  datatype Entry = Entry(time: int, httpMethod: string, path: string, clientId: string, status: int, durationMs: int)

  /** The last n entries, or all of them. */
  function LastOf(s: seq<Entry>, n: nat): seq<Entry> {
    if |s| <= n then s else s[|s| - n..]
  }

  function Reversed(s: seq<Entry>): seq<Entry> {
    if s == [] then [] else Reversed(s[1..]) + [s[0]]
  }

  lemma {:induction false} ReversedAt(s: seq<Entry>, k: nat)
    requires k < |s|
    ensures |Reversed(s)| == |s| && Reversed(s)[k] == s[|s| - 1 - k]
  {
    if |s| > 1 {
      ReversedAt(s[1..], if k == |s| - 1 then 0 else k);
    }
  }

  /** A log that has forgotten everything but the last n entries forgets the same as one that has not. */
  lemma LastOfLast(s: seq<Entry>, e: Entry, n: nat)
    requires n > 0
    ensures LastOf(LastOf(s, n) + [e], n) == LastOf(s + [e], n)
  {
  }

  /** The newest entries first, as many as the limit lets through. */
  ghost predicate NewestFirst(out: seq<Entry>, all: seq<Entry>, limit: int) {
    && |out| == (if |all| < limit then |all| else limit)
    && forall j :: 0 <= j < |out| ==> out[j] == all[|all| - 1 - j]
  }

  lemma LastReversed(all: seq<Entry>, limit: nat)
    ensures NewestFirst(Reversed(LastOf(all, limit)), all, limit)
  {
    var last := LastOf(all, limit);
    if last != [] { ReversedAt(last, 0); }
    forall j | 0 <= j < |last|
      ensures |Reversed(last)| == |last| && Reversed(last)[j] == all[|all| - 1 - j]
    {
      ReversedAt(last, j);
    }
  }

  class Log {
    var buf: seq<Entry>
    const max: int
    ghost var added: seq<Entry>

    /** The buffer holds the last entries added, in order. */
    ghost predicate Valid()
      reads this
    {
      max > 0 && buf == LastOf(added, max)
    }

    constructor (max: int)
      ensures Valid() && added == [] && this.max == if max <= 0 then 200 else max
    {
      buf, added := [], [];
      this.max := if max <= 0 then 200 else max;
    }

    method Add(e: Entry)
      requires Valid()
      modifies this
      ensures Valid() && added == old(added) + [e] && |buf| <= max
      ensures buf == if |old(buf)| < max then old(buf) + [e] else old(buf)[1..] + [e]
    {
      LastOfLast(added, e, max);
      added := added + [e];
      buf := buf + [e];
      if |buf| > max {
        buf := buf[|buf| - max..];
      }
    }

    /** A copy in an array of its own, newest first. */
    method Entries() returns (out: array<Entry>)
      requires Valid()
      ensures Valid() && fresh(out)
      ensures out[..] == Reversed(LastOf(added, max))
      ensures NewestFirst(out[..], added, max)
    {
      out := new Entry[|buf|];
      for i := 0 to |buf|
        invariant forall j :: |buf| - i <= j < |buf| ==> out[j] == buf[|buf| - 1 - j]
      {
        out[|buf| - 1 - i] := buf[i];
      }
      ghost var n := |buf|;
      assert n == 0 ==> buf == [];
      forall j | 0 <= j < n
        ensures |Reversed(buf)| == n && Reversed(buf)[j] == out[j]
      {
        ReversedAt(buf, j);
      }
      assert n > 0 ==> Reversed(buf)[0] == out[0];
      assert out[..] == Reversed(buf);
      LastReversed(added, max);
    }
  }

  method AddEach(log: Log, entries: seq<Entry>)
    requires log.Valid()
    modifies log
    ensures log.Valid() && log.added == old(log.added) + entries
  {
    for i := 0 to |entries|
      invariant log.Valid() && log.added == old(log.added) + entries[..i]
    {
      log.Add(entries[i]);
      assert entries[..i + 1] == entries[..i] + [entries[i]];
    }
    assert entries[..|entries|] == entries;
  }

  /** Any sequence of adds on a new log: what Entries returns is a function of all entries added and
      the limit, and a copy taken earlier does not change. */
  method AddAll(max: int, first: seq<Entry>, second: seq<Entry>) returns (early: array<Entry>, late: array<Entry>)
    ensures var limit := if max <= 0 then 200 else max;
      early[..] == Reversed(LastOf(first, limit)) && late[..] == Reversed(LastOf(first + second, limit))
    ensures NewestFirst(early[..], first, if max <= 0 then 200 else max)
    ensures NewestFirst(late[..], first + second, if max <= 0 then 200 else max)
  {
    var log := new Log(max);
    AddEach(log, first);
    assert log.added == first;
    early := log.Entries();
    AddEach(log, second);
    late := log.Entries();
  }
}
