/** Types shared by the modules. */
module Prelude {
  datatype Option<+T> = None | Some(value: T)

  datatype Result<+T> = Ok(value: T) | Err(reason: string)

  /** Instants and durations, in seconds. */
  type Time = int

  // ---- Selections from a list ---------------------------------------------------------------------

  /** kept is what stands in all at these positions, in order. */
  ghost predicate StandsAt<T>(kept: seq<T>, all: seq<T>, at: seq<nat>) {
    && |at| == |kept|
    && (forall i, j :: 0 <= i < j < |at| ==> at[i] < at[j])
    && (forall i :: 0 <= i < |at| ==> at[i] < |all| && kept[i] == all[at[i]])
  }

  /** These are the positions of exactly the wanted elements. */
  ghost predicate Wanted<T>(all: seq<T>, want: T -> bool, at: seq<nat>) {
    forall j: nat :: j in at <==> j < |all| && want(all[j])
  }

  /** kept is the sublist of exactly the wanted elements. */
  ghost predicate Selects<T>(kept: seq<T>, all: seq<T>, want: T -> bool) {
    exists at: seq<nat> :: StandsAt(kept, all, at) && Wanted(all, want, at)
  }

  lemma ShiftedPositions(at: seq<nat>, up: seq<nat>, first: seq<nat>)
    requires |up| == |at| && forall i :: 0 <= i < |at| ==> up[i] == at[i] + 1
    requires first == [] || first == [0]
    ensures forall j: nat :: j + 1 in first + up <==> j in at
    ensures 0 in first + up <==> first == [0]
  {
    forall j: nat | j in at
      ensures j + 1 in first + up
    {
      var i :| 0 <= i < |at| && at[i] == j;
      assert (first + up)[|first| + i] == j + 1;
    }
    if first == [0] { assert (first + up)[0] == 0; }
  }

  lemma ShiftedStands<T>(x: T, kept: seq<T>, all: seq<T>, at: seq<nat>, up: seq<nat>)
    requires StandsAt(kept, all, at)
    requires |up| == |at| && forall i :: 0 <= i < |at| ==> up[i] == at[i] + 1
    ensures StandsAt(kept, [x] + all, up)
    ensures StandsAt([x] + kept, [x] + all, [0] + up)
  {
    forall i | 0 <= i < |up|
      ensures up[i] < |[x] + all| && kept[i] == ([x] + all)[up[i]]
    {
      assert ([x] + all)[at[i] + 1] == all[at[i]];
    }
    forall i | 0 <= i < |[0] + up|
      ensures ([0] + up)[i] < |[x] + all| && ([x] + kept)[i] == ([x] + all)[([0] + up)[i]]
    {
      if i > 0 { assert ([0] + up)[i] == up[i - 1] && ([x] + kept)[i] == kept[i - 1]; }
    }
  }

  lemma ShiftedWanted<T>(x: T, all: seq<T>, want: T -> bool, at: seq<nat>, up: seq<nat>)
    requires Wanted(all, want, at)
    requires |up| == |at| && forall i :: 0 <= i < |at| ==> up[i] == at[i] + 1
    ensures Wanted([x] + all, want, (if want(x) then [0] else []) + up)
  {
    var first: seq<nat> := if want(x) then [0] else [];
    ShiftedPositions(at, up, first);
    forall j: nat
      ensures j in first + up <==> j < |[x] + all| && want(([x] + all)[j])
    {
      if j > 0 {
        assert (j - 1) + 1 in first + up <==> j - 1 in at;
        assert j < |[x] + all| ==> ([x] + all)[j] == all[j - 1];
      }
    }
  }

  lemma SelectOneMore<T>(x: T, kept: seq<T>, all: seq<T>, want: T -> bool)
    requires Selects(kept, all, want)
    ensures Selects((if want(x) then [x] else []) + kept, [x] + all, want)
  {
    var at: seq<nat> :| StandsAt(kept, all, at) && Wanted(all, want, at);
    var up: seq<nat> := seq(|at|, i requires 0 <= i < |at| => at[i] + 1);
    ShiftedStands(x, kept, all, at, up);
    ShiftedWanted(x, all, want, at, up);
    assert [] + kept == kept && [] + up == up;
  }

  lemma SelectNothing<T>(want: T -> bool)
    ensures Selects([], [], want)
  {
    assert StandsAt<T>([], [], []);
  }
}
