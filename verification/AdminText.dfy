/** The text form of lists on the admin pages (internal/admin/admin.go): split, clean and join.
    `ws` says which characters count as white space. */
module AdminText {
  import opened Prelude

  // ---- Strings --------------------------------------------------------------------------------------

  predicate Comma(c: char) { c == ',' }

  predicate NewLine(c: char) { c == '\n' }

  predicate CommaOrBlank(c: char) { c == ',' || c == ' ' || c == '\t' || c == '\n' }

  predicate Quote(c: char) { c == '\"' }

  /** All that is known of white space, the letters being those the defaults begin and end with. */
  predicate Blanks(ws: char -> bool) {
    ws(' ') && ws('\t') && ws('\n') && !ws(',') && !ws('\"') && !ws('a') && !ws('c') && !ws('e')
  }

  predicate Free(s: string, sep: char -> bool) {
    forall i :: 0 <= i < |s| ==> !sep(s[i])
  }

  /** The pieces between separators; one piece more than there are separators. */
  function Split(s: string, sep: char -> bool): (pieces: seq<string>)
    ensures |pieces| > 0
  {
    if s == [] then [[]]
    else
      var rest := Split(s[1..], sep);
      if sep(s[0]) then [[]] + rest else [[s[0]] + rest[0]] + rest[1..]
  }

  function Join(parts: seq<string>, glue: string): string {
    if parts == [] then []
    else if |parts| == 1 then parts[0]
    else parts[0] + glue + Join(parts[1..], glue)
  }

  function TrimLeft(s: string, cut: char -> bool): string {
    if s != [] && cut(s[0]) then TrimLeft(s[1..], cut) else s
  }

  function TrimRight(s: string, cut: char -> bool): string {
    if s != [] && cut(s[|s| - 1]) then TrimRight(s[..|s| - 1], cut) else s
  }

  function Trim(s: string, cut: char -> bool): string {
    TrimRight(TrimLeft(s, cut), cut)
  }

  /** Neither end is one of these characters. */
  predicate EndsOff(s: string, cut: char -> bool) {
    s != [] ==> !cut(s[0]) && !cut(s[|s| - 1])
  }

  lemma {:induction false} PiecesAreFree(s: string, sep: char -> bool)
    ensures forall i :: 0 <= i < |Split(s, sep)| ==> Free(Split(s, sep)[i], sep)
  {
    if s != [] {
      PiecesAreFree(s[1..], sep);
    }
  }

  lemma {:induction false} SplitFree(s: string, sep: char -> bool)
    requires Free(s, sep)
    ensures Split(s, sep) == [s]
  {
    if s != [] {
      SplitFree(s[1..], sep);
      assert [s[0]] + s[1..] == s;
    }
  }

  lemma {:induction false} SplitCut(s: string, c: char, rest: string, sep: char -> bool)
    requires Free(s, sep) && sep(c)
    ensures Split(s + [c] + rest, sep) == [s] + Split(rest, sep)
  {
    var whole := s + [c] + rest;
    if s == [] {
      assert whole[1..] == rest;
    } else {
      SplitCut(s[1..], c, rest, sep);
      assert whole[1..] == s[1..] + [c] + rest;
      assert [s[0]] + s[1..] == s;
    }
  }

  /** Joining with a separator is undone by splitting. */
  lemma {:induction false} SplitJoin(parts: seq<string>, c: char, sep: char -> bool)
    requires parts != [] && sep(c) && forall i :: 0 <= i < |parts| ==> Free(parts[i], sep)
    ensures Split(Join(parts, [c]), sep) == parts
  {
    if |parts| == 1 {
      SplitFree(parts[0], sep);
      assert parts == [parts[0]];
    } else {
      SplitJoin(parts[1..], c, sep);
      SplitCut(parts[0], c, Join(parts[1..], [c]), sep);
      assert parts == [parts[0]] + parts[1..];
    }
  }

  lemma {:induction false} TrimLeftSuffix(s: string, cut: char -> bool)
    ensures var t := TrimLeft(s, cut);
      && |t| <= |s| && t == s[|s| - |t|..]
      && (t != [] ==> !cut(t[0]))
  {
    if s != [] && cut(s[0]) {
      TrimLeftSuffix(s[1..], cut);
    }
  }

  lemma {:induction false} TrimRightPrefix(s: string, cut: char -> bool)
    ensures var t := TrimRight(s, cut);
      && |t| <= |s| && t == s[..|t|]
      && (t != [] ==> !cut(t[|t| - 1]))
  {
    if s != [] && cut(s[|s| - 1]) {
      TrimRightPrefix(s[..|s| - 1], cut);
    }
  }

  /** Trimming yields a part of the string that does not begin or end with a cut character. */
  lemma Trims(s: string, cut: char -> bool)
    ensures var t := Trim(s, cut);
      && |t| <= |s| && (|t| == |s| ==> t == s)
      && EndsOff(t, cut)
      && (forall sep: char -> bool :: Free(s, sep) ==> Free(t, sep))
  {
    TrimLeftSuffix(s, cut);
    TrimRightPrefix(TrimLeft(s, cut), cut);
  }

  lemma TrimNothing(s: string, cut: char -> bool)
    requires EndsOff(s, cut)
    ensures Trim(s, cut) == s
  {
  }

  lemma {:induction false} TrimLeftBefore(s: string, c: char, cut: char -> bool)
    requires cut(c)
    ensures TrimLeft(s + [c], cut) == if TrimLeft(s, cut) == [] then [] else TrimLeft(s, cut) + [c]
  {
    if s == [] {
      assert (s + [c])[1..] == [];
    } else if cut(s[0]) {
      TrimLeftBefore(s[1..], c, cut);
      assert (s + [c])[1..] == s[1..] + [c];
    }
  }

  /** Wrapping in a cut character makes no difference. */
  lemma TrimWrapped(s: string, c: char, cut: char -> bool)
    requires cut(c)
    ensures Trim([c] + s + [c], cut) == Trim(s, cut)
  {
    assert ([c] + s + [c])[1..] == s + [c];
    TrimLeftBefore(s, c, cut);
    var t := TrimLeft(s, cut);
    assert (t + [c])[..|t|] == t;
  }

  // ---- What cutting, trimming, keeping and joining mean ------------------------------------------------

  /** The pieces with these characters between them. */
  ghost function Woven(pieces: seq<string>, cuts: string): string
    requires |pieces| == |cuts| + 1
  {
    if cuts == [] then pieces[0] else pieces[0] + [cuts[0]] + Woven(pieces[1..], cuts[1..])
  }

  ghost predicate Weaves(pieces: seq<string>, cuts: string, s: string) {
    |pieces| == |cuts| + 1 && Woven(pieces, cuts) == s
  }

  /** The text cut at each of these characters and nowhere else. */
  ghost predicate CutAt(pieces: seq<string>, s: string, seps: set<char>) {
    && (forall i, j :: 0 <= i < |pieces| && 0 <= j < |pieces[i]| ==> pieces[i][j] !in seps)
    && exists cuts: string :: Weaves(pieces, cuts, s) && forall i :: 0 <= i < |cuts| ==> cuts[i] in seps
  }

  lemma CutOff(s: string, rest: seq<string>, cuts: string)
    requires s != [] && Weaves(rest, cuts, s[1..])
    ensures Weaves([[]] + rest, [s[0]] + cuts, s)
    ensures Weaves([[s[0]] + rest[0]] + rest[1..], cuts, s)
  {
    var c := s[0];
    assert s == [c] + s[1..];
    assert ([[]] + rest)[1..] == rest && ([c] + cuts)[1..] == cuts;
    var longer := [[c] + rest[0]] + rest[1..];
    assert longer[1..] == rest[1..];
    if cuts != [] {
      assert Woven(longer, cuts) == [c] + (rest[0] + [cuts[0]] + Woven(rest[1..], cuts[1..]));
    }
  }

  lemma {:induction false} SplitWeaves(s: string, sep: char -> bool, seps: set<char>)
    requires forall c :: sep(c) <==> c in seps
    ensures exists cuts: string :: Weaves(Split(s, sep), cuts, s) && forall i :: 0 <= i < |cuts| ==> cuts[i] in seps
  {
    if s == [] {
      assert Weaves([[]], [], []);
    } else {
      SplitWeaves(s[1..], sep, seps);
      var rest := Split(s[1..], sep);
      var cuts: string :| Weaves(rest, cuts, s[1..]) && forall i :: 0 <= i < |cuts| ==> cuts[i] in seps;
      CutOff(s, rest, cuts);
      assert Weaves(Split(s, sep), if sep(s[0]) then [s[0]] + cuts else cuts, s);
    }
  }

  lemma SplitCuts(s: string, sep: char -> bool, seps: set<char>)
    requires forall c :: sep(c) <==> c in seps
    ensures CutAt(Split(s, sep), s, seps)
  {
    SplitWeaves(s, sep, seps);
    PiecesAreFree(s, sep);
    forall i, j | 0 <= i < |Split(s, sep)| && 0 <= j < |Split(s, sep)[i]|
      ensures Split(s, sep)[i][j] !in seps
    {
      assert Free(Split(s, sep)[i], sep);
    }
  }

  /** t is the part of s from i to j, and all around it is cut away. */
  ghost predicate PartOf(t: string, s: string, cut: char -> bool, i: nat, j: nat) {
    && i <= j <= |s| && t == s[i..j]
    && (forall k :: 0 <= k < i ==> cut(s[k])) && (forall k :: j <= k < |s| ==> cut(s[k]))
  }

  /** t is s without what it begins and ends with of these characters. */
  ghost predicate TrimmedTo(t: string, s: string, cut: char -> bool) {
    EndsOff(t, cut) && exists i: nat, j: nat :: PartOf(t, s, cut, i, j)
  }

  lemma {:induction false} LeftIsCut(s: string, cut: char -> bool)
    ensures forall k :: 0 <= k < |s| - |TrimLeft(s, cut)| ==> cut(s[k])
  {
    TrimLeftSuffix(s, cut);
    if s != [] && cut(s[0]) {
      LeftIsCut(s[1..], cut);
      TrimLeftSuffix(s[1..], cut);
      forall k | 0 <= k < |s| - |TrimLeft(s, cut)| ensures cut(s[k]) { assert k > 0 ==> s[k] == s[1..][k - 1]; }
    }
  }

  lemma {:induction false} RightIsCut(s: string, cut: char -> bool)
    ensures forall k :: |TrimRight(s, cut)| <= k < |s| ==> cut(s[k])
  {
    if s != [] && cut(s[|s| - 1]) {
      RightIsCut(s[..|s| - 1], cut);
    }
  }

  lemma TrimIsPart(s: string, cut: char -> bool)
    ensures var l := TrimLeft(s, cut); var t := Trim(s, cut);
      |t| <= |l| <= |s| && PartOf(t, s, cut, |s| - |l|, |s| - |l| + |t|)
  {
    var l := TrimLeft(s, cut);
    TrimLeftSuffix(s, cut);
    TrimRightPrefix(l, cut);
    LeftIsCut(s, cut);
    RightIsCut(l, cut);
    var i := |s| - |l|;
    forall k | i + |Trim(s, cut)| <= k < |s| ensures cut(s[k]) { assert s[k] == l[k - i]; }
  }

  lemma TrimTrims(s: string, cut: char -> bool)
    ensures TrimmedTo(Trim(s, cut), s, cut)
  {
    TrimIsPart(s, cut);
    Trims(s, cut);
  }

  /** The items that are not empty, in order. */
  ghost predicate DropsEmpty(kept: seq<string>, items: seq<string>) {
    Selects(kept, items, (x: string) => x != [])
  }

  ghost predicate Unquoted(t: string, s: string) {
    TrimmedTo(t, s, (c: char) => c == '\"')
  }

  lemma TrimUnquotes(s: string)
    ensures Unquoted(Trim(s, Quote), s)
  {
    var quote := (c: char) => c == '\"';
    var t := Trim(s, Quote);
    TrimIsPart(s, Quote);
    Trims(s, Quote);
    var i: nat := |s| - |TrimLeft(s, Quote)|;
    assert PartOf(t, s, quote, i, i + |t|);
  }

  /** Each piece without surrounding quotes, if they are to go, and then without surrounding blanks. */
  ghost predicate CleanedTo(items: seq<string>, pieces: seq<string>, quotes: bool, ws: char -> bool) {
    && |items| == |pieces|
    && (!quotes ==> forall i :: 0 <= i < |items| ==> TrimmedTo(items[i], pieces[i], ws))
    && (quotes ==> exists bare: seq<string> | |bare| == |pieces| ::
          forall i :: 0 <= i < |items| ==> Unquoted(bare[i], pieces[i]) && TrimmedTo(items[i], bare[i], ws))
  }

  /** The list that a text stands for: cut, cleaned, and the empty items dropped. */
  ghost predicate StandsFor(s: string, seps: set<char>, quotes: bool, ws: char -> bool, kept: seq<string>) {
    exists pieces: seq<string>, items: seq<string> | CutAt(pieces, s, seps) && CleanedTo(items, pieces, quotes, ws) ::
      DropsEmpty(kept, items)
  }

  /** The runs of characters between separators, in order. */
  ghost predicate RunsBetween(s: string, seps: set<char>, runs: seq<string>) {
    exists pieces: seq<string> | CutAt(pieces, s, seps) :: DropsEmpty(runs, pieces)
  }

  /** An item is printed in quotes if it has a space in it. */
  ghost predicate PrintsAs(part: string, item: string) {
    if ' ' in item then part == "\"" + item + "\"" else part == item
  }

  /** The parts with a comma between any two; nothing for none. */
  ghost predicate CommaJoined(s: string, parts: seq<string>) {
    (parts == [] ==> s == "") && (parts != [] ==> Weaves(parts, seq(|parts| - 1, _ => ','), s))
  }

  // ---- The parsers ----------------------------------------------------------------------------------

  /** One piece without its blanks; response types lose surrounding quotes first. */
  function Clean(p: string, quotes: bool, ws: char -> bool): string {
    Trim(if quotes then Trim(p, Quote) else p, ws)
  }

  function Cleaned(pieces: seq<string>, quotes: bool, ws: char -> bool): seq<string> {
    seq(|pieces|, i requires 0 <= i < |pieces| => Clean(pieces[i], quotes, ws))
  }

  /** The non-empty items, in order. */
  function NonEmpty(items: seq<string>): seq<string> {
    if items == [] then []
    else (if items[0] == [] then [] else [items[0]]) + NonEmpty(items[1..])
  }

  function Kept(pieces: seq<string>, quotes: bool, ws: char -> bool): seq<string> {
    NonEmpty(Cleaned(pieces, quotes, ws))
  }

  function OrDefault(items: seq<string>, default: string): seq<string> {
    if items == [] then [default] else items
  }

  const CODE := "code"
  const AUTHORIZATION_CODE := "authorization_code"

  function ResponseTypes(s: string, ws: char -> bool): seq<string> {
    OrDefault(Kept(Split(s, Comma), true, ws), CODE)
  }

  function GrantTypes(s: string, ws: char -> bool): seq<string> {
    OrDefault(Kept(Split(s, Comma), false, ws), AUTHORIZATION_CODE)
  }

  function Lines(s: string, ws: char -> bool): seq<string> {
    Kept(Split(s, NewLine), false, ws)
  }

  /** The runs of characters that are not separators. */
  function Fields(s: string, sep: char -> bool): seq<string> {
    NonEmpty(Split(s, sep))
  }

  function CommaSpace(s: string): seq<string> {
    Fields(s, CommaOrBlank)
  }

  /** A response type with a space in it is printed in quotes. */
  function Printed(item: string): string {
    if ' ' in item then "\"" + item + "\"" else item
  }

  function PrintedAll(items: seq<string>): seq<string> {
    seq(|items|, i requires 0 <= i < |items| => Printed(items[i]))
  }

  lemma {:induction false} NonEmptyAppend(items: seq<string>, item: string)
    ensures NonEmpty(items + [item]) == NonEmpty(items) + (if item == [] then [] else [item])
  {
    if items == [] {
      assert (items + [item])[1..] == [];
    } else {
      NonEmptyAppend(items[1..], item);
      assert (items + [item])[1..] == items[1..] + [item];
    }
  }

  lemma {:induction false} NonEmptyDrops(items: seq<string>)
    ensures DropsEmpty(NonEmpty(items), items)
  {
    var some := (x: string) => x != [];
    if items == [] {
      SelectNothing(some);
    } else {
      NonEmptyDrops(items[1..]);
      SelectOneMore(items[0], NonEmpty(items[1..]), items[1..], some);
      assert items == [items[0]] + items[1..];
      assert NonEmpty(items) == (if some(items[0]) then [items[0]] else []) + NonEmpty(items[1..]);
    }
  }

  lemma FieldsAreRuns(s: string, sep: char -> bool, seps: set<char>)
    requires forall c :: sep(c) <==> c in seps
    ensures RunsBetween(s, seps, Fields(s, sep))
  {
    SplitCuts(s, sep, seps);
    NonEmptyDrops(Split(s, sep));
  }

  lemma CleanedIsCleaned(pieces: seq<string>, quotes: bool, ws: char -> bool)
    ensures CleanedTo(Cleaned(pieces, quotes, ws), pieces, quotes, ws)
  {
    var items := Cleaned(pieces, quotes, ws);
    if quotes {
      var bare: seq<string> := seq(|pieces|, i requires 0 <= i < |pieces| => Trim(pieces[i], Quote));
      forall i | 0 <= i < |items|
        ensures Unquoted(bare[i], pieces[i]) && TrimmedTo(items[i], bare[i], ws)
      {
        TrimUnquotes(pieces[i]);
        TrimTrims(bare[i], ws);
      }
      assert |bare| == |pieces|;
    } else {
      forall i | 0 <= i < |items|
        ensures TrimmedTo(items[i], pieces[i], ws)
      {
        TrimTrims(pieces[i], ws);
      }
    }
  }

  lemma KeptStandsFor(s: string, sep: char -> bool, seps: set<char>, quotes: bool, ws: char -> bool)
    requires forall c :: sep(c) <==> c in seps
    ensures StandsFor(s, seps, quotes, ws, Kept(Split(s, sep), quotes, ws))
  {
    var pieces := Split(s, sep);
    SplitCuts(s, sep, seps);
    CleanedIsCleaned(pieces, quotes, ws);
    NonEmptyDrops(Cleaned(pieces, quotes, ws));
  }

  lemma {:induction false} JoinIsCommaJoined(parts: seq<string>)
    ensures CommaJoined(Join(parts, ","), parts)
  {
    if |parts| > 1 {
      JoinIsCommaJoined(parts[1..]);
      var commas, fewer := seq(|parts| - 1, _ => ','), seq(|parts[1..]| - 1, _ => ',');
      assert commas[1..] == fewer;
      assert Join(parts, ",") == parts[0] + [commas[0]] + Join(parts[1..], ",");
    }
  }

  method CleanPiece(p: string, quotes: bool, ws: char -> bool) returns (item: string)
    ensures item == Clean(p, quotes, ws)
  {
    item := if quotes then Trim(p, Quote) else p;
    item := Trim(item, ws);
  }

  method KeepItems(pieces: seq<string>, quotes: bool, ws: char -> bool) returns (out: seq<string>)
    ensures out == Kept(pieces, quotes, ws)
  {
    ghost var all: seq<string> := [];
    out := [];
    for i := 0 to |pieces|
      invariant |all| == i && forall j :: 0 <= j < i ==> all[j] == Clean(pieces[j], quotes, ws)
      invariant out == NonEmpty(all)
    {
      var item := CleanPiece(pieces[i], quotes, ws);
      NonEmptyAppend(all, item);
      all := all + [item];
      if item != [] {
        out := out + [item];
      }
    }
    assert all == Cleaned(pieces, quotes, ws);
  }

  method ParseResponseTypes(s: string, ws: char -> bool) returns (out: seq<string>)
    ensures out == ResponseTypes(s, ws)
    ensures exists kept | StandsFor(s, {','}, true, ws, kept) :: out == if kept == [] then ["code"] else kept
  {
    KeptStandsFor(s, Comma, {','}, true, ws);
    out := KeepItems(Split(s, Comma), true, ws);
    if |out| == 0 {
      out := [CODE];
    }
  }

  method ParseGrantTypes(s: string, ws: char -> bool) returns (out: seq<string>)
    ensures out == GrantTypes(s, ws)
    ensures exists kept | StandsFor(s, {','}, false, ws, kept) :: out == if kept == [] then ["authorization_code"] else kept
  {
    KeptStandsFor(s, Comma, {','}, false, ws);
    out := KeepItems(Split(s, Comma), false, ws);
    if |out| == 0 {
      out := [AUTHORIZATION_CODE];
    }
  }

  method SplitLines(s: string, ws: char -> bool) returns (out: seq<string>)
    ensures out == Lines(s, ws)
    ensures StandsFor(s, {'\n'}, false, ws, out)
  {
    KeptStandsFor(s, NewLine, {'\n'}, false, ws);
    out := KeepItems(Split(s, NewLine), false, ws);
  }

  /** FieldsFunc: runs of characters that are not separators. */
  method SplitCommaSpace(s: string) returns (fields: seq<string>)
    ensures fields == CommaSpace(s)
    ensures RunsBetween(s, {',', ' ', '\t', '\n'}, fields)
  {
    FieldsAreRuns(s, CommaOrBlank, {',', ' ', '\t', '\n'});
    var pieces := Split(s, CommaOrBlank);
    fields := [];
    for i := 0 to |pieces|
      invariant fields == NonEmpty(pieces[..i])
    {
      NonEmptyAppend(pieces[..i], pieces[i]);
      assert pieces[..i + 1] == pieces[..i] + [pieces[i]];
      if pieces[i] != [] {
        fields := fields + [pieces[i]];
      }
    }
    assert pieces[..|pieces|] == pieces;
  }

  method JoinResponseTypes(items: seq<string>) returns (s: string)
    ensures s == Join(PrintedAll(items), ",")
    ensures exists parts: seq<string> | CommaJoined(s, parts) ::
      |parts| == |items| && forall i :: 0 <= i < |items| ==> PrintsAs(parts[i], items[i])
  {
    JoinIsCommaJoined(PrintedAll(items));
    var parts := new string[|items|];
    for i := 0 to |items|
      invariant forall j :: 0 <= j < i ==> parts[j] == Printed(items[j])
    {
      if ' ' in items[i] {
        parts[i] := "\"" + items[i] + "\"";
      } else {
        parts[i] := items[i];
      }
    }
    assert parts[..] == PrintedAll(items);
    return Join(parts[..], ",");
  }

  method JoinGrantTypes(items: seq<string>) returns (s: string)
    ensures s == Join(items, ",")
    ensures CommaJoined(s, items)
  {
    JoinIsCommaJoined(items);
    var parts := new string[|items|];
    for i := 0 to |items|
      invariant forall j :: 0 <= j < i ==> parts[j] == items[j]
    {
      parts[i] := items[i];
    }
    assert parts[..] == items;
    return Join(parts[..], ",");
  }

  // ---- Printing and parsing again ---------------------------------------------------------------------

  /** A non-empty item without separators and without blanks at its ends. */
  predicate Good(item: string, sep: char -> bool, ws: char -> bool) {
    item != [] && Free(item, sep) && EndsOff(item, ws)
  }

  predicate AllGood(items: seq<string>, sep: char -> bool, ws: char -> bool) {
    forall i :: 0 <= i < |items| ==> Good(items[i], sep, ws)
  }

  predicate NoQuoteEnds(items: seq<string>) {
    forall i :: 0 <= i < |items| ==> EndsOff(items[i], Quote)
  }

  lemma CleanIsGood(p: string, quotes: bool, sep: char -> bool, ws: char -> bool)
    requires Free(p, sep) && Clean(p, quotes, ws) != []
    ensures Good(Clean(p, quotes, ws), sep, ws)
  {
    Trims(p, Quote);
    Trims(if quotes then Trim(p, Quote) else p, ws);
  }

  lemma {:induction false} NonEmptyMembers(items: seq<string>)
    ensures |NonEmpty(items)| <= |items|
    ensures forall k :: 0 <= k < |NonEmpty(items)| ==> NonEmpty(items)[k] in items && NonEmpty(items)[k] != []
  {
    if items != [] {
      NonEmptyMembers(items[1..]);
    }
  }

  lemma KeptIsGood(pieces: seq<string>, quotes: bool, sep: char -> bool, ws: char -> bool)
    requires forall i :: 0 <= i < |pieces| ==> Free(pieces[i], sep)
    ensures AllGood(Kept(pieces, quotes, ws), sep, ws)
  {
    var all := Cleaned(pieces, quotes, ws);
    var kept := NonEmpty(all);
    NonEmptyMembers(all);
    forall k | 0 <= k < |kept|
      ensures Good(kept[k], sep, ws)
    {
      var i :| 0 <= i < |all| && all[i] == kept[k];
      CleanIsGood(pieces[i], quotes, sep, ws);
    }
  }

  /** As many items as there were: none was empty. */
  lemma {:induction false} NonEmptyAll(all: seq<string>, items: seq<string>)
    requires |items| == |all| && forall i :: 0 <= i < |items| ==> items[i] != []
    ensures NonEmpty(all) == items <==> all == items
  {
    if all != [] {
      NonEmptyAll(all[1..], items[1..]);
      NonEmptyMembers(all[1..]);
      assert items == [items[0]] + items[1..];
      assert all == [all[0]] + all[1..];
    }
  }

  /** As many items as pieces: each piece cleans to its item. */
  lemma KeptAll(pieces: seq<string>, quotes: bool, ws: char -> bool, items: seq<string>)
    requires |items| == |pieces| && forall i :: 0 <= i < |items| ==> items[i] != []
    ensures Kept(pieces, quotes, ws) == items <==> forall i :: 0 <= i < |items| ==> Clean(pieces[i], quotes, ws) == items[i]
  {
    NonEmptyAll(Cleaned(pieces, quotes, ws), items);
  }

  lemma CleanGood(item: string, ws: char -> bool)
    requires EndsOff(item, ws)
    ensures Clean(item, false, ws) == item
  {
    TrimNothing(item, ws);
  }

  /** Printing adds nothing that cleaning does not take away; what is lost are quotes at the ends. */
  lemma CleanPrinted(item: string, ws: char -> bool)
    requires EndsOff(item, ws)
    ensures Clean(Printed(item), true, ws) == item <==> EndsOff(item, Quote)
  {
    TrimWrapped(item, '\"', Quote);
    assert "\"" + item + "\"" == ['\"'] + item + ['\"'];
    assert Clean(Printed(item), true, ws) == Trim(Trim(item, Quote), ws);
    Trims(item, Quote);
    Trims(Trim(item, Quote), ws);
    if EndsOff(item, Quote) {
      TrimNothing(item, Quote);
      TrimNothing(item, ws);
    }
  }

  lemma PrintedFree(items: seq<string>)
    requires forall i :: 0 <= i < |items| ==> Free(items[i], Comma)
    ensures forall i :: 0 <= i < |items| ==> Free(PrintedAll(items)[i], Comma)
  {
  }

  lemma CodeIsGood(ws: char -> bool)
    requires Blanks(ws)
    ensures Good(CODE, Comma, ws) && Good(AUTHORIZATION_CODE, Comma, ws)
  {
  }

  lemma ParsedIsGood(s: string, quotes: bool, default: string, ws: char -> bool)
    requires Good(default, Comma, ws)
    ensures var out := OrDefault(Kept(Split(s, Comma), quotes, ws), default); out != [] && AllGood(out, Comma, ws)
  {
    PiecesAreFree(s, Comma);
    KeptIsGood(Split(s, Comma), quotes, Comma, ws);
  }

  /** parseResponseTypes undoes joinResponseTypes on exactly the non-empty lists of non-empty,
      comma-free items with no blank and no quote at either end; inner spaces are fine. */
  lemma ResponseTypesRoundTripIff(items: seq<string>, ws: char -> bool)
    requires Blanks(ws)
    ensures ResponseTypes(Join(PrintedAll(items), ","), ws) == items <==>
      items != [] && AllGood(items, Comma, ws) && NoQuoteEnds(items)
  {
    var printed := PrintedAll(items);
    CodeIsGood(ws);
    if items != [] && AllGood(items, Comma, ws) {
      PrintedFree(items);
      SplitJoin(printed, ',', Comma);
      KeptAll(printed, true, ws, items);
      forall i | 0 <= i < |items|
        ensures Clean(printed[i], true, ws) == items[i] <==> EndsOff(items[i], Quote)
      {
        CleanPrinted(items[i], ws);
      }
      KeptNotDefault(printed, true, ws, items, CODE);
    } else {
      ParsedIsGood(Join(printed, ","), true, CODE, ws);
    }
  }

  /** The default cannot stand in for a good list of items that were not kept. */
  lemma KeptNotDefault(pieces: seq<string>, quotes: bool, ws: char -> bool, items: seq<string>, default: string)
    requires items != [] && |items| == |pieces|
    requires Kept(pieces, quotes, ws) == [] && items == [default] ==> Clean(pieces[0], quotes, ws) != []
    ensures OrDefault(Kept(pieces, quotes, ws), default) == items <==> Kept(pieces, quotes, ws) == items
  {
  }

  lemma GrantTypesRoundTripIff(items: seq<string>, ws: char -> bool)
    requires Blanks(ws)
    ensures GrantTypes(Join(items, ","), ws) == items <==> items != [] && AllGood(items, Comma, ws)
  {
    CodeIsGood(ws);
    if items != [] && AllGood(items, Comma, ws) {
      SplitJoin(items, ',', Comma);
      KeptAll(items, false, ws, items);
      forall i | 0 <= i < |items|
        ensures Clean(items[i], false, ws) == items[i]
      {
        CleanGood(items[i], ws);
      }
    } else {
      ParsedIsGood(Join(items, ","), false, AUTHORIZATION_CODE, ws);
    }
  }

  /** Whatever was typed, printing the parsed grant types and parsing them again changes nothing. */
  lemma GrantTypesReparse(s: string, ws: char -> bool)
    requires Blanks(ws)
    ensures GrantTypes(Join(GrantTypes(s, ws), ","), ws) == GrantTypes(s, ws)
  {
    CodeIsGood(ws);
    ParsedIsGood(s, false, AUTHORIZATION_CODE, ws);
    GrantTypesRoundTripIff(GrantTypes(s, ws), ws);
  }

  /** For response types that is so exactly when no parsed item has a quote at an end. */
  lemma ResponseTypesReparseIff(s: string, ws: char -> bool)
    requires Blanks(ws)
    ensures ResponseTypes(Join(PrintedAll(ResponseTypes(s, ws)), ","), ws) == ResponseTypes(s, ws) <==>
      NoQuoteEnds(ResponseTypes(s, ws))
  {
    CodeIsGood(ws);
    ParsedIsGood(s, true, CODE, ws);
    ResponseTypesRoundTripIff(ResponseTypes(s, ws), ws);
  }

  // ---- Where response types do not survive, in terms of what was typed -----------------------------------

  predicate BlanksThenQuote(q: string, ws: char -> bool) {
    exists i :: 0 <= i < |q| && Quote(q[i]) && forall j :: 0 <= j < i ==> ws(q[j])
  }

  predicate QuoteThenBlanks(q: string, ws: char -> bool) {
    exists i :: 0 <= i < |q| && Quote(q[i]) && forall j :: i < j < |q| ==> ws(q[j])
  }

  /** Without its outer quotes, the piece begins with blanks and a quote or ends with a quote and blanks. */
  predicate HidesQuote(piece: string, ws: char -> bool) {
    var q := Trim(piece, Quote);
    BlanksThenQuote(q, ws) || QuoteThenBlanks(q, ws)
  }

  lemma {:induction false} FirstAfterBlanks(q: string, ws: char -> bool)
    requires !ws('\"')
    ensures var t := TrimLeft(q, ws); t != [] && Quote(t[0]) <==> BlanksThenQuote(q, ws)
  {
    if q != [] && ws(q[0]) {
      FirstAfterBlanks(q[1..], ws);
      if BlanksThenQuote(q[1..], ws) {
        var i :| 0 <= i < |q[1..]| && Quote(q[1..][i]) && forall j :: 0 <= j < i ==> ws(q[1..][j]);
        assert Quote(q[i + 1]) && forall j :: 0 < j < i + 1 ==> q[j] == q[1..][j - 1];
      }
      if BlanksThenQuote(q, ws) {
        var i :| 0 <= i < |q| && Quote(q[i]) && forall j :: 0 <= j < i ==> ws(q[j]);
        assert Quote(q[1..][i - 1]) && forall j :: 0 <= j < i - 1 ==> q[1..][j] == q[j + 1];
      }
    }
  }

  lemma {:induction false} LastBeforeBlanks(q: string, ws: char -> bool)
    requires !ws('\"')
    ensures var t := TrimRight(q, ws); t != [] && Quote(t[|t| - 1]) <==> QuoteThenBlanks(q, ws)
  {
    if q != [] {
      var n := |q| - 1;
      if ws(q[n]) {
        LastBeforeBlanks(q[..n], ws);
        if QuoteThenBlanks(q[..n], ws) {
          var i :| 0 <= i < n && Quote(q[..n][i]) && forall j :: i < j < n ==> ws(q[..n][j]);
          assert Quote(q[i]) && forall j :: i < j < n ==> q[j] == q[..n][j];
        }
        if QuoteThenBlanks(q, ws) {
          var i :| 0 <= i < |q| && Quote(q[i]) && forall j :: i < j < |q| ==> ws(q[j]);
          assert Quote(q[..n][i]) && forall j :: i < j < n ==> q[..n][j] == q[j];
        }
      }
    }
  }

  /** Leading blanks do not matter for the end. */
  lemma {:induction false} EndAfterTrimLeft(q: string, ws: char -> bool)
    requires !ws('\"')
    ensures QuoteThenBlanks(TrimLeft(q, ws), ws) <==> QuoteThenBlanks(q, ws)
  {
    if q != [] && ws(q[0]) {
      EndAfterTrimLeft(q[1..], ws);
      if QuoteThenBlanks(q[1..], ws) {
        var i :| 0 <= i < |q[1..]| && Quote(q[1..][i]) && forall j :: i < j < |q[1..]| ==> ws(q[1..][j]);
        assert Quote(q[i + 1]) && forall j :: i + 1 < j < |q| ==> q[j] == q[1..][j - 1];
      }
      if QuoteThenBlanks(q, ws) {
        var i :| 0 <= i < |q| && Quote(q[i]) && forall j :: i < j < |q| ==> ws(q[j]);
        assert Quote(q[1..][i - 1]) && forall j :: i - 1 < j < |q[1..]| ==> q[1..][j] == q[j + 1];
      }
    }
  }

  lemma CleanHidesQuote(piece: string, ws: char -> bool)
    requires !ws('\"')
    ensures EndsOff(Clean(piece, true, ws), Quote) <==> !HidesQuote(piece, ws)
  {
    var q := Trim(piece, Quote);
    var l := TrimLeft(q, ws);
    FirstAfterBlanks(q, ws);
    EndAfterTrimLeft(q, ws);
    LastBeforeBlanks(l, ws);
    TrimLeftSuffix(q, ws);
    TrimRightPrefix(l, ws);
    if l != [] { TrimRightKeeps(l, ws); }
  }

  lemma {:induction false} TrimRightKeeps(s: string, ws: char -> bool)
    requires s != [] && !ws(s[0])
    ensures TrimRight(s, ws) != [] && TrimRight(s, ws)[0] == s[0]
  {
    if ws(s[|s| - 1]) {
      TrimRightKeeps(s[..|s| - 1], ws);
    }
  }

  lemma {:induction false} QuoteEndsKept(items: seq<string>)
    ensures NoQuoteEnds(NonEmpty(items)) <==> NoQuoteEnds(items)
  {
    if items != [] {
      var head, rest := if items[0] == [] then [] else [items[0]], NonEmpty(items[1..]);
      QuoteEndsKept(items[1..]);
      QuoteEndsJoined(head, rest);
      QuoteEndsJoined([items[0]], items[1..]);
      assert items == [items[0]] + items[1..];
    }
  }

  lemma QuoteEndsJoined(a: seq<string>, b: seq<string>)
    ensures NoQuoteEnds(a + b) <==> NoQuoteEnds(a) && NoQuoteEnds(b)
  {
    if NoQuoteEnds(a + b) {
      assert forall i :: 0 <= i < |a| ==> (a + b)[i] == a[i];
      assert forall i :: 0 <= i < |b| ==> (a + b)[|a| + i] == b[i];
    }
  }

  predicate NoneHidesQuote(pieces: seq<string>, ws: char -> bool) {
    forall i :: 0 <= i < |pieces| ==> !HidesQuote(pieces[i], ws)
  }

  lemma CleanedQuotesIff(pieces: seq<string>, ws: char -> bool)
    requires !ws('\"')
    ensures NoQuoteEnds(Cleaned(pieces, true, ws)) <==> NoneHidesQuote(pieces, ws)
  {
    var all := Cleaned(pieces, true, ws);
    forall i | 0 <= i < |pieces|
      ensures EndsOff(all[i], Quote) <==> !HidesQuote(pieces[i], ws)
    {
      CleanHidesQuote(pieces[i], ws);
    }
    if NoQuoteEnds(all) {
      forall i | 0 <= i < |pieces| ensures !HidesQuote(pieces[i], ws) { assert EndsOff(all[i], Quote); }
    }
  }

  /** A parsed item has a quote at an end exactly if a piece of the text hides one behind blanks. */
  lemma ParsedQuotesIff(s: string, ws: char -> bool)
    requires Blanks(ws)
    ensures NoQuoteEnds(ResponseTypes(s, ws)) <==> NoneHidesQuote(Split(s, Comma), ws)
  {
    var all := Cleaned(Split(s, Comma), true, ws);
    CleanedQuotesIff(Split(s, Comma), ws);
    QuoteEndsKept(all);
    assert EndsOff(CODE, Quote);
  }

  /** Printing the parsed response types and parsing again gives the same list, if and only if no
      comma-separated piece of what was typed hides a quote behind blanks inside its outer quotes. */
  lemma TypedResponseTypesReparseIff(s: string, ws: char -> bool)
    requires Blanks(ws)
    ensures ResponseTypes(Join(PrintedAll(ResponseTypes(s, ws)), ","), ws) == ResponseTypes(s, ws) <==>
      NoneHidesQuote(Split(s, Comma), ws)
  {
    ResponseTypesReparseIff(s, ws);
    ParsedQuotesIff(s, ws);
  }

  lemma QuoteBehindSpaceCleans(ws: char -> bool)
    requires Blanks(ws)
    ensures Clean("a", true, ws) == "a" && Clean(" \"e", true, ws) == "\"e"
  {
    var second := " \"e";
    TrimNothing("a", Quote);
    TrimNothing("a", ws);
    TrimNothing(second, Quote);
    assert second[1..] == "\"e";
  }

  lemma QuoteBehindSpaceParses(ws: char -> bool)
    requires Blanks(ws)
    ensures ResponseTypes("a, \"e", ws) == ["a", "\"e"]
  {
    assert "a, \"e" == "a" + [','] + " \"e";
    SplitCut("a", ',', " \"e", Comma);
    SplitFree(" \"e", Comma);
    QuoteBehindSpaceCleans(ws);
    var pieces, items := ["a", " \"e"], ["a", "\"e"];
    assert Split("a, \"e", Comma) == pieces;
    forall i | 0 <= i < |items|
      ensures Clean(pieces[i], true, ws) == items[i]
    {
      if i == 0 { assert pieces[i] == "a"; } else { assert i == 1; }
    }
    KeptAll(pieces, true, ws, items);
  }

  /** A quote behind a comma and a space is not stripped, and so is lost when parsed again. */
  lemma QuoteBehindSpaceIsKept(ws: char -> bool)
    requires Blanks(ws)
    ensures var parsed := ["a", "\"e"];
      ResponseTypes("a, \"e", ws) == parsed && ResponseTypes(Join(PrintedAll(parsed), ","), ws) != parsed
  {
    var parsed := ["a", "\"e"];
    QuoteBehindSpaceParses(ws);
    ResponseTypesReparseIff("a, \"e", ws);
    assert !EndsOff(parsed[1], Quote);
  }

  lemma LinesReparse(s: string, ws: char -> bool)
    ensures Lines(Join(Lines(s, ws), "\n"), ws) == Lines(s, ws)
  {
    var items := Lines(s, ws);
    PiecesAreFree(s, NewLine);
    KeptIsGood(Split(s, NewLine), false, NewLine, ws);
    if items != [] {
      SplitJoin(items, '\n', NewLine);
      KeptAll(items, false, ws, items);
      forall i | 0 <= i < |items|
        ensures Clean(items[i], false, ws) == items[i]
      {
        CleanGood(items[i], ws);
      }
    } else {
      assert Split([], NewLine) == [[]];
      assert Cleaned([[]], false, ws) == [[]];
      assert NonEmpty([[]]) == NonEmpty([[]][1..]);
    }
  }

  // ---- The comma and space list -------------------------------------------------------------------------

  predicate Words(items: seq<string>) {
    forall i :: 0 <= i < |items| ==> items[i] != [] && Free(items[i], CommaOrBlank)
  }

  lemma NonEmptyCons(p: string, rest: seq<string>)
    ensures NonEmpty([p] + rest) == (if p == [] then [] else [p]) + NonEmpty(rest)
  {
    assert ([p] + rest)[1..] == rest;
  }

  lemma SplitCommaSpaceCut(p: string, rest: string)
    requires Free(p, CommaOrBlank)
    ensures Split(p + ", " + rest, CommaOrBlank) == [p] + ([[]] + Split(rest, CommaOrBlank))
  {
    SplitCut([], ' ', rest, CommaOrBlank);
    SplitCut(p, ',', [' '] + rest, CommaOrBlank);
    assert p + ", " + rest == p + [','] + ([' '] + rest);
    assert [] + [' '] + rest == [' '] + rest;
  }

  lemma CommaSpaceCons(p: string, rest: string)
    requires p != [] && Free(p, CommaOrBlank)
    ensures CommaSpace(p + ", " + rest) == [p] + CommaSpace(rest)
  {
    SplitCommaSpaceCut(p, rest);
    NonEmptyCons([], Split(rest, CommaOrBlank));
    NonEmptyCons(p, [[]] + Split(rest, CommaOrBlank));
  }

  lemma NoWords()
    ensures CommaSpace(Join([], ", ")) == []
  {
    var none: seq<string> := [];
    NonEmptyCons([], none);
    assert [[]] + none == [[]];
  }

  lemma {:induction false} WordsRoundTrip(items: seq<string>)
    requires Words(items)
    ensures CommaSpace(Join(items, ", ")) == items
  {
    if items == [] {
      NoWords();
    } else if |items| == 1 {
      SplitFree(items[0], CommaOrBlank);
      assert items == [items[0]];
      NonEmptyCons(items[0], []);
    } else {
      WordsRoundTrip(items[1..]);
      CommaSpaceCons(items[0], Join(items[1..], ", "));
      assert items == [items[0]] + items[1..];
    }
  }

  lemma CommaSpaceReparse(s: string)
    ensures CommaSpace(Join(CommaSpace(s), ", ")) == CommaSpace(s)
  {
    PiecesAreFree(s, CommaOrBlank);
    NonEmptyMembers(Split(s, CommaOrBlank));
    WordsRoundTrip(CommaSpace(s));
  }
}
