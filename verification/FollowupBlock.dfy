/**
 * The follow-up block at the end of an answer: hidden while the answer streams in,
 * split off again when a stored answer is reloaded.
 * The three patterns are scanners over runs of blanks, rule characters and marker letters.
 */
module FollowupBlock {
  import opened Wrappers
  import opened Texts

  const BLANKS := " \t"
  const RULES := "-*_"
  const WORD := "SUIVI"

  /** Characters that start a new line for the line anchors. */
  predicate IsTerminator(c: char) {
    c == '\n' || c == '\r' || c == '\U{2028}' || c == '\U{2029}'
  }

  function Upper(c: char): char {
    if 'a' <= c <= 'z' then c - 32 as char else c
  }

  /** Drop the leading run of characters from `cs`. */
  function Drop(cs: string, s: string): (r: string)
    ensures |r| <= |s|
  {
    if s != "" && s[0] in cs then Drop(cs, s[1..]) else s
  }

  /** Drop the longest run that spells a beginning of `w`, ignoring case. */
  function DropWord(w: string, s: string): (r: string)
    ensures |r| <= |s| <= |r| + |w|
  {
    if s != "" && w != "" && Upper(s[0]) == w[0] then DropWord(w[1..], s[1..]) else s
  }

  lemma {:induction false} DropRun(cs: string, run: string, rest: string)
    requires (forall i :: 0 <= i < |run| ==> run[i] in cs) && (rest == "" || rest[0] !in cs)
    ensures Drop(cs, run + rest) == rest
  {
    if run == "" {
      assert run + rest == rest;
    } else {
      assert (run + rest)[1..] == run[1..] + rest;
      DropRun(cs, run[1..], rest);
    }
  }

  /** Blanks, rule characters, blanks. */
  function Decoration(s: string): string {
    Drop(BLANKS, Drop(RULES, Drop(BLANKS, s)))
  }

  /** A whole line that is the marker word inside optional decoration. */
  predicate IsMarkerLine(line: string) {
    var t := Decoration(line);
    var rest := DropWord(WORD, t);
    |t| - |rest| == |WORD| && Decoration(rest) == ""
  }

  /** A last line that may still grow into the marker. */
  predicate IsPartialTail(tail: string) {
    Decoration(DropWord(WORD, Decoration(tail))) == ""
  }

  /** A line of at least three rule characters. */
  predicate IsRuleLine(line: string) {
    var t := Drop(BLANKS, line);
    var rest := Drop(RULES, t);
    |t| - |rest| >= 3 && Drop(BLANKS, rest) == ""
  }

  /******* Lines *******/

  function LineEnd(s: string, i: nat): (e: nat)
    requires i <= |s|
    ensures i <= e <= |s| && (e < |s| ==> IsTerminator(s[e]))
    ensures forall j :: i <= j < e ==> !IsTerminator(s[j])
    decreases |s| - i
  {
    if i == |s| || IsTerminator(s[i]) then i else LineEnd(s, i + 1)
  }

  /** A line starts at `i` and is the marker. */
  predicate MarkerAt(s: string, i: nat) {
    && i <= |s|
    && (i == 0 || IsTerminator(s[i - 1]))
    && IsMarkerLine(s[i..LineEnd(s, i)])
  }

  /** No line starts inside a line. */
  lemma NoStartInside(s: string, i: nat)
    requires i <= |s|
    ensures forall j: nat :: i < j <= LineEnd(s, i) ==> !MarkerAt(s, j)
  {
    hide IsMarkerLine;
    forall j: nat | i < j <= LineEnd(s, i) ensures !MarkerAt(s, j) {
      assert !IsTerminator(s[j - 1]);
    }
  }

  lemma NoMarkerAfterEnd(s: string)
    ensures forall j: nat :: |s| < j ==> !MarkerAt(s, j)
  {}

  /** The first marker line at or after the line start `i`. */
  function FindMarker(s: string, i: nat): (r: Option<nat>)
    requires i <= |s| && (i == 0 || IsTerminator(s[i - 1]))
    ensures r.Some? ==> i <= r.value <= |s|
    decreases |s| - i
  {
    var e := LineEnd(s, i);
    if IsMarkerLine(s[i..e]) then Some(i)
    else if e == |s| then None
    else FindMarker(s, e + 1)
  }

  /** `m` is where the first marker line starts. */
  ghost predicate IsFirstMarker(s: string, m: nat) {
    MarkerAt(s, m) && forall j: nat :: j < m ==> !MarkerAt(s, j)
  }

  ghost predicate HasNoMarker(s: string) {
    forall j: nat :: !MarkerAt(s, j)
  }

  lemma {:induction false} FindMarkerFinds(s: string, i: nat)
    requires i <= |s| && (i == 0 || IsTerminator(s[i - 1]))
    requires forall j: nat :: j < i ==> !MarkerAt(s, j)
    ensures FindMarker(s, i).Some? ==> IsFirstMarker(s, FindMarker(s, i).value)
    ensures FindMarker(s, i).None? ==> HasNoMarker(s)
    decreases |s| - i
  {
    hide IsMarkerLine, MarkerAt;
    var e := LineEnd(s, i);
    NoStartInside(s, i);
    NoMarkerAfterEnd(s);
    assert MarkerAt(s, i) <==> IsMarkerLine(s[i..e]) by { MarkerHere(s, i); }
    if !MarkerAt(s, i) && e < |s| {
      FindMarkerFinds(s, e + 1);
    }
  }

  lemma MarkerHere(s: string, i: nat)
    requires i <= |s| && (i == 0 || IsTerminator(s[i - 1]))
    ensures MarkerAt(s, i) <==> IsMarkerLine(s[i..LineEnd(s, i)])
  {}

  /** The search is exact. */
  lemma FirstMarkerIsFound(s: string, m: nat)
    requires IsFirstMarker(s, m)
    ensures FindMarker(s, 0) == Some(m)
  {
    hide MarkerAt;
    FindMarkerFinds(s, 0);
  }

  function LastBreak(s: string): (r: Option<nat>)
    ensures r.Some? ==> r.value < |s| && s[r.value] == '\n' && '\n' !in s[r.value + 1..]
    ensures r.None? ==> '\n' !in s
  {
    if s == "" then None
    else if s[|s| - 1] == '\n' then Some(|s| - 1)
    else
      var r := LastBreak(s[..|s| - 1]);
      assert s == s[..|s| - 1] + [s[|s| - 1]];
      assert r.Some? ==> s[r.value + 1..] == s[..|s| - 1][r.value + 1..] + [s[|s| - 1]];
      r
  }

  /** Remove the last line, with its line break, when it has a given shape. */
  function CutTail(s: string, shape: string -> bool): (r: string)
    ensures r <= s
  {
    match LastBreak(s)
    case None => s
    case Some(q) => if shape(s[q + 1..]) then s[..q] else s
  }

  /** The answer before the marker line: no trailing space, no rule above the marker. */
  function BodyBefore(s: string, m: nat): (r: string)
    requires m <= |s|
    ensures r <= s[..m]
  {
    TrimEnd(CutTail(TrimEnd(s[..m]), IsRuleLine))
  }

  /** What is shown of a text that is still streaming, or that has just ended. */
  function StripFollowupBlock(s: string): (r: string)
    ensures r <= s
  {
    match FindMarker(s, 0)
    case Some(m) => BodyBefore(s, m)
    case None => TrimEnd(CutTail(s, IsPartialTail))
  }

  /******* Prefixes of a marker line look like partial tails *******/

  function Max0(x: int): nat {
    if x < 0 then 0 else x
  }

  /** Scanning a prefix drops as much, as far as the prefix goes. */
  lemma {:induction false} DropMonotone(cs: string, a: string, b: string)
    requires a <= b
    ensures Drop(cs, a) <= Drop(cs, b)
    ensures |Drop(cs, a)| == Max0(|a| - (|b| - |Drop(cs, b)|))
  {
    if a != "" && a[0] in cs {
      DropMonotone(cs, a[1..], b[1..]);
    }
  }

  lemma {:induction false} DropWordMonotone(w: string, a: string, b: string)
    requires a <= b
    ensures DropWord(w, a) <= DropWord(w, b)
  {
    if a != "" && w != "" && Upper(a[0]) == w[0] {
      DropWordMonotone(w[1..], a[1..], b[1..]);
    }
  }

  lemma DecorationMonotone(a: string, b: string)
    requires a <= b
    ensures |Decoration(b)| <= |b| && Decoration(a) <= Decoration(b)
    ensures |Decoration(a)| == Max0(|a| - (|b| - |Decoration(b)|))
  {
    DropMonotone(BLANKS, a, b);
    DropMonotone(RULES, Drop(BLANKS, a), Drop(BLANKS, b));
    DropMonotone(BLANKS, Drop(RULES, Drop(BLANKS, a)), Drop(RULES, Drop(BLANKS, b)));
  }

  /** Anything cut from a line that reads as a marker still reads as a partial one. */
  lemma PartialTailMonotone(a: string, b: string)
    requires a <= b && IsPartialTail(b)
    ensures IsPartialTail(a)
  {
    hide Decoration;
    DecorationMonotone(a, b);
    DropWordMonotone(WORD, Decoration(a), Decoration(b));
    DecorationMonotone(DropWord(WORD, Decoration(a)), DropWord(WORD, Decoration(b)));
  }

  /** Other characters survive every scanner, so no shape holds a line with them. */
  lemma {:induction false} DropKeeps(cs: string, s: string, c: char)
    requires c !in cs && c in s
    ensures c in Drop(cs, s)
  {
    if s[0] in cs {
      assert s == [s[0]] + s[1..];
      DropKeeps(cs, s[1..], c);
    }
  }

  lemma {:induction false} DropWordKeeps(w: string, s: string, c: char)
    requires Upper(c) !in w && c in s
    ensures c in DropWord(w, s)
  {
    if w != "" && Upper(s[0]) == w[0] {
      assert s == [s[0]] + s[1..];
      DropWordKeeps(w[1..], s[1..], c);
    }
  }

  lemma DecorationKeeps(s: string, c: char)
    requires c !in BLANKS && c !in RULES && c in s
    ensures c in Decoration(s)
  {
    DropKeeps(BLANKS, s, c);
    DropKeeps(RULES, Drop(BLANKS, s), c);
    DropKeeps(BLANKS, Drop(RULES, Drop(BLANKS, s)), c);
  }

  lemma PartialTailHasNoTerminator(s: string, c: char)
    requires IsTerminator(c) && c in s
    ensures !IsPartialTail(s)
  {
    hide Decoration;
    DecorationKeeps(s, c);
    DropWordKeeps(WORD, Decoration(s), c);
    DecorationKeeps(DropWord(WORD, Decoration(s)), c);
  }
}
