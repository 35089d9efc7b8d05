/** Searching, splitting and trimming of character sequences. */
module Texts {
  import opened Wrappers

  /** Does `p` occur in `s` at index `i`? */
  predicate At(s: string, p: string, i: nat) {
    i + |p| <= |s| && s[i..i + |p|] == p
  }

  /** The first index at or after `from` where `p` occurs. */
  function IndexOf(s: string, p: string, from: nat): (r: Option<nat>)
    ensures r.Some? ==> from <= r.value && At(s, p, r.value)
    ensures forall i: nat :: from <= i && At(s, p, i) ==> r.Some? && r.value <= i
    decreases |s| - from
  {
    if from + |p| > |s| then None
    else if At(s, p, from) then Some(from)
    else if from == |s| then None
    else IndexOf(s, p, from + 1)
  }

  /** The pieces between leftmost, non-overlapping occurrences of `p`. */
  function SplitOn(s: string, p: string): (parts: seq<string>)
    requires p != ""
    ensures |parts| >= 1
    decreases |s|
  {
    match IndexOf(s, p, 0)
    case None => [s]
    case Some(i) => [s[..i]] + SplitOn(s[i + |p|..], p)
  }

  /** The pieces put back together. */
  function Join(parts: seq<string>, p: string): string {
    if parts == [] then ""
    else if |parts| == 1 then parts[0]
    else parts[0] + p + Join(parts[1..], p)
  }

  /** Splitting loses nothing. */
  lemma {:induction false} JoinOfSplit(s: string, p: string)
    requires p != ""
    ensures Join(SplitOn(s, p), p) == s
    decreases |s|
  {
    match IndexOf(s, p, 0)
    case None =>
    case Some(i) =>
      JoinOfSplit(s[i + |p|..], p);
      assert SplitOn(s, p)[1..] == SplitOn(s[i + |p|..], p);
      assert s == s[..i] + s[i..i + |p|] + s[i + |p|..];
  }

  /** An occurrence that ends inside `a` is an occurrence of `a + b`, and the other way round. */
  lemma AtAppend(a: string, b: string, p: string, i: nat)
    requires i + |p| <= |a|
    ensures At(a + b, p, i) <==> At(a, p, i)
  {
    assert (a + b)[i..i + |p|] == a[i..i + |p|];
  }

  lemma IndexOfAppend(a: string, b: string, p: string)
    requires IndexOf(a, p, 0).Some?
    ensures IndexOf(a + b, p, 0) == IndexOf(a, p, 0)
  {
    var i := IndexOf(a, p, 0).value;
    AtAppend(a, b, p, i);
    var j := IndexOf(a + b, p, 0).value;
    AtAppend(a, b, p, j);
  }

  lemma SplitStep(s: string, p: string)
    requires p != ""
    ensures IndexOf(s, p, 0).None? ==> SplitOn(s, p) == [s]
    ensures IndexOf(s, p, 0).Some? ==>
              var i := IndexOf(s, p, 0).value; SplitOn(s, p) == [s[..i]] + SplitOn(s[i + |p|..], p)
  {}

  /** Only the last piece is still open: later text continues it and leaves the others. */
  lemma {:induction false} SplitAppend(a: string, b: string, p: string)
    requires p != ""
    ensures var parts := SplitOn(a, p);
            SplitOn(a + b, p) == parts[..|parts| - 1] + SplitOn(parts[|parts| - 1] + b, p)
    decreases |a|
  {
    hide SplitOn, IndexOf;
    SplitStep(a, p);
    SplitStep(a + b, p);
    match IndexOf(a, p, 0)
    case None =>
      assert [a][..0] == [];
    case Some(i) =>
      var rest := a[i + |p|..];
      IndexOfAppend(a, b, p);
      SplitAppend(rest, b, p);
      assert (a + b)[i + |p|..] == rest + b && (a + b)[..i] == a[..i];
      var parts, tail := SplitOn(a, p), SplitOn(rest, p);
      assert parts[..|parts| - 1] == [a[..i]] + tail[..|tail| - 1];
  }

  /** A separator right after a piece that holds none, not even across its end, closes it. */
  lemma SplitFirst(piece: string, p: string, rest: string)
    requires p != "" && forall i: nat :: i < |piece| ==> !At(piece + p, p, i)
    ensures SplitOn(piece + p + rest, p) == [piece] + SplitOn(rest, p)
  {
    var s := piece + p + rest;
    assert At(s, p, |piece|);
    forall i: nat | i < |piece| ensures !At(s, p, i) {
      AtAppend(piece + p, rest, p, i);
    }
    assert IndexOf(s, p, 0) == Some(|piece|);
    assert s[..|piece|] == piece && s[|piece| + |p|..] == rest;
  }

  const LINE := "\n"

  /** A text without line feeds is one line. */
  lemma NoBreak(s: string, rest: string)
    requires '\n' !in s
    ensures SplitOn(s + LINE + rest, LINE) == [s] + SplitOn(rest, LINE)
    ensures SplitOn(s, LINE) == [s]
  {
    forall i: nat | i < |s| ensures !At(s + LINE, LINE, i) && !At(s, LINE, i) {
      assert (s + LINE)[i..i + 1][0] == s[i] && s[i..i + 1][0] == s[i];
    }
    SplitFirst(s, LINE, rest);
  }

  predicate StartsWith(s: string, p: string) {
    |p| <= |s| && s[..|p|] == p
  }

  /** White space and line terminators as the JavaScript standard lists them. */
  predicate IsSpace(c: char) {
    c in "\t\n\U{0B}\U{0C}\r \U{A0}\U{1680}\U{2028}\U{2029}\U{202F}\U{205F}\U{3000}\U{FEFF}"
    || '\U{2000}' <= c <= '\U{200A}'
  }

  function TrimStart(s: string): (r: string)
    ensures r == "" || !IsSpace(r[0])
  {
    if s != "" && IsSpace(s[0]) then TrimStart(s[1..]) else s
  }

  function TrimEnd(s: string): (r: string)
    ensures r == "" || !IsSpace(r[|r| - 1])
    ensures r <= s
  {
    if s != "" && IsSpace(s[|s| - 1]) then TrimEnd(s[..|s| - 1]) else s
  }

  function Trim(s: string): (r: string)
    ensures IsTrimmed(r)
  {
    TrimEnd(TrimStart(s))
  }

  predicate IsTrimmed(s: string) {
    s == "" || (!IsSpace(s[0]) && !IsSpace(s[|s| - 1]))
  }

  lemma TrimOfTrimmed(s: string)
    requires IsTrimmed(s)
    ensures Trim(s) == s && Trim([' '] + s) == s
  {
    assert IsSpace(' ');
    assert ([' '] + s)[1..] == s;
  }

  /** Trailing space of the end counts only when there is nothing but space. */
  lemma {:induction false} TrimEndAppend(a: string, b: string)
    ensures TrimEnd(a + b) == if TrimEnd(b) == "" then TrimEnd(a) else a + TrimEnd(b)
  {
    hide IsSpace;
    if b == "" {
      assert a + b == a;
    } else if IsSpace(b[|b| - 1]) {
      TrimEndAppend(a, b[..|b| - 1]);
      assert (a + b)[..|a + b| - 1] == a + b[..|b| - 1];
    }
  }

  /** The code points of white space and line terminators. */
  lemma SpaceIff(c: char)
    ensures IsSpace(c) <==>
            var n := c as int;
            || 0x09 <= n <= 0x0D || n == 0x20 || n == 0xA0 || n == 0x1680 || 0x2000 <= n <= 0x200A
            || n == 0x2028 || n == 0x2029 || n == 0x202F || n == 0x205F || n == 0x3000 || n == 0xFEFF
  {
    assert "\t\n\U{0B}\U{0C}\r \U{A0}\U{1680}\U{2028}\U{2029}\U{202F}\U{205F}\U{3000}\U{FEFF}"
        == ['\t', '\n', '\U{0B}', '\U{0C}', '\r', ' ', '\U{A0}', '\U{1680}', '\U{2028}', '\U{2029}', '\U{202F}',
            '\U{205F}', '\U{3000}', '\U{FEFF}'];
  }

  ghost predicate AllSpace(s: string) {
    forall i :: 0 <= i < |s| ==> IsSpace(s[i])
  }

  lemma {:induction false} TrimStartCuts(a: string, s: string)
    requires AllSpace(a) && (s == "" || !IsSpace(s[0]))
    ensures TrimStart(a + s) == s
  {
    hide IsSpace;
    if a == "" {
      assert a + s == s;
    } else {
      TrimStartCuts(a[1..], s);
      assert (a + s)[1..] == a[1..] + s;
    }
  }

  lemma {:induction false} SpaceVanishes(b: string)
    requires AllSpace(b)
    ensures TrimEnd(b) == ""
  {
    hide IsSpace;
    if b != "" {
      SpaceVanishes(b[..|b| - 1]);
    }
  }

  /** Trimming removes exactly the outer space. */
  lemma TrimCuts(a: string, s: string, b: string)
    requires AllSpace(a) && AllSpace(b) && IsTrimmed(s) && s != ""
    ensures Trim(a + s + b) == s
  {
    hide IsSpace, TrimStart, TrimEnd;
    assert a + s + b == a + (s + b) && (s + b)[0] == s[0];
    TrimStartCuts(a, s + b);
    SpaceVanishes(b);
    TrimEndAppend(s, b);
    assert TrimEnd(s) == s by { TrimEndOfTrimmed(s); }
  }

  lemma TrimEndOfTrimmed(s: string)
    requires IsTrimmed(s)
    ensures TrimEnd(s) == s
  {}
}
