/** What the follow-up marker never shows while streaming, and what reload makes of it. */
module FollowupLaws {
  import opened Wrappers
  import opened Texts
  import opened FollowupBlock

  /** The displayed text of every streamed prefix stays before the marker line. */
  ghost predicate NeverShows(text: string, m: nat)
    requires m <= |text|
  {
    forall k: nat :: k <= |text| ==> StripFollowupBlock(text[..k]) <= text[..m]
  }

  lemma {:induction false} LineEndOfPrefix(s: string, k: nat, i: nat)
    requires i <= k <= |s|
    ensures LineEnd(s[..k], i) == if LineEnd(s, i) <= k then LineEnd(s, i) else k
    decreases k - i
  {
    if i < k && !IsTerminator(s[i]) {
      LineEndOfPrefix(s, k, i + 1);
    }
  }

  /** A line that ends within the prefix is the same line there. */
  lemma MarkerOfPrefix(s: string, k: nat, i: nat)
    requires i <= k <= |s| && LineEnd(s, i) <= k
    ensures MarkerAt(s[..k], i) <==> MarkerAt(s, i)
  {
    hide IsMarkerLine;
    LineEndOfPrefix(s, k, i);
    assert s[..k][i..LineEnd(s, i)] == s[i..LineEnd(s, i)];
  }

  lemma LastBreakIs(s: string, q: nat)
    requires q < |s| && s[q] == '\n' && forall j :: q < j < |s| ==> s[j] != '\n'
    ensures LastBreak(s) == Some(q)
  {
    assert s[q] in s;
    var r := LastBreak(s).value;
    assert forall j :: r < j < |s| ==> s[j] == s[r + 1..][j - r - 1];
  }

  /** With a marker line in sight, nothing from it on is shown. */
  lemma CutAtMarker(p: string, m: nat)
    requires m <= |p| && exists j: nat :: j <= m && MarkerAt(p, j)
    ensures StripFollowupBlock(p) <= p[..m]
  {
    hide MarkerAt, FindMarker, BodyBefore;
    FindMarkerFinds(p, 0);
    var found := FindMarker(p, 0).value;
    assert p[..found] <= p[..m];
  }

  lemma NoMarkerWithin(p: string, m: nat)
    requires m <= |p| && LineEnd(p, m) == |p| && forall j: nat :: j <= m ==> !MarkerAt(p, j)
    ensures HasNoMarker(p)
  {
    hide MarkerAt;
    NoStartInside(p, m);
    NoMarkerAfterEnd(p);
  }

  lemma HiddenAfterNewline(text: string, m: nat, k: nat)
    requires IsFirstMarker(text, m) && m > 0 && text[m - 1] == '\n' && k <= |text|
    ensures StripFollowupBlock(text[..k]) <= text[..m]
  {
    hide IsMarkerLine, IsPartialTail, FindMarker, BodyBefore, CutTail;
    var p := text[..k];
    var e := LineEnd(text, m);
    if k <= m {
      assert p <= text[..m];
    } else if k >= e {
      MarkerOfPrefix(text, k, m);
      CutAtMarker(p, m);
      assert p[..m] == text[..m];
    } else if exists j: nat :: j <= m && MarkerAt(p, j) {
      CutAtMarker(p, m);
      assert p[..m] == text[..m];
    } else {
      LineEndOfPrefix(text, k, m);
      NoMarkerWithin(p, m);
      FindMarkerFinds(p, 0);
      PartialIsCut(text, m, k);
      assert p[..m - 1] <= text[..m];
    }
  }

  lemma PartialIsCut(text: string, m: nat, k: nat)
    requires 0 < m <= |text| && m < k < LineEnd(text, m) && text[m - 1] == '\n' && MarkerAt(text, m)
    ensures CutTail(text[..k], IsPartialTail) == text[..k][..m - 1]
  {
    hide Decoration, DropWord;
    var p, line := text[..k], text[m..LineEnd(text, m)];
    LastBreakIs(p, m - 1);
    assert p[m..] == line[..k - m];
    PartialTailMonotone(line[..k - m], line);
  }

  /** A prefix, one letter into the marker, that shows that letter. */
  lemma ShownOtherwise(text: string, m: nat) returns (k: nat)
    requires IsFirstMarker(text, m) && !(m > 0 && text[m - 1] == '\n')
    ensures k <= |text| && !(StripFollowupBlock(text[..k]) <= text[..m])
  {
    hide IsMarkerLine, IsPartialTail, FindMarker, TrimEnd;
    var e := LineEnd(text, m);
    var c := FirstLetter(text[m..e]);
    k := m + c + 1;
    var p := text[..k];
    assert p[m..] == text[m..e][..c + 1];
    LineEndOfPrefix(text, k, m);
    assert p[m..LineEnd(p, m)] == p[m..];
    forall j: nat | j <= m ensures !MarkerAt(p, j) {
      if j < m {
        EarlierLineEnds(text, j, m);
        MarkerOfPrefix(text, k, j);
      }
    }
    NoMarkerWithin(p, m);
    FindMarkerFinds(p, 0);
    NothingIsCut(p, m);
    LetterIsNotSpace(p[k - 1]);
    assert TrimEnd(p) == p by { TrimEndKeeps(p); }
  }

  lemma EarlierLineEnds(s: string, j: nat, m: nat)
    requires j < m <= |s| && IsTerminator(s[m - 1])
    ensures LineEnd(s, j) < m
  {}

  lemma TrimEndKeeps(s: string)
    requires s != "" && !IsSpace(s[|s| - 1])
    ensures TrimEnd(s) == s
  {}

  lemma LetterIsNotSpace(c: char)
    requires Upper(c) == 'S'
    ensures !IsSpace(c)
  {}

  /** Where the marker word starts in a marker line; the line cut after that letter is no marker. */
  lemma FirstLetter(line: string) returns (c: nat)
    requires IsMarkerLine(line)
    ensures c < |line| && Upper(line[c]) == 'S' && !IsMarkerLine(line[..c + 1])
  {
    hide Decoration;
    var t := Decoration(line);
    DecorationMonotone(line, line);
    c := |line| - |t|;
    DecorationIsSuffix(line);
    assert WORD[0] == 'S';
    DecorationMonotone(line[..c + 1], line);
  }

  lemma {:induction false} DropIsSuffix(cs: string, s: string)
    ensures Drop(cs, s) == s[|s| - |Drop(cs, s)|..]
  {
    if s != "" && s[0] in cs {
      DropIsSuffix(cs, s[1..]);
    }
  }

  lemma DecorationIsSuffix(s: string)
    ensures |Decoration(s)| <= |s| && Decoration(s) == s[|s| - |Decoration(s)|..]
  {
    hide Drop;
    var a := Drop(BLANKS, s);
    var b := Drop(RULES, a);
    DropIsSuffix(BLANKS, s);
    DropIsSuffix(RULES, a);
    DropIsSuffix(BLANKS, b);
  }

  /** Without a line feed right before the last line, no tail is cut. */
  lemma NothingIsCut(p: string, m: nat)
    requires m <= |p| && LineEnd(p, m) == |p|
    requires m > 0 ==> IsTerminator(p[m - 1]) && p[m - 1] != '\n'
    ensures CutTail(p, IsPartialTail) == p
  {
    hide IsPartialTail;
    match LastBreak(p)
    case None =>
    case Some(q) =>
      assert q < m;
      if q + 1 < m {
        assert p[q + 1..][m - 1 - (q + 1)] == p[m - 1];
        PartialTailHasNoTerminator(p[q + 1..], p[m - 1]);
      }
  }

  /** The marker never shows, for any cut of the answer, exactly when a line feed comes right before its line. */
  lemma MarkerNeverShowsIff(text: string, m: nat)
    requires IsFirstMarker(text, m)
    ensures NeverShows(text, m) <==> m > 0 && text[m - 1] == '\n'
  {
    hide StripFollowupBlock, MarkerAt;
    assert m <= |text| by { NoMarkerAfterEnd(text); }
    if m > 0 && text[m - 1] == '\n' {
      forall k: nat | k <= |text| ensures StripFollowupBlock(text[..k]) <= text[..m] {
        HiddenAfterNewline(text, m, k);
      }
    } else {
      var k := ShownOtherwise(text, m);
    }
  }
}
