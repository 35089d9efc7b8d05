/** Which bracketed texts of a stored answer become sources. */
module CitationShapes {
  import opened Wrappers
  import opened Texts
  import opened Citations
  import opened CitationLaws

  predicate LetterOrDigit(c: char) {
    'a' <= c <= 'z' || 'A' <= c <= 'Z' || '0' <= c <= '9'
  }

  /** Letters, digits, dot, underscore, slash and hyphen; after the last dot, which is not the first character, an extension. */
  ghost predicate LooksLikePath(s: string) {
    && (forall j :: 0 <= j < |s| ==> LetterOrDigit(s[j]) || s[j] == '.' || s[j] == '_' || s[j] == '/' || s[j] == '-')
    && exists i :: 0 < i < |s| - 1 && s[i] == '.' && forall j :: i < j < |s| ==> LetterOrDigit(s[j])
  }

  lemma DocumentPathIff(s: string)
    ensures IsDocumentPath(s) <==> LooksLikePath(s)
  {
    assert forall c: char :: IsAlnum(c) <==> LetterOrDigit(c);
    assert forall c: char :: IsPathChar(c) <==> LetterOrDigit(c) || c == '.' || c == '_' || c == '/' || c == '-' by {
      assert "._/-" == ['.', '_', '/', '-'];
    }
  }

  /** A source is a piece of some marker that looks like a path, and every such piece is one. */
  lemma CitedIff(t: string, p: string)
    ensures p in Extracted(t) <==>
            LooksLikePath(p) && exists s :: s in Matches(t, 0) && p in PiecesOf(t, s)
  {
    hide IsDocumentPath, LooksLikePath, Matches, PiecesOf;
    DocumentPathIff(p);
    PieceOfSome(t, Matches(t, 0), |Matches(t, 0)|, p);
    var spans := Matches(t, 0);
    assert spans[..|spans|] == spans;
  }

  lemma {:induction false} PieceOfSome(t: string, spans: seq<Span>, n: nat, p: string)
    requires n <= |spans| && InOrder(spans, 0, |t|)
    ensures p in AllPieces(t, spans, n) <==> exists s :: s in spans[..n] && p in PiecesOf(t, s)
  {
    hide PiecesOf;
    if n > 0 {
      PieceOfSome(t, spans, n - 1, p);
      assert spans[..n] == spans[..n - 1] + [spans[n - 1]];
    }
  }

  /** Every bracket of the text is closed in it. */
  ghost predicate Closed(a: string) {
    forall i :: 0 <= i < |a| && a[i] == '[' ==> exists j :: i < j < |a| && a[j] == ']'
  }

  lemma CloseIsFirst(t: string, i: nat, j: nat)
    requires i <= j < |t| && t[j] == ']'
    ensures Close(t, i).Some? && Close(t, i).value <= j
    decreases j - i
  {
    if i < j && t[i] != ']' {
      CloseIsFirst(t, i + 1, j);
    }
  }

  lemma CloseSkips(t: string, i: nat, j: nat)
    requires i <= j < |t| && t[j] == ']' && forall k :: i <= k < j ==> t[k] != ']'
    ensures Close(t, i) == Some(j)
    decreases j - i
  {
    if i < j {
      CloseSkips(t, i + 1, j);
    }
  }

  lemma {:induction false} MatchesAreClosed(t: string, from: nat, s: Span)
    requires s in Matches(t, from)
    ensures OpensAt(t, s.start) && Close(t, s.start + 2) == Some(s.close)
    decreases |t| - from
  {
    hide InOrder, Close;
    if OpensAt(t, from) {
      var close := Close(t, from + 2).value;
      if s != Span(from, close) {
        MatchesAreClosed(t, close + 1, s);
      }
    } else {
      MatchesAreClosed(t, from + 1, s);
    }
  }

  /** A marker: an opening bracket, a first character that is neither space nor a bracket that closes, up to the next one. */
  ghost predicate IsMarker(t: string, s: Span) {
    && s.start + 2 <= s.close < |t| && t[s.start] == '[' && t[s.close] == ']' && !IsSpace(t[s.start + 1])
    && forall k :: s.start < k < s.close ==> t[k] != ']'
  }

  lemma {:induction false} CloseHasNoneBefore(t: string, i: nat)
    requires Close(t, i).Some?
    ensures forall k :: i <= k < Close(t, i).value ==> t[k] != ']'
    decreases |t| - i
  {
    if t[i] != ']' {
      CloseHasNoneBefore(t, i + 1);
    }
  }

  /** What is matched is a marker, and every marker lies in a matched one. */
  lemma MatchesAreMarkers(t: string, s: Span)
    ensures s in Matches(t, 0) ==> IsMarker(t, s)
    ensures IsMarker(t, s) ==> exists m :: m in Matches(t, 0) && m.start <= s.start <= m.close
  {
    hide Matches, IsSpace, InOrder;
    if s in Matches(t, 0) {
      MatchesAreClosed(t, 0, s);
      CloseHasNoneBefore(t, s.start + 2);
    }
    if IsMarker(t, s) {
      CloseSkips(t, s.start + 2, s.close);
      NoMarkerMissed(t, 0, s.start);
    }
  }

  lemma PathIsPlain(p: string)
    requires LooksLikePath(p)
    ensures |p| >= 3 && ']' !in p && ',' !in p && forall i :: 0 <= i < |p| ==> !IsSpace(p[i])
  {}

  lemma OnlyPiece(p: string)
    requires ',' !in p
    ensures SplitOn(p, COMMA) == [p]
  {
    forall i: nat ensures !At(p, COMMA, i) {
      if i < |p| {
        assert p[i..i + 1][0] == p[i];
      }
    }
  }

  lemma FirstPiece(p: string, rest: string)
    requires ',' !in p
    ensures SplitOn(p + COMMA + rest, COMMA) == [p] + SplitOn(rest, COMMA)
  {
    hide SplitOn;
    forall i: nat | i < |p| ensures !At(p + COMMA, COMMA, i) {
      assert (p + COMMA)[i..i + 1][0] == p[i];
    }
    SplitFirst(p, COMMA, rest);
  }

  /** The pieces of a group are its parts without outer space. */
  lemma GroupPieces(t: string, s: Span, p: string, pad: string, q: string)
    requires s.start < s.close <= |t| && t[s.start + 1..s.close] == p + COMMA + (pad + q)
    requires LooksLikePath(p) && LooksLikePath(q) && AllSpace(pad) && ',' !in pad
    ensures p in PiecesOf(t, s) && q in PiecesOf(t, s)
  {
    hide SplitOn, LooksLikePath, IsSpace, Trim;
    PathIsPlain(p);
    PathIsPlain(q);
    FirstPiece(p, pad + q);
    OnlyPiece(pad + q);
    TrimOfTrimmed(p);
    TrimCuts(pad, q, "");
    assert pad + q + "" == pad + q;
    assert TrimAll([p, pad + q])[0] == p && TrimAll([p, pad + q])[1] == q;
    assert [p] + [pad + q] == [p, pad + q];
  }

  lemma PathIsItsPiece(t: string, s: Span, p: string)
    requires s.start < s.close <= |t| && t[s.start + 1..s.close] == p && LooksLikePath(p)
    ensures p in PiecesOf(t, s)
  {
    hide SplitOn, LooksLikePath;
    PathIsPlain(p);
    OnlyPiece(p);
    TrimOfTrimmed(p);
    assert TrimAll([p])[0] == p;
  }

  /** Text in brackets is one marker, whatever follows and whatever closed brackets come before. */
  lemma BracketIsMatched(a: string, inner: string, b: string)
    requires Closed(a) && inner != "" && !IsSpace(inner[0]) && ']' !in inner
    ensures Span(|a|, |a| + 1 + |inner|) in Matches(a + "[" + inner + "]" + b, 0)
  {
    hide Matches, IsSpace;
    var t := a + "[" + inner + "]" + b;
    var i, close := |a|, |a| + 1 + |inner|;
    assert t[i] == '[' && t[close] == ']' && t[i + 1..close] == inner;
    assert forall k :: i + 1 <= k < close ==> t[k] == t[i + 1..close][k - i - 1] == inner[k - i - 1];
    CloseSkips(t, i + 2, close);
    assert OpensAt(t, i);
    NoMarkerMissed(t, 0, i);
    var s :| s in Matches(t, 0) && s.start <= i <= s.close;
    MatchesAreClosed(t, 0, s);
    if s.start < i {
      assert a[s.start] == t[s.start] == '[';
      var j :| s.start < j < |a| && a[j] == ']';
      assert t[j] == ']' && j >= s.start + 2;
      CloseIsFirst(t, s.start + 2, j);
      assert false;
    }
  }

  /** A path in brackets is a source, whatever follows and whatever closed brackets come before. */
  lemma PathMarkerIsCited(a: string, p: string, b: string)
    requires LooksLikePath(p) && Closed(a)
    ensures p in Extracted(a + "[" + p + "]" + b)
  {
    hide LooksLikePath, Matches, PiecesOf, IsSpace, Extracted;
    var t := a + "[" + p + "]" + b;
    PathIsPlain(p);
    BracketIsMatched(a, p, b);
    assert t[|a| + 1..|a| + 1 + |p|] == p;
    PathIsItsPiece(t, Span(|a|, |a| + 1 + |p|), p);
    CitedIff(t, p);
  }

  /** So are both paths of a comma-separated group, whatever space follows the comma. */
  lemma GroupIsCited(a: string, p: string, pad: string, q: string, b: string)
    requires LooksLikePath(p) && LooksLikePath(q) && Closed(a)
    requires AllSpace(pad) && ',' !in pad && ']' !in pad
    ensures var t := a + "[" + (p + COMMA + (pad + q)) + "]" + b; p in Extracted(t) && q in Extracted(t)
  {
    hide LooksLikePath, Matches, PiecesOf, IsSpace, Extracted;
    var inner := p + COMMA + (pad + q);
    var t := a + "[" + inner + "]" + b;
    PathIsPlain(p);
    PathIsPlain(q);
    assert inner[0] == p[0];
    BracketIsMatched(a, inner, b);
    assert t[|a| + 1..|a| + 1 + |inner|] == inner;
    GroupPieces(t, Span(|a|, |a| + 1 + |inner|), p, pad, q);
    CitedIff(t, p);
    CitedIff(t, q);
  }
}
