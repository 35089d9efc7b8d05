/** What the citation split keeps and how its numbers relate to the sources. */
module CitationLaws {
  import opened Citations

  /** Every place where a marker opens lies in a matched marker. */
  lemma {:induction false} NoMarkerMissed(t: string, from: nat, i: nat)
    requires from <= i && OpensAt(t, i)
    ensures exists s :: s in Matches(t, from) && s.start <= i <= s.close
    decreases |t| - from
  {
    hide InOrder, Close;
    if OpensAt(t, from) {
      var close := Close(t, from + 2).value;
      var first := Span(from, close);
      assert first in Matches(t, from);
      if close < i {
        NoMarkerMissed(t, close + 1, i);
        var s :| s in Matches(t, close + 1) && s.start <= i <= s.close;
        assert s in Matches(t, from);
      }
    } else {
      NoMarkerMissed(t, from + 1, i);
    }
  }

  /******* What is shown *******/

  predicate Converted(t: string, sources: seq<string>, s: Span)
    requires s.start < s.close <= |t|
  {
    NumbersOf(PiecesOf(t, s), sources) != []
  }

  /** Position `j` lies in a marker that becomes superscripts. */
  predicate Covered(t: string, sources: seq<string>, spans: seq<Span>, j: nat)
    requires InOrder(spans, 0, |t|)
  {
    exists i :: 0 <= i < |spans| && spans[i].start <= j <= spans[i].close && Converted(t, sources, spans[i])
  }

  /** A shown position: a character of the text or a superscript number. */
  datatype Item = Char(c: char) | Mark(number: nat)

  function Chars(s: string): (r: seq<Item>)
    ensures |r| == |s| && forall i :: 0 <= i < |r| ==> r[i] == Char(s[i])
  {
    if s == "" then [] else Chars(s[..|s| - 1]) + [Char(s[|s| - 1])]
  }

  function Marks(numbers: seq<nat>): (r: seq<Item>)
    ensures |r| == |numbers| && forall i :: 0 <= i < |r| ==> r[i] == Mark(numbers[i])
  {
    if numbers == [] then [] else Marks(numbers[..|numbers| - 1]) + [Mark(numbers[|numbers| - 1])]
  }

  /** The numbers of the marker that opens at `j`, among the first `n`. */
  function NumbersAt(t: string, sources: seq<string>, spans: seq<Span>, j: nat, n: nat): seq<nat>
    requires n <= |spans| && InOrder(spans, 0, |t|)
  {
    if n == 0 then []
    else if spans[n - 1].start == j then NumbersOf(PiecesOf(t, spans[n - 1]), sources)
    else NumbersAt(t, sources, spans, j, n - 1)
  }

  /** The reference, position by position: where a converted marker opens, its numbers; inside one, nothing; else the character. */
  function Rendered(t: string, sources: seq<string>, spans: seq<Span>, k: nat): seq<Item>
    requires k <= |t| && InOrder(spans, 0, |t|)
  {
    if k == 0 then []
    else
      Rendered(t, sources, spans, k - 1) +
      if Covered(t, sources, spans, k - 1) then Marks(NumbersAt(t, sources, spans, k - 1, |spans|))
      else [Char(t[k - 1])]
  }

  function ItemsOf(n: Node): seq<Item> {
    match n
    case Text(value) => Chars(value)
    case Sup(number) => [Mark(number)]
  }

  /** What a reader sees of a list of nodes. */
  function Shown(nodes: seq<Node>): seq<Item> {
    if nodes == [] then [] else Shown(nodes[..|nodes| - 1]) + ItemsOf(nodes[|nodes| - 1])
  }

  lemma {:induction false} ShownAppend(a: seq<Node>, b: seq<Node>)
    ensures Shown(a + b) == Shown(a) + Shown(b)
  {
    hide ItemsOf;
    if b == [] {
      assert a + b == a;
    } else {
      ShownAppend(a, b[..|b| - 1]);
      assert (a + b)[..|a + b| - 1] == a + b[..|b| - 1];
    }
  }

  lemma {:induction false} SupsShowMarks(numbers: seq<nat>)
    ensures Shown(Sups(numbers)) == Marks(numbers)
  {
    if numbers != [] {
      var n := |numbers| - 1;
      SupsShowMarks(numbers[..n]);
      assert Sups(numbers)[..n] == Sups(numbers[..n]);
    }
  }

  lemma TextNodeShowsText(s: string)
    ensures Shown(TextNode(s)) == Chars(s)
  {
    assert s != "" ==> TextNode(s)[..0] == [];
  }

  /** A gap and its superscripts show the gap's text, then the numbers. */
  lemma PushedNodesShow(nodes: seq<Node>, gap: string, numbers: seq<nat>)
    ensures Shown(nodes + TextNode(gap) + Sups(numbers)) == Shown(nodes) + Chars(gap) + Marks(numbers)
  {
    hide Shown, TextNode, Sups, Chars, Marks;
    TextNodeShowsText(gap);
    SupsShowMarks(numbers);
    ShownAppend(nodes, TextNode(gap));
    ShownAppend(nodes + TextNode(gap), Sups(numbers));
  }

  lemma {:induction false} RenderedKeeps(t: string, sources: seq<string>, spans: seq<Span>, a: nat, b: nat)
    requires a <= b <= |t| && InOrder(spans, 0, |t|)
    requires forall j: nat :: a <= j < b ==> !Covered(t, sources, spans, j)
    ensures Rendered(t, sources, spans, b) == Rendered(t, sources, spans, a) + Chars(t[a..b])
    decreases b - a
  {
    hide Covered, NumbersAt;
    if a < b {
      RenderedKeeps(t, sources, spans, a, b - 1);
      assert t[a..b][..b - 1 - a] == t[a..b - 1];
    }
  }

  lemma {:induction false} NumbersOnlyAtStarts(t: string, sources: seq<string>, spans: seq<Span>, j: nat, n: nat)
    requires n <= |spans| && InOrder(spans, 0, |t|)
    requires forall i :: 0 <= i < n ==> spans[i].start != j
    ensures NumbersAt(t, sources, spans, j, n) == []
  {
    hide NumbersOf, PiecesOf;
    if n > 0 {
      NumbersOnlyAtStarts(t, sources, spans, j, n - 1);
    }
  }

  lemma {:induction false} NumbersAtStart(t: string, sources: seq<string>, spans: seq<Span>, i: nat, n: nat)
    requires i < n <= |spans| && InOrder(spans, 0, |t|)
    ensures NumbersAt(t, sources, spans, spans[i].start, n) == NumbersOf(PiecesOf(t, spans[i]), sources)
  {
    hide NumbersOf, PiecesOf;
    if i < n - 1 {
      NumbersAtStart(t, sources, spans, i, n - 1);
    }
  }

  /** Inside a converted marker, after its opening bracket, nothing is shown. */
  lemma {:induction false} RenderedSkips(t: string, sources: seq<string>, spans: seq<Span>, i: nat, b: nat)
    requires i < |spans| && InOrder(spans, 0, |t|) && Converted(t, sources, spans[i])
    requires spans[i].start < b <= spans[i].close + 1
    ensures Rendered(t, sources, spans, b) ==
            Rendered(t, sources, spans, spans[i].start) + Marks(NumbersOf(PiecesOf(t, spans[i]), sources))
    decreases b
  {
    hide NumbersOf, PiecesOf, NumbersAt, Marks;
    var s := spans[i];
    MarkerIsCovered(t, sources, spans, i);
    assert Covered(t, sources, spans, b - 1);
    if b - 1 == s.start {
      NumbersAtStart(t, sources, spans, i, |spans|);
    } else {
      RenderedSkips(t, sources, spans, i, b - 1);
      NumbersOnlyAtStarts(t, sources, spans, b - 1, |spans|);
      assert Marks([]) == [];
    }
  }

  /** The scan is past every converted marker among the first `n`. */
  lemma {:induction false} ScanIsPast(t: string, sources: seq<string>, spans: seq<Span>, n: nat)
    requires n <= |spans| && InOrder(spans, 0, |t|)
    ensures forall i :: 0 <= i < n && Converted(t, sources, spans[i]) ==>
                          spans[i].close < ScanMarkers(t, sources, spans, n).last
  {
    hide PiecesOf, NumbersOf;
    if n > 0 {
      ScanIsPast(t, sources, spans, n - 1);
    }
  }

  lemma GapIsShown(t: string, sources: seq<string>, spans: seq<Span>, n: nat, to: nat)
    requires n <= |spans| && InOrder(spans, 0, |t|)
    requires to == if n < |spans| then spans[n].start else |t|
    ensures var last := ScanMarkers(t, sources, spans, n).last;
            && last <= to
            && Rendered(t, sources, spans, to) == Rendered(t, sources, spans, last) + Chars(t[last..to])
  {
    hide ScanMarkers, Converted;
    ScanIsPast(t, sources, spans, n);
    RenderedKeeps(t, sources, spans, ScanMarkers(t, sources, spans, n).last, to);
  }

  lemma MarkerIsCovered(t: string, sources: seq<string>, spans: seq<Span>, i: nat)
    requires i < |spans| && InOrder(spans, 0, |t|) && Converted(t, sources, spans[i])
    ensures forall j: nat :: spans[i].start <= j < spans[i].close + 1 ==> Covered(t, sources, spans, j)
  {
    hide Converted;
  }

  lemma NothingShownYet(t: string, sources: seq<string>, spans: seq<Span>)
    requires InOrder(spans, 0, |t|)
    ensures Shown([]) == Rendered(t, sources, spans, 0)
  {}

  lemma {:induction false} ScanShows(t: string, sources: seq<string>, spans: seq<Span>, n: nat)
    requires n <= |spans| && InOrder(spans, 0, |t|)
    ensures var scan := ScanMarkers(t, sources, spans, n);
            Shown(scan.nodes) == Rendered(t, sources, spans, scan.last)
  {
    hide PiecesOf, NumbersOf, TextNode, Sups, Chars, Marks, Rendered, Shown;
    if n == 0 {
      NothingShownYet(t, sources, spans);
    } else {
      ScanShows(t, sources, spans, n - 1);
      var before, s := ScanMarkers(t, sources, spans, n - 1), spans[n - 1];
      var numbers := NumbersOf(PiecesOf(t, s), sources);
      if numbers != [] {
        GapIsShown(t, sources, spans, n - 1, s.start);
        PushedNodesShow(before.nodes, t[before.last..s.start], numbers);
        RenderedSkips(t, sources, spans, n - 1, s.close + 1);
      }
    }
  }

  /** The nodes show every character outside converted markers and, in place of each converted marker, its numbers. */
  lemma NothingLostNothingMoved(t: string, sources: seq<string>)
    ensures Shown(NodesOf(t, sources)) == Rendered(t, sources, Matches(t, 0), |t|)
  {
    hide ScanMarkers, Matches, Rendered, TextNode, Shown, Chars;
    var spans := Matches(t, 0);
    var scan := ScanMarkers(t, sources, spans, |spans|);
    ScanShows(t, sources, spans, |spans|);
    GapIsShown(t, sources, spans, |spans|, |t|);
    TextNodeShowsText(t[scan.last..]);
    assert t[scan.last..] == t[scan.last..|t|];
    ShownAppend(scan.nodes, TextNode(t[scan.last..]));
  }

  /******* Numbers *******/

  function NumbersIn(nodes: seq<Node>): seq<nat> {
    if nodes == [] then []
    else
      var last := nodes[|nodes| - 1];
      NumbersIn(nodes[..|nodes| - 1]) + if last.Sup? then [last.number] else []
  }

  lemma {:induction false} NumbersAppend(a: seq<Node>, b: seq<Node>)
    ensures NumbersIn(a + b) == NumbersIn(a) + NumbersIn(b)
  {
    if b == [] {
      assert a + b == a;
    } else {
      NumbersAppend(a, b[..|b| - 1]);
      assert (a + b)[..|a + b| - 1] == a + b[..|b| - 1];
    }
  }

  lemma {:induction false} SupsHoldNumbers(numbers: seq<nat>)
    ensures NumbersIn(Sups(numbers)) == numbers
  {
    if numbers != [] {
      var n := |numbers| - 1;
      SupsHoldNumbers(numbers[..n]);
      assert Sups(numbers)[..n] == Sups(numbers[..n]);
    }
  }

  lemma TextNodeHoldsNoNumber(s: string)
    ensures NumbersIn(TextNode(s)) == []
  {
    assert s != "" ==> TextNode(s)[..0] == [];
  }

  lemma PushedNumbers(nodes: seq<Node>, gap: string, numbers: seq<nat>)
    ensures NumbersIn(nodes + TextNode(gap) + Sups(numbers)) == NumbersIn(nodes) + numbers
  {
    hide NumbersIn, TextNode, Sups;
    TextNodeHoldsNoNumber(gap);
    SupsHoldNumbers(numbers);
    NumbersAppend(nodes, TextNode(gap));
    NumbersAppend(nodes + TextNode(gap), Sups(numbers));
  }

  /** The pieces that name a source, in reading order. */
  function Known(pieces: seq<string>, sources: seq<string>): seq<string> {
    if pieces == [] then []
    else
      var last := pieces[|pieces| - 1];
      Known(pieces[..|pieces| - 1], sources) + if last in sources then [last] else []
  }

  /** `numbers` name the paths one by one. */
  ghost predicate Names(numbers: seq<nat>, sources: seq<string>, paths: seq<string>) {
    && |numbers| == |paths|
    && forall i :: 0 <= i < |numbers| ==>
        && 1 <= numbers[i] <= |sources|
        && sources[numbers[i] - 1] == paths[i]
        && paths[i] !in sources[..numbers[i] - 1]
  }

  lemma {:induction false} NumbersOfAppend(a: seq<string>, b: seq<string>, sources: seq<string>)
    ensures NumbersOf(a + b, sources) == NumbersOf(a, sources) + NumbersOf(b, sources)
  {
    if b == [] {
      assert a + b == a;
    } else {
      NumbersOfAppend(a, b[..|b| - 1], sources);
      assert (a + b)[..|a + b| - 1] == a + b[..|b| - 1];
    }
  }

  lemma {:induction false} ScanNumbers(t: string, sources: seq<string>, spans: seq<Span>, n: nat)
    requires n <= |spans| && InOrder(spans, 0, |t|)
    ensures NumbersIn(ScanMarkers(t, sources, spans, n).nodes) == NumbersOf(AllPieces(t, spans, n), sources)
  {
    hide PiecesOf, NumbersOf, TextNode, Sups, NumbersIn;
    if n == 0 {
      NumbersOfNothing(sources);
    } else {
      ScanNumbers(t, sources, spans, n - 1);
      var before, s := ScanMarkers(t, sources, spans, n - 1), spans[n - 1];
      var numbers := NumbersOf(PiecesOf(t, s), sources);
      NumbersOfAppend(AllPieces(t, spans, n - 1), PiecesOf(t, s), sources);
      if numbers != [] {
        PushedNumbers(before.nodes, t[before.last..s.start], numbers);
      }
    }
  }

  lemma NumbersOfNothing(sources: seq<string>)
    ensures NumbersOf([], sources) == NumbersIn([]) == []
  {}

  lemma SuperscriptsArePieceNumbers(t: string, sources: seq<string>)
    ensures NumbersIn(NodesOf(t, sources)) == NumbersOf(Pieces(t), sources)
  {
    hide ScanMarkers, Matches, TextNode, NumbersOf, AllPieces;
    var spans := Matches(t, 0);
    var scan := ScanMarkers(t, sources, spans, |spans|);
    ScanNumbers(t, sources, spans, |spans|);
    TextNodeHoldsNoNumber(t[scan.last..]);
    NumbersAppend(scan.nodes, TextNode(t[scan.last..]));
  }

  lemma {:induction false} NumbersNameKnown(pieces: seq<string>, sources: seq<string>)
    ensures Names(NumbersOf(pieces, sources), sources, Known(pieces, sources))
  {
    if pieces != [] {
      NumbersNameKnown(pieces[..|pieces| - 1], sources);
    }
  }

  /** Each superscript, in order, is the number of the next known piece, and that number is in range. */
  lemma EveryNumberNamesItsSource(t: string, sources: seq<string>)
    ensures Names(NumbersIn(NodesOf(t, sources)), sources, Known(Pieces(t), sources))
  {
    hide Pieces, NodesOf, NumbersOf, Known;
    SuperscriptsArePieceNumbers(t, sources);
    NumbersNameKnown(Pieces(t), sources);
  }

  /******* Sources taken from the same text *******/

  function OneTo(n: nat): (r: seq<nat>)
    ensures |r| == n && forall i :: 0 <= i < n ==> r[i] == i + 1
  {
    if n == 0 then [] else OneTo(n - 1) + [n]
  }

  lemma {:induction false} KnownArePaths(all: seq<string>, n: nat)
    requires n <= |all|
    ensures Known(all[..n], Dedup(Paths(all))) == Paths(all[..n])
  {
    hide IsDocumentPath, Dedup;
    if n > 0 {
      KnownArePaths(all, n - 1);
      assert all[..n][..n - 1] == all[..n - 1] && all[..n][n - 1] == all[n - 1];
    }
  }

  lemma {:induction false} DedupOfPrefix(s: seq<string>, n: nat)
    requires n <= |s|
    ensures Dedup(s[..n]) <= Dedup(s)
    decreases |s| - n
  {
    if n == |s| {
      assert s[..n] == s;
    } else {
      DedupOfPrefix(s, n + 1);
      assert s[..n + 1] == s[..n] + [s[n]];
      DedupSnoc(s[..n], s[n]);
    }
  }

  lemma {:induction false} DedupIsDistinct(s: seq<string>)
    ensures forall i, j :: 0 <= i < j < |Dedup(s)| ==> Dedup(s)[i] != Dedup(s)[j]
  {
    if s != [] {
      DedupIsDistinct(s[..|s| - 1]);
    }
  }

  /** A numbering of `paths` by their deduplicated list meets each number first in its own order. */
  lemma {:induction false} FirstNumbersInOrder(numbers: seq<nat>, paths: seq<string>, n: nat)
    requires Names(numbers, Dedup(paths), paths) && n <= |paths|
    ensures Dedup(numbers[..n]) == OneTo(|Dedup(paths[..n])|)
  {
    hide Dedup, OneTo;
    var sources := Dedup(paths);
    if n == 0 {
      assert numbers[..0] == [] && paths[..0] == [];
      DedupNothing();
      assert OneTo(0) == [];
    } else {
      FirstNumbersInOrder(numbers, paths, n - 1);
      var seen, k, p := paths[..n - 1], numbers[n - 1], paths[n - 1];
      assert numbers[..n] == numbers[..n - 1] + [k] && paths[..n] == seen + [p];
      DedupSnoc(numbers[..n - 1], k);
      DedupSnoc(seen, p);
      DedupOfPrefix(paths, n - 1);
      DedupOfPrefix(paths, n);
      DedupIsDistinct(paths);
      PositionTells(sources, Dedup(seen), p, k);
      OneToHolds(|Dedup(seen)|, k);
      assert OneTo(|Dedup(seen)| + 1) == OneTo(|Dedup(seen)|) + [|Dedup(seen)| + 1];
    }
  }

  lemma OneToHolds(n: nat, k: nat)
    ensures k in OneTo(n) <==> 1 <= k <= n
  {
    assert 1 <= k <= n ==> OneTo(n)[k - 1] == k;
  }

  lemma DedupNothing()
    ensures Dedup<nat>([]) == [] && Dedup<string>([]) == []
  {}

  /** In a list without repeats, an entry lies in a prefix exactly when its position does. */
  lemma PositionTells(all: seq<string>, front: seq<string>, p: string, k: nat)
    requires front <= all && 1 <= k <= |all| && all[k - 1] == p
    requires forall i, j :: 0 <= i < j < |all| ==> all[i] != all[j]
    ensures p in front <==> k <= |front|
    ensures front + [p] <= all ==> k == |front| + 1
  {
    assert k <= |front| ==> front[k - 1] == p;
    assert forall i :: 0 <= i < |front| ==> front[i] == all[i];
    assert front + [p] <= all ==> all[|front|] == (front + [p])[|front|] == p;
  }

  /** Numbered by the sources extracted from it, a text meets the numbers as 1, 2, 3 and so on. */
  lemma NumbersStartInOrder(t: string)
    ensures Dedup(NumbersIn(NodesOf(t, Extracted(t)))) == OneTo(|Extracted(t)|)
  {
    hide Pieces, NodesOf, Known, Dedup, Names;
    var all, sources := Pieces(t), Extracted(t);
    var paths, numbers := Paths(all), NumbersIn(NodesOf(t, sources));
    EveryNumberNamesItsSource(t, sources);
    KnownArePaths(all, |all|);
    assert all[..|all|] == all;
    assert Names(numbers, Dedup(paths), paths);
    assert |numbers| == |paths| by { NamesHasLength(numbers, Dedup(paths), paths); }
    FirstNumbersInOrder(numbers, paths, |paths|);
    assert numbers[..|paths|] == numbers && paths[..|paths|] == paths;
  }

  lemma NamesHasLength(numbers: seq<nat>, sources: seq<string>, paths: seq<string>)
    requires Names(numbers, sources, paths)
    ensures |numbers| == |paths|
  {}
}
