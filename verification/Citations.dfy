/**
 * Bracketed source markers in an answer: the list of sources extracted from a stored
 * answer, and the numbered superscripts that replace known markers in a text node.
 */
module Citations {
  import opened Wrappers
  import opened Texts

  const COMMA := ","

  /** A marker: `start` is its opening bracket, `close` its closing one. */
  datatype Span = Span(start: nat, close: nat)

  /** The first closing bracket at or after `i`. */
  function Close(t: string, i: nat): (r: Option<nat>)
    ensures r.Some? ==> i <= r.value < |t| && t[r.value] == ']'
    decreases |t| - i
  {
    if i >= |t| then None else if t[i] == ']' then Some(i) else Close(t, i + 1)
  }

  /** A marker opens at `i`: its first inner character is neither space nor `]`. */
  predicate OpensAt(t: string, i: nat) {
    i + 1 < |t| && t[i] == '[' && t[i + 1] != ']' && !IsSpace(t[i + 1]) && Close(t, i + 2).Some?
  }

  predicate InOrder(spans: seq<Span>, from: nat, to: nat) {
    && (forall i :: 0 <= i < |spans| ==> from <= spans[i].start && spans[i].start + 2 <= spans[i].close < to)
    && (forall i, j :: 0 <= i < j < |spans| ==> spans[i].close < spans[j].start)
  }

  /** All markers from `i` on, leftmost first, without overlap. */
  function Matches(t: string, i: nat): (r: seq<Span>)
    ensures InOrder(r, i, |t|)
    decreases |t| - i
  {
    if i >= |t| then []
    else if OpensAt(t, i) then
      var close := Close(t, i + 2).value;
      [Span(i, close)] + Matches(t, close + 1)
    else Matches(t, i + 1)
  }

  function TrimAll(parts: seq<string>): (r: seq<string>)
    ensures |r| == |parts| && forall i :: 0 <= i < |r| ==> r[i] == Trim(parts[i])
  {
    if parts == [] then [] else [Trim(parts[0])] + TrimAll(parts[1..])
  }

  /** The comma-separated pieces inside a marker. */
  function PiecesOf(t: string, s: Span): seq<string>
    requires s.start < s.close <= |t|
  {
    TrimAll(SplitOn(t[s.start + 1..s.close], COMMA))
  }

  /** The pieces of the first `n` markers, in reading order. */
  function AllPieces(t: string, spans: seq<Span>, n: nat): seq<string>
    requires n <= |spans| && InOrder(spans, 0, |t|)
  {
    if n == 0 then [] else AllPieces(t, spans, n - 1) + PiecesOf(t, spans[n - 1])
  }

  function Pieces(t: string): seq<string> {
    AllPieces(t, Matches(t, 0), |Matches(t, 0)|)
  }

  /******* Extraction *******/

  predicate IsAlnum(c: char) {
    'A' <= c <= 'Z' || 'a' <= c <= 'z' || '0' <= c <= '9'
  }

  predicate IsPathChar(c: char) {
    IsAlnum(c) || c in "._/-"
  }

  /** Path characters, a dot, and an extension of letters and digits. */
  predicate IsDocumentPath(s: string) {
    exists i :: 0 < i < |s| - 1 && s[i] == '.'
                && (forall j :: 0 <= j < i ==> IsPathChar(s[j]))
                && (forall j :: i < j < |s| ==> IsAlnum(s[j]))
  }

  /** First occurrences, in order. */
  function Dedup<T(==, !new)>(s: seq<T>): (r: seq<T>)
    ensures forall x :: x in r <==> x in s
  {
    if s == [] then []
    else
      var rest, last := s[..|s| - 1], s[|s| - 1];
      assert s == rest + [last];
      if last in rest then Dedup(rest) else Dedup(rest) + [last]
  }

  function Paths(pieces: seq<string>): (r: seq<string>)
    ensures forall x :: x in r <==> x in pieces && IsDocumentPath(x)
  {
    if pieces == [] then []
    else
      var rest, last := pieces[..|pieces| - 1], pieces[|pieces| - 1];
      assert pieces == rest + [last];
      Paths(rest) + if IsDocumentPath(last) then [last] else []
  }

  /** The distinct document paths of a text, in order of first appearance. */
  function Extracted(t: string): seq<string> {
    Dedup(Paths(Pieces(t)))
  }

  /** What is collected after some pieces: the list and the set of paths seen. */
  ghost predicate Collected(pieces: seq<string>, citations: seq<string>, seen: set<string>) {
    citations == Dedup(Paths(pieces)) && forall x :: x in seen <==> x in Paths(pieces)
  }

  method AddPieces(ghost before: seq<string>, pieces: seq<string>, citations0: seq<string>, seen0: set<string>)
    returns (citations: seq<string>, seen: set<string>)
    requires Collected(before, citations0, seen0)
    ensures Collected(before + pieces, citations, seen)
  {
    hide Collected;
    citations, seen := citations0, seen0;
    assert before + pieces[..0] == before;
    for j := 0 to |pieces|
      invariant Collected(before + pieces[..j], citations, seen)
    {
      var path := pieces[j];
      assert before + pieces[..j + 1] == before + pieces[..j] + [path];
      CollectOne(before + pieces[..j], path, citations, seen);
      if IsDocumentPath(path) && path !in seen {
        seen := seen + {path};
        citations := citations + [path];
      }
    }
    assert pieces[..|pieces|] == pieces;
  }

  method ExtractCitations(t: string) returns (citations: seq<string>)
    ensures citations == Extracted(t)
  {
    hide PiecesOf, Matches, Collected;
    var seen: set<string> := {};
    citations := [];
    var spans := Matches(t, 0);
    CollectNothing();
    for i := 0 to |spans|
      invariant Collected(AllPieces(t, spans, i), citations, seen)
    {
      citations, seen := AddPieces(AllPieces(t, spans, i), PiecesOf(t, spans[i]), citations, seen);
    }
    CollectedIsExtracted(t, citations, seen);
  }

  lemma CollectNothing()
    ensures Collected([], [], {})
  {}

  lemma CollectedIsExtracted(t: string, citations: seq<string>, seen: set<string>)
    requires Collected(Pieces(t), citations, seen)
    ensures citations == Extracted(t)
  {}

  lemma CollectOne(pieces: seq<string>, p: string, citations: seq<string>, seen: set<string>)
    requires Collected(pieces, citations, seen)
    ensures if IsDocumentPath(p) && p !in seen then Collected(pieces + [p], citations + [p], seen + {p})
            else Collected(pieces + [p], citations, seen)
  {
    hide IsDocumentPath;
    assert (pieces + [p])[..|pieces|] == pieces;
    var paths := Paths(pieces);
    if IsDocumentPath(p) {
      assert Paths(pieces + [p]) == paths + [p];
      DedupSnoc(paths, p);
    } else {
      assert Paths(pieces + [p]) == paths;
    }
  }

  lemma DedupSnoc<T(!new)>(s: seq<T>, x: T)
    ensures Dedup(s + [x]) == if x in s then Dedup(s) else Dedup(s) + [x]
  {
    assert (s + [x])[..|s|] == s;
  }

  /******* Superscripts *******/

  datatype Node = Text(value: string) | Sup(number: nat)

  /** The first position of `x`. */
  function IndexIn(s: seq<string>, x: string): (i: nat)
    requires x in s
    ensures i < |s| && s[i] == x && x !in s[..i]
  {
    if s[0] == x then 0
    else
      assert s == [s[0]] + s[1..];
      var i := 1 + IndexIn(s[1..], x);
      assert s[..i] == [s[0]] + s[1..][..i - 1];
      i
  }

  lemma FirstAt(s: seq<string>, i: nat)
    requires i < |s| && s[i] !in s[..i]
    ensures IndexIn(s, s[i]) == i
  {
    var k := IndexIn(s, s[i]);
  }

  /** Numbers of known sources: 1-based position of their first entry. */
  ghost predicate IsNumbering(sources: seq<string>, m: map<string, nat>) {
    forall p :: (p in m <==> p in sources) && (p in m ==> m[p] == IndexIn(sources, p) + 1)
  }

  method NumberByPath(sources: seq<string>) returns (m: map<string, nat>)
    ensures IsNumbering(sources, m)
  {
    m := map[];
    for i := 0 to |sources|
      invariant forall p :: p in m <==> p in sources[..i]
      invariant forall p :: p in m ==> m[p] == IndexIn(sources, p) + 1
    {
      assert sources[..i + 1] == sources[..i] + [sources[i]];
      if sources[i] !in m {
        FirstAt(sources, i);
        m := m[sources[i] := i + 1];
      }
    }
    assert sources[..|sources|] == sources;
  }

  /** The numbers of the known pieces, in order; unknown pieces are dropped. */
  function NumbersOf(pieces: seq<string>, sources: seq<string>): seq<nat> {
    if pieces == [] then []
    else
      var last := pieces[|pieces| - 1];
      NumbersOf(pieces[..|pieces| - 1], sources) + if last in sources then [IndexIn(sources, last) + 1] else []
  }

  function Sups(numbers: seq<nat>): (r: seq<Node>)
    ensures |r| == |numbers| && forall i :: 0 <= i < |r| ==> r[i] == Sup(numbers[i])
  {
    if numbers == [] then [] else Sups(numbers[..|numbers| - 1]) + [Sup(numbers[|numbers| - 1])]
  }

  datatype Scan = Scan(nodes: seq<Node>, last: nat)

  /** The scan after the first `n` markers; a marker without a known piece is passed over. */
  function ScanMarkers(t: string, sources: seq<string>, spans: seq<Span>, n: nat): (r: Scan)
    requires n <= |spans| && InOrder(spans, 0, |t|)
    ensures r.last <= |t| && forall i :: n <= i < |spans| ==> r.last <= spans[i].start
  {
    if n == 0 then Scan([], 0)
    else
      var before, s := ScanMarkers(t, sources, spans, n - 1), spans[n - 1];
      var numbers := NumbersOf(PiecesOf(t, s), sources);
      if numbers == [] then before
      else Scan(before.nodes + TextNode(t[before.last..s.start]) + Sups(numbers), s.close + 1)
  }

  function TextNode(s: string): seq<Node> {
    if s == "" then [] else [Text(s)]
  }

  function NodesOf(t: string, sources: seq<string>): seq<Node> {
    var spans := Matches(t, 0);
    var scan := ScanMarkers(t, sources, spans, |spans|);
    scan.nodes + TextNode(t[scan.last..])
  }

  method CitationNumbers(pieces: seq<string>, sources: seq<string>, m: map<string, nat>)
    returns (numbers: seq<nat>)
    requires IsNumbering(sources, m)
    ensures numbers == NumbersOf(pieces, sources)
  {
    numbers := [];
    for j := 0 to |pieces|
      invariant numbers == NumbersOf(pieces[..j], sources)
    {
      assert pieces[..j + 1][..j] == pieces[..j];
      if pieces[j] in m {
        numbers := numbers + [m[pieces[j]]];
      }
    }
    assert pieces[..|pieces|] == pieces;
  }

  method PushSuperscripts(before: seq<Node>, numbers: seq<nat>) returns (nodes: seq<Node>)
    ensures nodes == before + Sups(numbers)
  {
    nodes := before;
    for j := 0 to |numbers|
      invariant nodes == before + Sups(numbers[..j])
    {
      assert numbers[..j + 1][..j] == numbers[..j];
      nodes := nodes + [Sup(numbers[j])];
    }
    assert numbers[..|numbers|] == numbers;
  }

  method SplitTextNode(t: string, sources: seq<string>, m: map<string, nat>) returns (nodes: seq<Node>)
    requires IsNumbering(sources, m)
    ensures nodes == NodesOf(t, sources)
  {
    hide PiecesOf, Matches, NumbersOf, IsNumbering;
    nodes := [];
    var lastIndex: nat := 0;
    var spans := Matches(t, 0);
    for i := 0 to |spans|
      invariant Scan(nodes, lastIndex) == ScanMarkers(t, sources, spans, i)
    {
      var numbers := CitationNumbers(PiecesOf(t, spans[i]), sources, m);
      if numbers != [] {
        if spans[i].start > lastIndex {
          nodes := nodes + [Text(t[lastIndex..spans[i].start])];
        }
        nodes := PushSuperscripts(nodes, numbers);
        lastIndex := spans[i].close + 1;
      }
    }
    if lastIndex < |t| {
      nodes := nodes + [Text(t[lastIndex..])];
    }
  }
}
