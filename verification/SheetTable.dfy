/**
 * A sheet tab rendered as a Markdown table, and the table read back.
 * Text normalisation of a cell is the parameter `norm`.
 */
module SheetTable {
  import opened Wrappers
  import opened Texts

  const BAR := '|'
  const BACKSLASH := '\\'
  const BREAK := "<br>"

  /******* Cells *******/

  /** Every occurrence of one character replaced by a text. */
  function ReplaceChar(s: string, c: char, put: string): string {
    if s == "" then "" else (if s[0] == c then put else [s[0]]) + ReplaceChar(s[1..], c, put)
  }

  /** Bars are escaped, line feeds become breaks. */
  function Escape(s: string): string {
    ReplaceChar(ReplaceChar(s, BAR, [BACKSLASH, BAR]), '\n', BREAK)
  }

  /** Reading back: an escaped bar is a bar, a break is a line feed. */
  function Unescape(s: string): string {
    if s == "" then ""
    else if |s| >= 2 && s[0] == BACKSLASH && s[1] == BAR then [BAR] + Unescape(s[2..])
    else if StartsWith(s, BREAK) then ['\n'] + Unescape(s[4..])
    else [s[0]] + Unescape(s[1..])
  }

  function EscapeChar(c: char): string {
    if c == BAR then [BACKSLASH, BAR] else if c == '\n' then BREAK else [c]
  }

  lemma {:induction false} ReplaceAppend(a: string, b: string, c: char, put: string)
    ensures ReplaceChar(a + b, c, put) == ReplaceChar(a, c, put) + ReplaceChar(b, c, put)
  {
    if a == "" {
      assert a + b == b;
    } else {
      ReplaceAppend(a[1..], b, c, put);
      assert (a + b)[1..] == a[1..] + b;
    }
  }

  /** The two passes work character by character. */
  lemma EscapeStep(s: string)
    requires s != ""
    ensures Escape(s) == EscapeChar(s[0]) + Escape(s[1..])
  {
    var head := if s[0] == BAR then [BACKSLASH, BAR] else [s[0]];
    var rest := ReplaceChar(s[1..], BAR, [BACKSLASH, BAR]);
    ReplaceAppend(head, rest, '\n', BREAK);
    assert head[1..] == "" || head[1..] == [BAR];
    assert [BAR][1..] == "";
  }

  lemma EscapeNothing()
    ensures Escape("") == "" && Unescape("") == ""
  {}

  /** A literal break somewhere in the text. */
  predicate HasBreak(s: string) {
    s != "" && (StartsWith(s, BREAK) || HasBreak(s[1..]))
  }

  /** The end of a break. */
  predicate StartsBr(s: string) {
    |s| >= 3 && s[0] == 'b' && s[1] == 'r' && s[2] == '>'
  }

  lemma BreakStart(c: char, s: string)
    ensures StartsWith([c] + s, BREAK) <==> c == '<' && StartsBr(s)
  {
    if |s| >= 3 {
      assert ([c] + s)[..4] == [c, s[0], s[1], s[2]];
      assert BREAK == ['<', 'b', 'r', '>'];
    }
  }

  /** The escaped text never starts with a bar, and ends a break only if the text does. */
  lemma EscapedStart(s: string)
    ensures Escape(s) == "" || Escape(s)[0] != BAR
    ensures StartsBr(Escape(s)) <==> StartsBr(s)
  {
    hide Escape;
    EscapeNothing();
    if s != "" {
      EscapeStep(s);
      if |s| > 1 {
        EscapeStep(s[1..]);
        assert s[1..][1..] == s[2..];
        if |s| > 2 {
          EscapeStep(s[2..]);
        } else {
          assert s[2..] == "";
        }
      } else {
        assert s[1..] == "";
      }
    }
  }

  /** A cell survives escaping and unescaping exactly when it holds no literal break. */
  lemma {:induction false} CellRoundTripIff(s: string)
    ensures Unescape(Escape(s)) == s <==> !HasBreak(s)
  {
    hide Escape;
    if s == "" {
      EscapeNothing();
    } else {
      var rest := s[1..];
      CellRoundTripIff(rest);
      EscapeStep(s);
      EscapedStart(rest);
      assert s == [s[0]] + rest;
      if StartsWith(s, BREAK) {
        LiteralBreak(s);
      } else {
        UnescapeStep(s[0], rest);
      }
    }
  }

  lemma LiteralBreak(s: string)
    requires StartsWith(s, BREAK)
    ensures Unescape(Escape(s)) != s
  {
    hide Escape;
    EscapeStep(s);
    EscapedStart(s[1..]);
    assert s == [s[0]] + s[1..];
    BreakStart(s[0], s[1..]);
    BreakStart('<', Escape(s[1..]));
  }

  /** Unescaping undoes one escaped character when no literal break starts there. */
  lemma UnescapeStep(c: char, rest: string)
    requires !StartsWith([c] + rest, BREAK)
    ensures Unescape(EscapeChar(c) + Escape(rest)) == [c] + Unescape(Escape(rest))
  {
    hide Escape;
    EscapedStart(rest);
    var tail := Escape(rest);
    if c == BAR {
      assert ([BACKSLASH, BAR] + tail)[2..] == tail;
    } else if c == '\n' {
      assert (BREAK + tail)[4..] == tail && (BREAK + tail)[..4] == BREAK;
    } else {
      var t := [c] + tail;
      assert t[1..] == tail;
      BreakStart(c, tail);
      BreakStart(c, rest);
    }
  }

  /******* Rows *******/

  /** The pieces between bars that no backslash precedes; `escaped` tells whether one precedes `s`. */
  function SplitCells(s: string, escaped: bool): (r: seq<string>)
    ensures |r| >= 1
  {
    if s == "" then [""]
    else if s[0] == BAR && !escaped then [""] + SplitCells(s[1..], false)
    else
      var r := SplitCells(s[1..], s[0] == BACKSLASH);
      [[s[0]] + r[0]] + r[1..]
  }

  /** No bar in `s` is bare. */
  predicate NoBareBar(s: string, escaped: bool) {
    s == "" || ((s[0] == BAR ==> escaped) && NoBareBar(s[1..], s[0] == BACKSLASH))
  }

  lemma {:induction false} SplitAtBar(piece: string, escaped: bool, rest: string)
    requires NoBareBar(piece, escaped)
    requires if piece == "" then !escaped else piece[|piece| - 1] != BACKSLASH
    ensures SplitCells(piece + [BAR] + rest, escaped) == [piece] + SplitCells(rest, false)
  {
    var s := piece + [BAR] + rest;
    if piece == "" {
      assert s == [BAR] + rest && s[1..] == rest;
    } else {
      assert s[1..] == piece[1..] + [BAR] + rest && s[0] == piece[0];
      SplitAtBar(piece[1..], piece[0] == BACKSLASH, rest);
      assert [piece[0]] + piece[1..] == piece;
    }
  }

  lemma {:induction false} EscapedHasNoBareBar(s: string, escaped: bool, tail: string)
    requires NoBareBar(tail, false) && NoBareBar(tail, true)
    ensures NoBareBar(Escape(s) + tail, escaped)
  {
    hide Escape;
    if s == "" {
      EscapeNothing();
      assert Escape(s) + tail == tail;
    } else {
      EscapeStep(s);
      var rest := Escape(s[1..]) + tail;
      assert Escape(s) + tail == EscapeChar(s[0]) + rest;
      EscapedHasNoBareBar(s[1..], false, tail);
      EscapedHasNoBareBar(s[1..], true, tail);
      BarFree(EscapeChar(s[0]), rest, escaped);
    }
  }

  /** One escaped character in front keeps the text free of bare bars. */
  lemma BarFree(head: string, rest: string, escaped: bool)
    requires head == [BACKSLASH, BAR] || head == BREAK || (|head| == 1 && head[0] != BAR)
    requires NoBareBar(rest, false) && NoBareBar(rest, true)
    ensures NoBareBar(head + rest, escaped)
  {
    if head == BREAK {
      assert BREAK + rest == ['<'] + (['b'] + (['r'] + (['>'] + rest)));
      assert NoBareBar(['>'] + rest, false) by { assert (['>'] + rest)[1..] == rest; }
      var a := ['r'] + (['>'] + rest);
      assert a[1..] == ['>'] + rest;
      var b := ['b'] + a;
      assert b[1..] == a;
      assert (['<'] + b)[1..] == b;
    } else if |head| == 1 {
      assert (head + rest)[1..] == rest;
    } else {
      assert (head + rest)[1..] == [BAR] + rest && ([BAR] + rest)[1..] == rest;
    }
  }

  function EscapeAll(texts: seq<string>): (r: seq<string>)
    ensures |r| == |texts| && forall i :: 0 <= i < |r| ==> r[i] == Escape(texts[i])
  {
    if texts == [] then [] else [Escape(texts[0])] + EscapeAll(texts[1..])
  }

  function RenderRow(cells: seq<string>): string {
    "| " + Join(cells, " | ") + " |"
  }

  function Framed(cell: string): string {
    " " + cell + " "
  }

  /** The row after its first bar: each cell framed by spaces and closed by a bar. */
  function Boxes(cells: seq<string>): string {
    if cells == [] then "" else Framed(cells[0]) + [BAR] + Boxes(cells[1..])
  }

  lemma {:induction false} RowShape(cells: seq<string>)
    requires cells != []
    ensures " " + Join(cells, " | ") + " |" == Boxes(cells)
  {
    if |cells| == 1 {
      assert cells[1..] == [];
      assert Boxes(cells) == " " + cells[0] + " |";
    } else {
      RowShape(cells[1..]);
      var inner := Join(cells[1..], " | ");
      assert Join(cells, " | ") == cells[0] + " | " + inner;
      assert " " + (cells[0] + " | " + inner) + " |" == Framed(cells[0]) + [BAR] + (" " + inner + " |");
    }
  }

  /** A cell a bar cannot split. */
  predicate IsWhole(cell: string) {
    NoBareBar(Framed(cell), false)
  }

  lemma {:induction false} SplitBoxes(cells: seq<string>)
    requires forall i :: 0 <= i < |cells| ==> IsWhole(cells[i])
    ensures var r := SplitCells(Boxes(cells), false);
            && |r| == |cells| + 1 && r[|cells|] == ""
            && forall i :: 0 <= i < |cells| ==> r[i] == Framed(cells[i])
  {
    if cells != [] {
      SplitBoxes(cells[1..]);
      assert IsWhole(cells[0]);
      SplitAtBar(Framed(cells[0]), false, Boxes(cells[1..]));
    }
  }

  /** A row splits into its framed cells between two empty pieces. */
  lemma SplitRow(cells: seq<string>)
    requires cells != [] && forall i :: 0 <= i < |cells| ==> IsWhole(cells[i])
    ensures var r := SplitCells(RenderRow(cells), false);
            && |r| == |cells| + 2
            && forall i :: 0 <= i < |cells| ==> r[i + 1] == Framed(cells[i])
  {
    hide SplitCells, IsWhole;
    RowShape(cells);
    SplitBoxes(cells);
    var inner := Join(cells, " | ");
    assert "| " + inner + " |" == "" + [BAR] + (" " + inner + " |");
    assert NoBareBar("", false);
    SplitAtBar("", false, Boxes(cells));
  }

  lemma EscapedIsWhole(s: string)
    ensures IsWhole(Escape(s))
  {
    hide Escape;
    assert " "[1..] == "";
    EscapedHasNoBareBar(s, false, " ");
    var t := Escape(s) + " ";
    assert Framed(Escape(s)) == [' '] + t;
    BarFreeSpace(t);
  }

  lemma BarFreeSpace(t: string)
    requires NoBareBar(t, false)
    ensures NoBareBar([' '] + t, false)
  {
    assert ([' '] + t)[1..] == t;
  }

  /** The cells of a line: between the outer bars, without their frame, unescaped. */
  function CellText(piece: string): string {
    if |piece| < 2 then "" else Unescape(piece[1..|piece| - 1])
  }

  function CellTexts(pieces: seq<string>): (r: seq<string>)
    ensures |r| == |pieces| && forall i :: 0 <= i < |r| ==> r[i] == CellText(pieces[i])
  {
    if pieces == [] then [] else [CellText(pieces[0])] + CellTexts(pieces[1..])
  }

  function ParseRow(line: string): seq<string> {
    var pieces := SplitCells(line, false);
    if |pieces| < 2 then [] else CellTexts(pieces[1..|pieces| - 1])
  }

  predicate NoBreaks(texts: seq<string>) {
    forall i :: 0 <= i < |texts| ==> !HasBreak(texts[i])
  }

  /** A rendered row reads back with as many cells; each is the same exactly when it holds no literal break. */
  lemma RowRoundTripIff(texts: seq<string>)
    requires texts != []
    ensures var row := ParseRow(RenderRow(EscapeAll(texts)));
            && |row| == |texts|
            && (forall i :: 0 <= i < |texts| ==> (row[i] == texts[i] <==> !HasBreak(texts[i])))
            && (row == texts <==> NoBreaks(texts))
  {
    hide Escape, Unescape, RenderRow, SplitCells, EscapeAll, IsWhole;
    var cells := EscapeAll(texts);
    forall i | 0 <= i < |cells| ensures IsWhole(cells[i]) {
      EscapedIsWhole(texts[i]);
    }
    SplitRow(cells);
    var line := RenderRow(cells);
    var pieces := SplitCells(line, false);
    var inner := pieces[1..|pieces| - 1];
    forall i | 0 <= i < |texts| ensures ParseRow(line)[i] == texts[i] <==> !HasBreak(texts[i]) {
      assert inner[i] == pieces[i + 1] == Framed(cells[i]);
      assert Framed(cells[i])[1..|Framed(cells[i])| - 1] == cells[i];
      CellRoundTripIff(texts[i]);
    }
  }

  /******* Tables *******/

  type Rows = seq<seq<string>>

  function Width(values: Rows): (w: nat)
    ensures forall i :: 0 <= i < |values| ==> |values[i]| <= w
    ensures w == 0 || exists i :: 0 <= i < |values| && |values[i]| == w
  {
    if values == [] then 0
    else
      var n := |values| - 1;
      var w := Width(values[..n]);
      if |values[n]| > w then |values[n]| else w
  }

  function Copies(text: string, n: nat): (r: seq<string>)
    ensures |r| == n && forall i :: 0 <= i < n ==> r[i] == text
  {
    if n == 0 then [] else Copies(text, n - 1) + [text]
  }

  function PadRow(row: seq<string>, width: nat): seq<string> {
    row + Copies("", if width > |row| then width - |row| else 0)
  }

  function NormAll(norm: string -> string, texts: seq<string>): (r: seq<string>)
    ensures |r| == |texts| && forall i :: 0 <= i < |r| ==> r[i] == norm(texts[i])
  {
    if texts == [] then [] else [norm(texts[0])] + NormAll(norm, texts[1..])
  }

  /** The padded, normalised row. */
  function Padded(norm: string -> string, values: Rows, i: nat): (r: seq<string>)
    requires i < |values|
    ensures |r| == Width(values)
  {
    NormAll(norm, PadRow(values[i], Width(values)))
  }

  const DASHES := "---"

  function RowLine(norm: string -> string, values: Rows, i: nat): string
    requires i < |values|
  {
    RenderRow(EscapeAll(Padded(norm, values, i)))
  }

  /** The lines of rows 1 to `n`, the header being row 0. */
  function DataLines(norm: string -> string, values: Rows, n: nat): (r: seq<string>)
    requires n < |values|
    ensures |r| == n && forall i :: 0 <= i < n ==> r[i] == RowLine(norm, values, i + 1)
  {
    if n == 0 then [] else DataLines(norm, values, n - 1) + [RowLine(norm, values, n)]
  }

  /** Header, delimiter, data. */
  function TableLines(norm: string -> string, values: Rows): (r: seq<string>)
    requires values != []
    ensures |r| == |values| + 1
  {
    [RowLine(norm, values, 0), RenderRow(Copies(DASHES, Width(values)))] + DataLines(norm, values, |values| - 1)
  }

  function PrefixLines(comment: Option<string>): seq<string> {
    if comment.Some? then [comment.value, ""] else []
  }

  function AllLines(norm: string -> string, values: Rows, comment: Option<string>): seq<string> {
    PrefixLines(comment) + if values == [] then ["*(empty sheet)*"] else TableLines(norm, values)
  }

  method WidestRow(values: Rows) returns (width: nat)
    ensures width == Width(values)
    ensures forall i :: 0 <= i < |values| ==> |values[i]| <= width
    ensures width == 0 || exists i :: 0 <= i < |values| && |values[i]| == width
  {
    width := 0;
    for i := 0 to |values|
      invariant width == Width(values[..i])
    {
      assert values[..i + 1][..i] == values[..i];
      if |values[i]| > width {
        width := |values[i]|;
      }
    }
    assert values[..|values|] == values;
  }

  method RenderTable(norm: string -> string, values: Rows) returns (parts: seq<string>)
    requires values != []
    ensures parts == TableLines(norm, values)
  {
    hide RowLine, RenderRow, Copies, Width;
    var width := WidestRow(values);
    parts := [RowLine(norm, values, 0)];
    parts := parts + [RenderRow(Copies(DASHES, width))];
    ghost var head := parts;
    for i := 1 to |values|
      invariant parts == head + DataLines(norm, values, i - 1)
    {
      parts := parts + [RowLine(norm, values, i)];
    }
  }

  method RenderTabMarkdown(norm: string -> string, values: Rows, comment: Option<string>) returns (text: string)
    ensures text == Join(AllLines(norm, values, comment), LINE)
  {
    hide TableLines;
    var parts: seq<string> := [];
    if comment.Some? {
      parts := [comment.value, ""];
    }
    if values == [] {
      parts := parts + ["*(empty sheet)*"];
      return Join(parts, LINE);
    }
    var table := RenderTable(norm, values);
    parts := parts + table;
    return Join(parts, LINE);
  }

  lemma {:induction false} LinesRoundTrip(lines: seq<string>)
    requires lines != [] && forall i :: 0 <= i < |lines| ==> '\n' !in lines[i]
    ensures SplitOn(Join(lines, LINE), LINE) == lines
  {
    hide SplitOn;
    NoBreak(lines[0], Join(lines[1..], LINE));
    if |lines| == 1 {
      assert lines == [lines[0]];
    } else {
      LinesRoundTrip(lines[1..]);
    }
  }

  lemma {:induction false} EscapedIsOneLine(s: string)
    ensures '\n' !in Escape(s)
  {
    hide Escape;
    if s == "" {
      EscapeNothing();
    } else {
      EscapeStep(s);
      EscapedIsOneLine(s[1..]);
    }
  }

  lemma {:induction false} JoinIsOneLine(cells: seq<string>, p: string)
    requires '\n' !in p && forall i :: 0 <= i < |cells| ==> '\n' !in cells[i]
    ensures '\n' !in Join(cells, p)
  {
    if |cells| > 1 {
      JoinIsOneLine(cells[1..], p);
    }
  }

  lemma RowIsOneLine(cells: seq<string>)
    requires forall i :: 0 <= i < |cells| ==> '\n' !in cells[i]
    ensures '\n' !in RenderRow(cells)
  {
    JoinIsOneLine(cells, " | ");
  }

  /** Every rendered sheet, comment or not, splits back into its lines. */
  lemma SheetLines(norm: string -> string, values: Rows, comment: Option<string>)
    requires comment.Some? ==> '\n' !in comment.value
    ensures SplitOn(Join(AllLines(norm, values, comment), LINE), LINE) == AllLines(norm, values, comment)
  {
    hide SplitOn, RenderRow, Padded;
    var lines := AllLines(norm, values, comment);
    if values != [] {
      var table := TableLines(norm, values);
      RowIsOneLine(Copies(DASHES, Width(values)));
      forall i | 0 <= i < |values| ensures '\n' !in RowLine(norm, values, i) {
        RowLineIsOneLine(norm, values, i);
      }
      forall i | 0 <= i < |table| ensures '\n' !in table[i] {
        assert i >= 2 ==> table[i] == DataLines(norm, values, |values| - 1)[i - 2];
      }
    }
    LinesRoundTrip(lines);
  }

  lemma RowLineIsOneLine(norm: string -> string, values: Rows, i: nat)
    requires i < |values|
    ensures '\n' !in RowLine(norm, values, i)
  {
    hide Escape, RenderRow;
    var texts := Padded(norm, values, i);
    forall k | 0 <= k < |texts| ensures '\n' !in EscapeAll(texts)[k] {
      EscapedIsOneLine(texts[k]);
    }
    RowIsOneLine(EscapeAll(texts));
  }

  lemma DashesReparse(n: nat)
    requires n > 0
    ensures ParseRow(RenderRow(Copies(DASHES, n))) == Copies(DASHES, n)
  {
    hide Escape, RenderRow, ParseRow, Copies;
    DashIsPlain();
    assert EscapeAll(Copies(DASHES, n)) == Copies(DASHES, n);
    RowRoundTripIff(Copies(DASHES, n));
  }

  lemma DashIsPlain()
    ensures Escape(DASHES) == DASHES && !HasBreak(DASHES)
  {
    assert "---"[1..] == "--" && "--"[1..] == "-" && "-"[1..] == "";
    assert ReplaceChar("-", BAR, [BACKSLASH, BAR]) == "-" && ReplaceChar("-", '\n', BREAK) == "-";
    assert ReplaceChar("--", BAR, [BACKSLASH, BAR]) == "--" && ReplaceChar("--", '\n', BREAK) == "--";
    assert !HasBreak("-") && !HasBreak("--");
  }

  /**
   * A sheet with at least one column reads back: every table line has exactly as many
   * cells as the widest row, the delimiter line only dashes, and cell `j` of row `i` is the
   * normalised cell of the sheet, or the normalised empty text where the row is shorter,
   * exactly when that holds no literal break.
   */
  lemma SheetReparses(norm: string -> string, values: Rows, comment: Option<string>, i: nat)
    requires comment.Some? ==> '\n' !in comment.value
    requires values != [] && Width(values) > 0 && i < |values|
    ensures var table := TableLines(norm, values);
            && SplitOn(Join(AllLines(norm, values, comment), LINE), LINE) == PrefixLines(comment) + table
            && ParseRow(table[1]) == Copies(DASHES, Width(values))
            && var row := ParseRow(table[if i == 0 then 0 else i + 1]);
            && |row| == Width(values)
            && forall j :: 0 <= j < Width(values) ==>
                 var cell := norm(if j < |values[i]| then values[i][j] else "");
                 row[j] == cell <==> !HasBreak(cell)
  {
    hide SplitOn, RenderRow, ParseRow, Copies, PrefixLines, EscapeAll, NoBreaks, HasBreak;
    SheetLines(norm, values, comment);
    assert i > 0 ==> TableLines(norm, values)[i + 1] == DataLines(norm, values, |values| - 1)[i - 1];
    DashesReparse(Width(values));
    RowRoundTripIff(Padded(norm, values, i));
  }
}
