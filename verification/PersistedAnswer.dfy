/** A stored answer split back into its body and its follow-up questions. */
module PersistedAnswer {
  import opened Wrappers
  import opened Texts
  import opened FollowupBlock
  import opened FollowupLaws

  const MARKER := "---SUIVI---"
  const BULLETS := "-*\U{2022}"

  datatype Answer = Answer(body: string, followups: seq<string>)

  /** One carriage return before a line break belongs to the break. */
  function ChopReturn(s: string): string {
    if s != "" && s[|s| - 1] == '\r' then s[..|s| - 1] else s
  }

  /** The `i`-th line of a block split at line breaks. */
  function LineAt(parts: seq<string>, i: nat): string
    requires i < |parts|
  {
    if i + 1 < |parts| then ChopReturn(parts[i]) else parts[i]
  }

  function DropBullet(s: string): string {
    if s != "" && s[0] in BULLETS then Drop(BLANKS, Drop(BULLETS, s)) else s
  }

  /** A question: the line without its bullet and outer space. */
  function QuestionOf(line: string): string {
    Trim(DropBullet(Trim(line)))
  }

  /** The non-empty questions of the first `n` lines, in order. */
  function Questions(parts: seq<string>, n: nat): seq<string>
    requires n <= |parts|
  {
    if n == 0 then []
    else
      var q := QuestionOf(LineAt(parts, n - 1));
      Questions(parts, n - 1) + if q == "" then [] else [q]
  }

  function Reload(content: string): Answer {
    match FindMarker(content, 0)
    case None => Answer(TrimEnd(content), [])
    case Some(m) =>
      var parts := SplitOn(content[LineEnd(content, m)..], LINE);
      Answer(BodyBefore(content, m), Questions(parts, |parts|))
  }

  method SplitFollowupBlock(content: string) returns (body: string, followups: seq<string>)
    ensures Answer(body, followups) == Reload(content)
  {
    hide FindMarker, QuestionOf, BodyBefore;
    followups := [];
    var found := FindMarker(content, 0);
    if found.None? {
      return TrimEnd(content), [];
    }
    var m := found.value;
    body := BodyBefore(content, m);
    var block := content[LineEnd(content, m)..];
    var parts := SplitOn(block, LINE);
    for i := 0 to |parts|
      invariant followups == Questions(parts, i)
    {
      var line := QuestionOf(LineAt(parts, i));
      if |line| > 0 {
        followups := followups + [line];
      }
    }
  }

  /******* Live and reloaded bodies *******/

  /** The last line could have become a marker, and is not blank. */
  predicate LooksUnfinished(content: string) {
    match LastBreak(content)
    case None => false
    case Some(q) => IsPartialTail(content[q + 1..]) && TrimEnd(content[q + 1..]) != ""
  }

  /** The stored answer reloads as it was shown at the end of streaming, unless its last line looks like a marker to come. */
  lemma ReloadAgreesIff(content: string)
    ensures Reload(content).body == StripFollowupBlock(content) <==>
            FindMarker(content, 0).Some? || !LooksUnfinished(content)
  {
    hide FindMarker, BodyBefore, IsPartialTail, TrimEnd, Questions;
    if FindMarker(content, 0).None? && LastBreak(content).Some? {
      TrimAtBreak(content, LastBreak(content).value);
    }
  }

  /** A blank last line is trimmed with its line break; any other one stays. */
  lemma TrimAtBreak(content: string, q: nat)
    requires q < |content| && content[q] == '\n'
    ensures TrimEnd(content[q + 1..]) == "" ==> TrimEnd(content) == TrimEnd(content[..q])
    ensures TrimEnd(content[q + 1..]) != "" ==> |TrimEnd(content)| > q
  {
    hide TrimEnd;
    var head, last := content[..q], content[q + 1..];
    assert content == head + (LINE + last);
    TrimEndAppend(LINE, last);
    TrimEndAppend(head, LINE + last);
    LineIsSpace();
  }

  lemma LineIsSpace()
    ensures TrimEnd(LINE) == ""
  {
    assert IsSpace('\n');
  }

  /******* Round trip *******/

  function Bullet(question: string): string {
    "- " + question
  }

  function PrintQuestions(questions: seq<string>): (r: string)
    ensures r == "" || r[0] == '\n'
  {
    if questions == [] then "" else LINE + Bullet(questions[0]) + PrintQuestions(questions[1..])
  }

  function PrintAnswer(a: Answer): string {
    a.body + LINE + MARKER + PrintQuestions(a.followups)
  }

  /** A body the cut leaves alone: trimmed, no marker line, no rule as its last line. */
  ghost predicate IsBody(body: string) {
    HasNoMarker(body) && TrimEnd(body) == body && CutTail(body, IsRuleLine) == body
  }

  predicate IsQuestion(q: string) {
    q != "" && IsTrimmed(q) && '\n' !in q
  }

  lemma {:induction false} DropWhole(w: string, rest: string)
    requires forall i :: 0 <= i < |w| ==> Upper(w[i]) == w[i]
    ensures DropWord(w, w + rest) == rest
  {
    if w == "" {
      assert w + rest == rest;
    } else {
      assert (w + rest)[1..] == w[1..] + rest;
      DropWhole(w[1..], rest);
    }
  }

  /** The marker word between any two runs of rule characters is a marker line. */
  lemma RuledWordIsMarker(a: string, b: string)
    requires forall i :: 0 <= i < |a| ==> a[i] in RULES
    requires forall i :: 0 <= i < |b| ==> b[i] in RULES
    ensures IsMarkerLine(a + WORD + b)
  {
    hide Drop, DropWord;
    var line, rest := a + WORD + b, WORD + b;
    assert line == a + rest && rest[0] == 'S';
    DropRun(BLANKS, "", line);
    assert "" + line == line;
    DropRun(RULES, a, rest);
    DropRun(BLANKS, "", rest);
    assert "" + rest == rest;
    DropWhole(WORD, b);
    DropRun(BLANKS, "", b);
    assert "" + b == b;
    DropRun(RULES, b, "");
    assert b + "" == b;
    DropRun(BLANKS, "", "");
    assert "" + "" == "";
  }

  lemma MarkerIsMarkerLine()
    ensures IsMarkerLine(MARKER) && forall i :: 0 <= i < |MARKER| ==> !IsTerminator(MARKER[i])
  {
    hide IsMarkerLine;
    RuledWordIsMarker("---", "---");
    assert "---" + WORD + "---" == MARKER;
  }

  /** A marker line that follows a bare carriage return does show while it streams in. */
  lemma CarriageReturnShowsMarker()
    ensures var text := "a\r" + WORD; IsFirstMarker(text, 2) && !NeverShows(text, 2)
  {
    hide IsMarkerLine;
    var text := "a\r" + WORD;
    RuledWordIsMarker("", "");
    assert "" + WORD + "" == WORD;
    assert LineEnd(text, 2) == |text| && text[2..|text|] == WORD;
    assert LineEnd(text, 0) == 1 && text[0..1] == "a";
    ShortIsNoMarker("a");
    MarkerHere(text, 0);
    MarkerHere(text, 2);
    MarkerNeverShowsIff(text, 2);
  }

  lemma ShortIsNoMarker(line: string)
    requires |line| < |WORD|
    ensures !IsMarkerLine(line)
  {
    DecorationMonotone(line, line);
  }

  /** The first marker line of a text that puts one after a body without any. */
  lemma MarkerFollows(body: string, marker: string, rest: string)
    requires HasNoMarker(body) && IsMarkerLine(marker) && (rest == "" || rest[0] == '\n')
    requires forall i :: 0 <= i < |marker| ==> !IsTerminator(marker[i])
    ensures var content, m := body + LINE + marker + rest, |body| + 1;
            FindMarker(content, 0) == Some(m) && LineEnd(content, m) == m + |marker|
  {
    hide IsMarkerLine;
    var content, m := body + LINE + marker + rest, |body| + 1;
    assert content[m..m + |marker|] == marker;
    assert forall i :: m <= i < m + |marker| ==> content[i] == marker[i - m];
    assert LineEnd(content, m) == m + |marker|;
    assert content[..|body|] == body && content[|body|] == '\n';
    forall j: nat | j < m ensures !MarkerAt(content, j) {
      MarkerOfPrefix(content, |body|, j);
    }
    FirstMarkerIsFound(content, m);
  }

  function Bullets(questions: seq<string>): (r: seq<string>)
    ensures |r| == |questions|
    ensures forall i :: 0 <= i < |r| ==> r[i] == Bullet(questions[i])
  {
    if questions == [] then [] else [Bullet(questions[0])] + Bullets(questions[1..])
  }

  ghost predicate AllQuestions(questions: seq<string>) {
    forall i :: 0 <= i < |questions| ==> IsQuestion(questions[i])
  }

  lemma BulletIsOneLine(questions: seq<string>)
    requires AllQuestions(questions) && questions != []
    ensures '\n' !in Bullet(questions[0]) && AllQuestions(questions[1..])
  {
    hide IsTrimmed;
    assert IsQuestion(questions[0]);
    assert "- "[0] != '\n' && "- "[1] != '\n';
  }

  /** The printed questions split into one line each. */
  lemma {:induction false} BulletLines(line: string, questions: seq<string>)
    requires '\n' !in line && AllQuestions(questions)
    ensures SplitOn(line + PrintQuestions(questions), LINE) == [line] + Bullets(questions)
    decreases questions
  {
    hide SplitOn, Bullet, AllQuestions;
    if questions == [] {
      NoBreak(line, "");
      assert line + PrintQuestions(questions) == line;
    } else {
      var next, rest := Bullet(questions[0]), PrintQuestions(questions[1..]);
      BulletIsOneLine(questions);
      BulletLines(next, questions[1..]);
      NoBreak(line, next + rest);
      assert line + (LINE + next + rest) == line + LINE + (next + rest);
    }
  }

  lemma Spaces()
    ensures IsSpace('\r') && IsSpace(' ') && IsSpace('\t') && !IsSpace('-')
  {}

  /** A bullet line reads back as its question. */
  lemma BulletRoundTrip(q: string)
    requires IsQuestion(q)
    ensures ChopReturn(Bullet(q)) == Bullet(q) && QuestionOf(Bullet(q)) == q != ""
  {
    hide Trim, IsSpace;
    var line := Bullet(q);
    Spaces();
    assert line[0] == '-' && line[|line| - 1] == q[|q| - 1];
    TrimOfTrimmed(line);
    assert line[1..] == " " + q && (" " + q)[1..] == q;
    assert Drop(BULLETS, line) == " " + q;
    assert Drop(BLANKS, " " + q) == q;
    TrimOfTrimmed(q);
  }

  ghost predicate AllIn(s: string, cs: string) {
    forall i :: 0 <= i < |s| ==> s[i] in cs
  }

  /** A follow-up line loses its outer space, its bullets and the space after them, and nothing else. */
  lemma QuestionTells(indent: string, bullets: string, gap: string, q: string, tail: string)
    requires AllSpace(indent) && AllSpace(tail) && AllIn(bullets, BULLETS) && AllSpace(gap)
    requires q != "" && IsTrimmed(q) && q[0] !in BULLETS && (bullets == "" ==> gap == "")
    ensures QuestionOf(indent + (bullets + (gap + q)) + tail) == q
  {
    hide Trim, IsSpace, Drop;
    var rest := gap + q;
    var core := bullets + rest;
    Spaces();
    BulletsAreNoSpace();
    assert core[|core| - 1] == q[|q| - 1] && (bullets != "" ==> core[0] == bullets[0]);
    assert bullets == "" ==> core == q;
    TrimCuts(indent, core, tail);
    assert rest[0] == (if gap == "" then q[0] else gap[0]);
    DropRun(BULLETS, bullets, rest);
    var left := BlanksGoFirst(gap, q);
    TrimCuts(left, q, "");
    assert left + q + "" == left + q;
    TrimOfTrimmed(q);
  }

  lemma {:induction false} BlanksGoFirst(gap: string, q: string) returns (left: string)
    requires AllSpace(gap) && q != "" && q[0] !in BLANKS
    ensures AllSpace(left) && Drop(BLANKS, gap + q) == left + q
  {
    hide IsSpace;
    if gap == "" {
      left := "";
      assert gap + q == q && left + q == q;
    } else if gap[0] in BLANKS {
      left := BlanksGoFirst(gap[1..], q);
      assert (gap + q)[1..] == gap[1..] + q;
    } else {
      left := gap;
    }
  }

  lemma BulletsAreNoSpace()
    ensures forall c :: c in BULLETS ==> !IsSpace(c)
    ensures forall c :: c in BLANKS ==> IsSpace(c) && c !in BULLETS
  {
    assert BULLETS == ['-', '*', '\U{2022}'] && BLANKS == [' ', '\t'];
  }

  lemma BlankLine()
    ensures ChopReturn("") == "" && QuestionOf("") == ""
  {
    hide Trim;
    TrimOfTrimmed("");
  }

  lemma {:induction false} QuestionsRoundTrip(questions: seq<string>, n: nat)
    requires AllQuestions(questions) && n <= |questions|
    ensures Questions([""] + Bullets(questions), n + 1) == questions[..n]
  {
    hide QuestionOf, ChopReturn, Bullet, IsQuestion, Bullets;
    var parts := [""] + Bullets(questions);
    if n == 0 {
      BlankLine();
      assert Questions(parts, 0) == [];
    } else {
      QuestionsRoundTrip(questions, n - 1);
      assert IsQuestion(questions[n - 1]);
      BulletRoundTrip(questions[n - 1]);
      assert parts[n] == Bullet(questions[n - 1]);
      assert questions[..n] == questions[..n - 1] + [questions[n - 1]];
    }
  }

  /** Any printable answer, stored and reloaded, comes back whole. */
  lemma AnswerRoundTrip(a: Answer)
    requires IsBody(a.body) && AllQuestions(a.followups)
    ensures Reload(PrintAnswer(a)) == a
  {
    hide FindMarker, IsMarkerLine, Questions, BodyBefore, IsBody, HasNoMarker, SplitOn, Bullets, AllQuestions, PrintQuestions;
    assert HasNoMarker(a.body) by { BodyHasNoMarker(a.body); }
    var content, m, rest := PrintAnswer(a), |a.body| + 1, PrintQuestions(a.followups);
    MarkerIsMarkerLine();
    MarkerFollows(a.body, MARKER, rest);
    assert content[m + |MARKER|..] == rest == "" + rest;
    BulletLines("", a.followups);
    QuestionsRoundTrip(a.followups, |a.followups|);
    assert a.followups[..|a.followups|] == a.followups;
    BodyBeforeBreak(content, a.body);
  }

  lemma BodyHasNoMarker(body: string)
    requires IsBody(body)
    ensures HasNoMarker(body)
  {}

  lemma BodyBeforeBreak(content: string, body: string)
    requires IsBody(body) && |body| + 1 <= |content| && content[..|body| + 1] == body + LINE
    ensures BodyBefore(content, |body| + 1) == body
  {
    hide CutTail;
    assert (body + LINE)[..|body|] == body;
    assert IsSpace('\n');
    assert TrimEnd(body + LINE) == TrimEnd(body);
  }

  /******* A horizontal rule above the marker *******/

  predicate IsPlainRule(rule: string) {
    |rule| >= 3 && forall i :: 0 <= i < |rule| ==> rule[i] in RULES
  }

  lemma RuleFacts(rule: string)
    requires IsPlainRule(rule)
    ensures IsRuleLine(rule) && !IsMarkerLine(rule) && IsPartialTail(rule)
    ensures forall i :: 0 <= i < |rule| ==> !IsTerminator(rule[i]) && !IsSpace(rule[i])
  {
    DropRun(BLANKS, "", rule);
    assert "" + rule == rule;
    DropRun(RULES, rule, "");
    assert rule + "" == rule;
    DropRun(BLANKS, "", "");
    assert "" + "" == "";
  }

  lemma RuledBodyHasNoMarker(body: string, rule: string)
    requires HasNoMarker(body) && IsPlainRule(rule)
    ensures HasNoMarker(body + LINE + rule)
  {
    hide IsMarkerLine, IsPlainRule, IsSpace;
    RuleFacts(rule);
    var p, m := body + LINE + rule, |body| + 1;
    assert p[..|body|] == body && p[|body|] == '\n' && p[m..] == rule;
    assert forall i :: m <= i < |p| ==> p[i] == rule[i - m];
    assert LineEnd(p, m) == |p|;
    forall j: nat | j <= m ensures !MarkerAt(p, j) {
      if j < m {
        MarkerOfPrefix(p, |body|, j);
      } else {
        assert p[m..LineEnd(p, m)] == rule;
      }
    }
    NoMarkerWithin(p, m);
  }

  lemma RuleIsCut(body: string, rule: string)
    requires TrimEnd(body) == body && IsPlainRule(rule)
    ensures TrimEnd(CutTail(TrimEnd(body + LINE + rule + LINE), IsRuleLine)) == body
  {
    hide IsRuleLine, IsSpace;
    RuleFacts(rule);
    var p := body + LINE + rule;
    assert (p + LINE)[..|p|] == p && p[|p| - 1] == rule[|rule| - 1];
    assert TrimEnd(p + LINE) == p by {
      LineIsSpace();
      TrimEndAppend(p, LINE);
    }
    assert p[|body|] == '\n' && p[|body| + 1..] == rule && p[..|body|] == body;
    LastBreakIs(p, |body|);
  }

  /** A rule line between body and marker disappears with the block, whatever the body ends with. */
  lemma RuledAnswerRoundTrip(a: Answer, rule: string)
    requires HasNoMarker(a.body) && TrimEnd(a.body) == a.body && AllQuestions(a.followups) && IsPlainRule(rule)
    ensures Reload(PrintAnswer(a.(body := a.body + LINE + rule))) == a
  {
    hide FindMarker, IsMarkerLine, Questions, HasNoMarker, SplitOn, Bullets, AllQuestions, PrintQuestions, TrimEnd,
      CutTail, IsPlainRule;
    var body, rest := a.body + LINE + rule, PrintQuestions(a.followups);
    var content, m := body + LINE + MARKER + rest, |body| + 1;
    RuledBodyHasNoMarker(a.body, rule);
    MarkerIsMarkerLine();
    MarkerFollows(body, MARKER, rest);
    assert content[m + |MARKER|..] == rest == "" + rest;
    BulletLines("", a.followups);
    QuestionsRoundTrip(a.followups, |a.followups|);
    assert a.followups[..|a.followups|] == a.followups;
    assert content[..m] == a.body + LINE + rule + LINE;
    RuleIsCut(a.body, rule);
  }

  /** An answer that ends with a rule line shows it after reload and not before. */
  lemma RuleTailDiffers(body: string, rule: string)
    requires HasNoMarker(body) && TrimEnd(body) == body && IsPlainRule(rule)
    ensures var content := body + LINE + rule;
            StripFollowupBlock(content) == body && Reload(content).body == content
  {
    hide MarkerAt, FindMarker, CutTail, TrimEnd, IsPlainRule, BodyBefore, Questions;
    var content := body + LINE + rule;
    RuledBodyHasNoMarker(body, rule);
    FindMarkerFinds(content, 0);
    RuleTailIsCut(body, rule);
  }

  lemma RuleTailIsCut(body: string, rule: string)
    requires IsPlainRule(rule)
    ensures var content := body + LINE + rule;
            CutTail(content, IsPartialTail) == body && TrimEnd(content) == content
  {
    hide IsPartialTail, IsRuleLine, IsMarkerLine, IsSpace;
    var content := body + LINE + rule;
    RuleFacts(rule);
    assert content[|body|] == '\n' && content[|body| + 1..] == rule && content[..|body|] == body;
    assert forall j :: |body| < j < |content| ==> content[j] == rule[j - |body| - 1];
    LastBreakIs(content, |body|);
    TrimEndKeeps(content);
  }

  /** "a" and a rule of three hyphens: live "a", reloaded with the rule. */
  lemma HyphensDiffer()
    ensures StripFollowupBlock("a\n---") == "a" && Reload("a\n---").body == "a\n---"
  {
    hide MarkerAt, FindMarker, StripFollowupBlock, Reload;
    OneLetterHasNoMarker();
    assert "a" + LINE + "---" == "a\n---";
    RuleTailDiffers("a", "---");
  }

  lemma OneLetterHasNoMarker()
    ensures HasNoMarker("a") && TrimEnd("a") == "a"
  {
    hide IsMarkerLine;
    forall j: nat ensures !MarkerAt("a", j) {
      if j == 0 {
        ShortIsNoMarker("a"[0..LineEnd("a", 0)]);
      } else if j == 1 {
        assert !IsTerminator("a"[0]);
      }
    }
    assert !IsSpace('a');
  }
}
