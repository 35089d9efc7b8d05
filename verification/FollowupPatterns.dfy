/** The scanners accept exactly the patterns: a line matches if it can be cut into the pattern's parts. */
module FollowupPatterns {
  import opened Wrappers
  import opened Texts
  import opened FollowupBlock

  predicate Blank(s: string) {
    forall i :: 0 <= i < |s| ==> s[i] == ' ' || s[i] == '\t'
  }

  predicate Rule(s: string) {
    forall i :: 0 <= i < |s| ==> s[i] == '-' || s[i] == '*' || s[i] == '_'
  }

  /** A beginning of the marker word, in any case. */
  predicate Spells(s: string) {
    && |s| <= 5
    && (|s| > 0 ==> s[0] == 's' || s[0] == 'S')
    && (|s| > 1 ==> s[1] == 'u' || s[1] == 'U')
    && (|s| > 2 ==> s[2] == 'i' || s[2] == 'I')
    && (|s| > 3 ==> s[3] == 'v' || s[3] == 'V')
    && (|s| > 4 ==> s[4] == 'i' || s[4] == 'I')
  }

  /** Blanks, rule characters, blanks. */
  ghost predicate Decorates(s: string) {
    exists a, b, c :: Cut3(s, a, b, c) && Blank(a) && Rule(b) && Blank(c)
  }

  predicate Cut3(s: string, a: string, b: string, c: string) {
    s == a + b + c
  }

  /** Decoration, then `n` or more letters of the word from its start, then decoration. */
  ghost predicate Matches(line: string, n: nat) {
    exists a, w, b :: Cut3(line, a, w, b) && Decorates(a) && Spells(w) && |w| >= n && Decorates(b)
  }

  /** Blanks, at least three rule characters, blanks. */
  ghost predicate IsRule(line: string) {
    exists a, b, c :: Cut3(line, a, b, c) && Blank(a) && Rule(b) && |b| >= 3 && Blank(c)
  }

  /******* What the scanners drop *******/

  predicate AllIn(s: string, cs: string) {
    forall i :: 0 <= i < |s| ==> s[i] in cs
  }

  /** A scanner drops the longest run. */
  lemma {:induction false} DropCuts(cs: string, s: string) returns (run: string)
    ensures s == run + Drop(cs, s) && AllIn(run, cs)
    ensures Drop(cs, s) == "" || Drop(cs, s)[0] !in cs
  {
    if s != "" && s[0] in cs {
      var rest := DropCuts(cs, s[1..]);
      run := [s[0]] + rest;
    } else {
      run := "";
    }
  }

  lemma Classes(s: string)
    ensures Blank(s) <==> AllIn(s, BLANKS)
    ensures Rule(s) <==> AllIn(s, RULES)
  {
    assert BLANKS == [' ', '\t'] && RULES == ['-', '*', '_'];
  }

  /** Neither a blank nor a rule character comes first. */
  predicate StartsPlain(s: string) {
    s == "" || (s[0] !in BLANKS && s[0] !in RULES)
  }

  lemma DecorationCuts(s: string) returns (d: string)
    ensures s == d + Decoration(s) && Decorates(d)
  {
    hide Drop;
    var a := DropCuts(BLANKS, s);
    var t := Drop(BLANKS, s);
    var b := DropCuts(RULES, t);
    var u := Drop(RULES, t);
    var c := DropCuts(BLANKS, u);
    Classes(a);
    Classes(b);
    Classes(c);
    d := a + b + c;
    assert Cut3(d, a, b, c);
  }

  lemma DecorationDrops(d: string, rest: string)
    requires Decorates(d) && StartsPlain(rest)
    ensures Decoration(d + rest) == rest
  {
    hide Drop;
    var a, b, c :| Cut3(d, a, b, c) && Blank(a) && Rule(b) && Blank(c);
    Classes(a);
    Classes(b);
    Classes(c);
    ThreeRuns(a, b, c, rest);
    assert d + rest == a + (b + (c + rest));
  }

  lemma ThreeRuns(a: string, b: string, c: string, rest: string)
    requires AllIn(a, BLANKS) && AllIn(b, RULES) && AllIn(c, BLANKS) && StartsPlain(rest)
    ensures Decoration(a + (b + (c + rest))) == rest
  {
    hide Drop;
    DropRun(BLANKS, c, rest);
    assert BLANKS == [' ', '\t'] && RULES == ['-', '*', '_'];
    if b == "" {
      assert b + (c + rest) == c + rest && a + (c + rest) == (a + c) + rest;
      DropRun(BLANKS, a + c, rest);
      DropRun(RULES, "", rest);
      assert "" + rest == rest;
      DropRun(BLANKS, "", rest);
    } else {
      assert (b + (c + rest))[0] == b[0];
      DropRun(BLANKS, a, b + (c + rest));
      assert c != "" ==> (c + rest)[0] == c[0];
      assert c == "" ==> c + rest == rest;
      DropRun(RULES, b, c + rest);
    }
  }

  /******* The word *******/

  lemma UpperTells(c: char)
    ensures Upper(c) == 'S' <==> c == 's' || c == 'S'
    ensures Upper(c) == 'U' <==> c == 'u' || c == 'U'
    ensures Upper(c) == 'I' <==> c == 'i' || c == 'I'
    ensures Upper(c) == 'V' <==> c == 'v' || c == 'V'
  {}

  /** `s` spells a beginning of `w`, ignoring case. */
  predicate Begins(s: string, w: string) {
    |s| <= |w| && forall i :: 0 <= i < |s| ==> Upper(s[i]) == w[i]
  }

  lemma SpellsIffBegins(s: string)
    ensures Spells(s) <==> Begins(s, WORD)
  {
    hide Upper;
    forall c: char
      ensures && (Upper(c) == 'S' <==> c == 's' || c == 'S') && (Upper(c) == 'U' <==> c == 'u' || c == 'U')
              && (Upper(c) == 'I' <==> c == 'i' || c == 'I') && (Upper(c) == 'V' <==> c == 'v' || c == 'V')
    {
      UpperTells(c);
    }
    assert WORD == ['S', 'U', 'I', 'V', 'I'];
    if Begins(s, WORD) {
      assert |s| > 0 ==> Upper(s[0]) == WORD[0];
      assert |s| > 1 ==> Upper(s[1]) == WORD[1];
      assert |s| > 2 ==> Upper(s[2]) == WORD[2];
      assert |s| > 3 ==> Upper(s[3]) == WORD[3];
      assert |s| > 4 ==> Upper(s[4]) == WORD[4];
    }
  }

  lemma {:induction false} DropWordCuts(w: string, s: string) returns (run: string)
    ensures s == run + DropWord(w, s) && Begins(run, w)
  {
    if s != "" && w != "" && Upper(s[0]) == w[0] {
      var rest := DropWordCuts(w[1..], s[1..]);
      run := [s[0]] + rest;
    } else {
      run := "";
    }
  }

  /** The word is dropped as far as it goes, if something else or nothing follows. */
  lemma {:induction false} DropWordRun(w: string, run: string, rest: string)
    requires Begins(run, w) && (|run| == |w| || rest == "" || Upper(rest[0]) != w[|run|])
    ensures DropWord(w, run + rest) == rest
  {
    if run == "" {
      assert run + rest == rest;
    } else {
      assert Upper(run[0]) == w[0];
      assert forall i :: 0 <= i < |run[1..]| ==> Upper(run[1..][i]) == w[1..][i];
      DropWordRun(w[1..], run[1..], rest);
      assert (run + rest)[1..] == run[1..] + rest;
    }
  }

  lemma LettersStartPlain(w: string, rest: string)
    requires Spells(w) && w != ""
    ensures StartsPlain(w + rest)
  {
    assert (w + rest)[0] == w[0];
    assert BLANKS == [' ', '\t'] && RULES == ['-', '*', '_'];
  }

  /** A decoration does not go on spelling the word. */
  lemma DecorationIsNoLetter(d: string, k: nat)
    requires Decorates(d) && d != "" && k < |WORD|
    ensures Upper(d[0]) != WORD[k]
  {
    var a, b, c :| Cut3(d, a, b, c) && Blank(a) && Rule(b) && Blank(c);
    assert d[0] == (if a != "" then a[0] else if b != "" then b[0] else c[0]);
    UpperTells(d[0]);
    assert WORD == ['S', 'U', 'I', 'V', 'I'];
  }

  lemma DecorationVanishes(d: string)
    requires Decorates(d)
    ensures Decoration(d) == ""
  {
    hide Decoration, Decorates;
    DecorationDrops(d, "");
    assert d + "" == d;
  }

  lemma WordIsDropped(w: string, b: string)
    requires Spells(w) && Decorates(b)
    ensures DropWord(WORD, w + b) == b
  {
    hide Decoration, DropWord, Decorates, Spells, Begins, Upper;
    SpellsIffBegins(w);
    BeginsIsNoLonger(w);
    if b != "" && |w| < |WORD| {
      DecorationIsNoLetter(b, |w|);
    }
    DropWordRun(WORD, w, b);
  }

  lemma BeginsIsNoLonger(w: string)
    requires Begins(w, WORD)
    ensures |w| <= |WORD|
  {}

  lemma CutFromRight(line: string, a: string, w: string, b: string)
    requires Cut3(line, a, w, b)
    ensures line == a + (w + b)
  {}

  lemma ScanOfCut(line: string, a: string, w: string, b: string)
    requires Cut3(line, a, w, b) && Decorates(a) && Spells(w) && Decorates(b) && w != ""
    ensures Decoration(line) == w + b && DropWord(WORD, w + b) == b && Decoration(b) == ""
  {
    hide Decoration, DropWord, Decorates, Spells, StartsPlain, Cut3;
    CutFromRight(line, a, w, b);
    LettersStartPlain(w, b);
    DecorationDrops(a, w + b);
    WordIsDropped(w, b);
    DecorationVanishes(b);
  }

  /** Two decorations in a row, without a letter between them. */
  lemma TwoDecorations(a: string, b: string)
    requires Decorates(a) && Decorates(b)
    ensures Decoration(DropWord(WORD, Decoration(a + b))) == ""
  {
    hide Decoration, DropWord, Blank, Rule;
    var p, q, c :| Cut3(a, p, q, c) && Blank(p) && Rule(q) && Blank(c);
    var d, t, u :| Cut3(b, d, t, u) && Blank(d) && Rule(t) && Blank(u);
    assert a + b == p + q + (c + d) + t + u;
    JoinedBlanks(c, d);
    FiveRuns(p, q, c + d, t, u);
  }

  lemma JoinedBlanks(c: string, d: string)
    requires Blank(c) && Blank(d)
    ensures Blank(c + d)
  {}

  lemma JoinedRules(c: string, d: string)
    requires Rule(c) && Rule(d)
    ensures Rule(c + d)
  {}

  lemma IsDecoration(p: string, q: string, r: string)
    requires Blank(p) && Rule(q) && Blank(r)
    ensures Decorates(p + q + r)
  {
    assert Cut3(p + q + r, p, q, r);
  }

  lemma FiveRuns(p: string, q: string, r: string, t: string, u: string)
    requires Blank(p) && Rule(q) && Blank(r) && Rule(t) && Blank(u)
    ensures Decoration(DropWord(WORD, Decoration(p + q + r + t + u))) == ""
  {
    hide Decoration, DropWord, Blank, Rule, Decorates;
    var s := p + q + r + t + u;
    if q == "" || r == "" || t == "" {
      if q == "" {
        JoinedBlanks(p, r);
        IsDecoration(p + r, t, u);
        assert s == p + r + t + u;
      } else if r == "" {
        JoinedRules(q, t);
        IsDecoration(p, q + t, u);
        assert s == p + (q + t) + u;
      } else {
        JoinedBlanks(r, u);
        IsDecoration(p, q, r + u);
        assert s == p + q + (r + u);
      }
      DecorationVanishes(s);
      EmptyScans();
    } else {
      RuleStarts(t, u);
      SecondRunIsLeft(p, q, r, t + u);
      assert s == p + (q + (r + (t + u)));
      NoBlank();
      IsDecoration("", t, u);
      assert "" + t + u == t + u;
      SpellsNothing();
      WordIsDropped("", t + u);
      assert "" + (t + u) == t + u;
      DecorationVanishes(t + u);
    }
  }

  lemma RuleStarts(t: string, u: string)
    requires Rule(t) && t != ""
    ensures (t + u)[0] in RULES
  {
    Classes(t);
  }

  lemma NoBlank()
    ensures Blank("")
  {}

  lemma SpellsNothing()
    ensures Spells("")
  {}

  lemma EmptyScans()
    ensures Decoration(DropWord(WORD, "")) == ""
  {}

  lemma SecondRunIsLeft(p: string, q: string, r: string, rest: string)
    requires Blank(p) && Rule(q) && Blank(r) && q != "" && r != "" && rest != "" && rest[0] in RULES
    ensures Decoration(p + (q + (r + rest))) == rest
  {
    hide Drop;
    Classes(p);
    Classes(q);
    Classes(r);
    assert BLANKS == [' ', '\t'] && RULES == ['-', '*', '_'];
    assert (q + (r + rest))[0] == q[0] && (r + rest)[0] == r[0];
    DropRun(BLANKS, p, q + (r + rest));
    DropRun(RULES, q, r + rest);
    DropRun(BLANKS, r, rest);
  }

  lemma CutOfScan(line: string) returns (a: string, w: string, b: string)
    requires Decoration(DropWord(WORD, Decoration(line))) == ""
    ensures Cut3(line, a, w, b) && Decorates(a) && Spells(w) && Decorates(b)
    ensures |w| == |Decoration(line)| - |DropWord(WORD, Decoration(line))|
  {
    hide Decoration, DropWord, Decorates, Spells;
    a := DecorationCuts(line);
    w := DropWordCuts(WORD, Decoration(line));
    SpellsIffBegins(w);
    b := DecorationCuts(DropWord(WORD, Decoration(line)));
    assert b + "" == b;
  }

  /** A marker line is decoration, the whole word in any case, decoration. */
  lemma MarkerLineIff(line: string)
    ensures IsMarkerLine(line) <==> Matches(line, 5)
  {
    hide Decoration, DropWord, Decorates, Spells;
    if IsMarkerLine(line) {
      var a, w, b := CutOfScan(line);
    }
    if a, w, b :| Cut3(line, a, w, b) && Decorates(a) && Spells(w) && |w| >= 5 && Decorates(b) {
      ScanOfCut(line, a, w, b);
      SpellsAtMost(w);
    }
  }

  lemma SpellsAtMost(w: string)
    requires Spells(w)
    ensures |w| <= 5
  {}

  /** Line feed, carriage return, line separator, paragraph separator. */
  predicate Terminates(c: char) {
    var n := c as int;
    n == 0x0A || n == 0x0D || n == 0x2028 || n == 0x2029
  }

  /** The text between `i` and `e` is a whole line. */
  ghost predicate IsLine(s: string, i: nat, e: nat) {
    && i <= e <= |s| && (i == 0 || Terminates(s[i - 1])) && (e == |s| || Terminates(s[e]))
    && forall j :: i <= j < e ==> !Terminates(s[j])
  }

  /** A marker starts at `i` exactly when a whole line from there matches the pattern. */
  lemma MarkerAtIff(s: string, i: nat)
    ensures MarkerAt(s, i) <==> exists e: nat :: IsLine(s, i, e) && Matches(s[i..e], 5)
  {
    hide IsMarkerLine, Matches;
    assert forall c: char :: Terminates(c) <==> IsTerminator(c);
    if i <= |s| {
      MarkerLineIff(s[i..LineEnd(s, i)]);
      if i == 0 || IsTerminator(s[i - 1]) {
        assert IsLine(s, i, LineEnd(s, i));
      }
      forall e: nat | IsLine(s, i, e) ensures e == LineEnd(s, i) {
      }
    }
  }

  /** A partial tail is decoration, any beginning of the word, decoration. */
  lemma PartialTailIff(tail: string)
    ensures IsPartialTail(tail) <==> Matches(tail, 0)
  {
    hide Decoration, DropWord, Decorates, Spells;
    if IsPartialTail(tail) {
      var a, w, b := CutOfScan(tail);
    }
    if a, w, b :| Cut3(tail, a, w, b) && Decorates(a) && Spells(w) && |w| >= 0 && Decorates(b) {
      if w == "" {
        assert tail == a + b;
        TwoDecorations(a, b);
      } else {
        ScanOfCut(tail, a, w, b);
      }
    }
  }

  /** A rule line is at least three rule characters between blanks. */
  lemma RuleLineIff(line: string)
    ensures IsRuleLine(line) <==> IsRule(line)
  {
    hide Drop;
    if IsRuleLine(line) {
      var a := DropCuts(BLANKS, line);
      var t := Drop(BLANKS, line);
      var b := DropCuts(RULES, t);
      var c := DropCuts(BLANKS, Drop(RULES, t));
      Classes(a);
      Classes(b);
      Classes(c);
      assert c + "" == c;
      assert Cut3(line, a, b, c);
    }
    if a, b, c :| Cut3(line, a, b, c) && Blank(a) && Rule(b) && |b| >= 3 && Blank(c) {
      RuleScans(line, a, b, c);
    }
  }

  lemma RuleScans(line: string, a: string, b: string, c: string)
    requires Cut3(line, a, b, c) && Blank(a) && Rule(b) && |b| >= 3 && Blank(c)
    ensures IsRuleLine(line)
  {
    hide Drop;
    Classes(a);
    Classes(b);
    Classes(c);
    assert BLANKS == [' ', '\t'] && RULES == ['-', '*', '_'];
    assert line == a + (b + c) && (b + c)[0] == b[0];
    DropRun(BLANKS, a, b + c);
    DropRun(RULES, b, c);
    assert c + "" == c;
    DropRun(BLANKS, c, "");
  }
}
