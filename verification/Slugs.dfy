/** Slug generation from arbitrary Drive names. */
module Slugs {
  const MAX_LEN: nat := 80
  /** Length of the identifier prefix used in fallbacks and collision suffixes. */
  const ID_PREFIX: nat := 8

  predicate IsAlnum(c: char) {
    'a' <= c <= 'z' || '0' <= c <= '9'
  }

  predicate IsSlugText(s: string) {
    forall i :: 0 <= i < |s| ==> IsAlnum(s[i]) || s[i] == '-'
  }

  predicate HasDoubleHyphen(s: string) {
    exists i :: 0 <= i < |s| - 1 && s[i] == '-' && s[i + 1] == '-'
  }

  /** The normal form of a slug. */
  predicate IsNormal(s: string) {
    && 0 < |s| <= MAX_LEN
    && IsSlugText(s) && !HasDoubleHyphen(s)
    && s[0] != '-' && s[|s| - 1] != '-'
  }

  /** ASCII without capital letters. */
  predicate IsPlainAscii(s: string) {
    forall i :: 0 <= i < |s| ==> s[i] as int < 128 && !('A' <= s[i] <= 'Z')
  }

  /**
   Dash translation, NFKD, dropping combining marks and lowering, taken as one
   function: it leaves lower-case ASCII alone and keeps the literal prefix "file-".
   */
  ghost predicate IsFold(fold: string -> string) {
    && (forall s :: IsPlainAscii(s) ==> fold(s) == s)
    && (forall s :: "file-" <= s ==> "file-" <= fold(s))
  }

  lemma FoldKeeps(fold: string -> string, s: string)
    requires IsFold(fold)
    ensures IsSlugText(s) ==> fold(s) == s
    ensures "file-" <= s ==> fold(s) != "" && fold(s)[0] == 'f'
  {
    assert IsSlugText(s) ==> IsPlainAscii(s);
    if "file-" <= s {
      assert fold(s)[0] == "file-"[0];
    }
  }

  /** Drops the leading run of characters outside a-z and 0-9. */
  function SkipOthers(s: string): (r: string)
    ensures |r| <= |s| && (r == "" || IsAlnum(r[0]))
  {
    if s == "" || IsAlnum(s[0]) then s else SkipOthers(s[1..])
  }

  /** re.sub("[^a-z0-9]+", "-", s). */
  function ReplaceOthers(s: string): (r: string)
    ensures IsSlugText(r) && !HasDoubleHyphen(r)
    ensures s != "" && IsAlnum(s[0]) ==> r != "" && r[0] == s[0]
    decreases |s|
  {
    if s == "" then ""
    else if IsAlnum(s[0]) then [s[0]] + ReplaceOthers(s[1..])
    else
      var rest := ReplaceOthers(SkipOthers(s[1..]));
      assert SkipOthers(s[1..]) == "" ==> rest == "";
      "-" + rest
  }

  /** re.sub("-{2,}", "-", s). */
  function Collapse(s: string): string {
    if |s| >= 2 && s[0] == '-' && s[1] == '-' then Collapse(s[1..])
    else if s == "" then "" else [s[0]] + Collapse(s[1..])
  }

  function StripLeft(s: string): (r: string)
    ensures |r| <= |s| && r == s[|s| - |r|..] && (r == "" || r[0] != '-')
  {
    if s != "" && s[0] == '-' then StripLeft(s[1..]) else s
  }

  function StripRight(s: string): (r: string)
    ensures r <= s && (r == "" || r[|r| - 1] != '-')
  {
    if s != "" && s[|s| - 1] == '-' then StripRight(s[..|s| - 1]) else s
  }

  /** s.strip("-"). */
  function Strip(s: string): string {
    StripRight(StripLeft(s))
  }

  function Prefix(s: string, n: nat): string {
    if n < |s| then s[..n] else s
  }

  function Fallback(id: string): string {
    "file-" + Prefix(id, ID_PREFIX)
  }

  function Capped(fold: string -> string, text: string): string {
    Strip(Prefix(Strip(Collapse(ReplaceOthers(fold(text)))), MAX_LEN))
  }

  function Slugify(fold: string -> string, text: string, id: string): string {
    var capped := Capped(fold, text);
    if capped == "" then Fallback(id) else capped
  }

  /******* Normal form *******/

  lemma {:induction false} CollapseIsIdentity(s: string)
    requires !HasDoubleHyphen(s)
    ensures Collapse(s) == s
  {
    if s != "" {
      assert !HasDoubleHyphen(s[1..]);
      CollapseIsIdentity(s[1..]);
    }
  }

  /** What stripping and capping keep: the text is a contiguous part of the argument. */
  lemma PartsStayClean(s: string, i: nat, j: nat)
    requires i <= j <= |s| && IsSlugText(s) && !HasDoubleHyphen(s)
    ensures IsSlugText(s[i..j]) && !HasDoubleHyphen(s[i..j])
  {
  }

  lemma StripIsClean(s: string)
    requires IsSlugText(s) && !HasDoubleHyphen(s)
    ensures var r := Strip(s);
            && IsSlugText(r) && !HasDoubleHyphen(r) && |r| <= |s|
            && (r != "" ==> r[0] != '-' && r[|r| - 1] != '-')
  {
    var l := StripLeft(s);
    PartsStayClean(s, |s| - |l|, |s|);
    var r := StripRight(l);
    PartsStayClean(l, 0, |r|);
    assert r == l[0..|r|];
  }

  lemma CappedIsNormal(fold: string -> string, text: string)
    ensures var c := Capped(fold, text); |c| <= 80 && (c == "" || IsNormal(c))
  {
    var replaced := ReplaceOthers(fold(text));
    CollapseIsIdentity(replaced);
    var stripped := Strip(replaced);
    StripIsClean(replaced);
    var cut := Prefix(stripped, MAX_LEN);
    PartsStayClean(stripped, 0, |cut|);
    assert cut == stripped[0..|cut|];
    StripIsClean(cut);
  }

  /** One slugification yields the normal form or the raw-identifier fallback. */
  lemma SlugifyIsNormalOrFallback(fold: string -> string, text: string, id: string)
    ensures var r := Slugify(fold, text, id); IsNormal(r) || r == Fallback(id)
  {
    CappedIsNormal(fold, text);
  }

  lemma {:induction false} ReplaceKeepsNormal(s: string)
    requires IsSlugText(s) && !HasDoubleHyphen(s)
    requires s == "" || s[|s| - 1] != '-'
    ensures ReplaceOthers(s) == s
    decreases |s|
  {
    if s != "" {
      assert IsSlugText(s[1..]) && !HasDoubleHyphen(s[1..]);
      ReplaceKeepsNormal(s[1..]);
      if s[0] == '-' {
        assert s[1] != '-';
        assert SkipOthers(s[1..]) == s[1..];
      }
    }
  }

  /** A normal form is its own slug. */
  lemma NormalIsFixed(fold: string -> string, s: string, id: string)
    requires IsFold(fold) && IsNormal(s)
    ensures Slugify(fold, s, id) == s
  {
    hide IsFold;
    FoldKeeps(fold, s);
    ReplaceKeepsNormal(s);
    CollapseIsIdentity(s);
    assert StripLeft(s) == s && StripRight(s) == s;
    assert Prefix(s, MAX_LEN) == s;
  }

  /** Text that starts with "file-" never slugifies to nothing. */
  lemma FileTextIsNotEmpty(fold: string -> string, s: string)
    requires IsFold(fold) && "file-" <= s
    ensures Capped(fold, s) != ""
  {
    hide IsFold, Capped;
    FoldKeeps(fold, s);
    assert Letters(fold(s)) != "";
    SlugSpellsText(fold, s, "");
  }

  lemma {:induction false} StripKeepsHead(s: string)
    requires s != "" && s[0] != '-'
    ensures Strip(s) != "" && Strip(s)[0] == s[0]
  {
    assert StripLeft(s) == s;
    StripRightKeepsHead(s);
  }

  lemma {:induction false} StripRightKeepsHead(s: string)
    requires s != "" && s[0] != '-'
    ensures StripRight(s) != "" && StripRight(s)[0] == s[0]
  {
    if s[|s| - 1] == '-' {
      StripRightKeepsHead(s[..|s| - 1]);
    }
  }

  /** Two slugifications always yield the normal form, even through the fallback. */
  lemma DoubleSlugIsNormal(fold: string -> string, text: string, id: string)
    requires IsFold(fold)
    ensures IsNormal(Slugify(fold, Slugify(fold, text, id), id))
  {
    var once := Slugify(fold, text, id);
    SlugifyIsNormalOrFallback(fold, text, id);
    if IsNormal(once) {
      NormalIsFixed(fold, once, id);
    } else {
      FileTextIsNotEmpty(fold, once);
      CappedIsNormal(fold, once);
    }
  }

  /** A text is its own slug exactly when it is in normal form. */
  lemma FixedIffNormal(fold: string -> string, s: string, id: string)
    requires IsFold(fold)
    ensures Slugify(fold, s, id) == s <==> IsNormal(s)
  {
    if IsNormal(s) {
      NormalIsFixed(fold, s, id);
    }
    DoubleSlugIsNormal(fold, s, id);
  }

  /******* Content *******/

  /** The letters and digits of a text, in order. */
  function Letters(s: string): string {
    if s == "" then "" else (if IsAlnum(s[0]) then [s[0]] else "") + Letters(s[1..])
  }

  lemma AssociativeConcat(a: string, b: string, c: string)
    ensures a + (b + c) == a + b + c
  {}

  lemma {:induction false} LettersOfConcat(a: string, b: string)
    ensures Letters(a + b) == Letters(a) + Letters(b)
  {
    hide IsAlnum;
    if a == "" {
      assert a + b == b;
    } else {
      var head := if IsAlnum(a[0]) then [a[0]] else "";
      assert (a + b)[1..] == a[1..] + b && (a + b)[0] == a[0];
      LettersOfConcat(a[1..], b);
      AssociativeConcat(head, Letters(a[1..]), Letters(b));
    }
  }

  lemma {:induction false} SkipKeepsLetters(s: string)
    ensures Letters(SkipOthers(s)) == Letters(s)
  {
    if s != "" && !IsAlnum(s[0]) {
      SkipKeepsLetters(s[1..]);
    }
  }

  lemma {:induction false} ReplaceKeepsLetters(s: string)
    ensures Letters(ReplaceOthers(s)) == Letters(s)
    decreases |s|
  {
    if s == "" {
    } else if IsAlnum(s[0]) {
      ReplaceKeepsLetters(s[1..]);
      assert ReplaceOthers(s)[1..] == ReplaceOthers(s[1..]);
    } else {
      SkipKeepsLetters(s[1..]);
      ReplaceKeepsLetters(SkipOthers(s[1..]));
      assert ReplaceOthers(s)[1..] == ReplaceOthers(SkipOthers(s[1..]));
    }
  }

  lemma {:induction false} StripKeepsLetters(s: string)
    ensures Letters(Strip(s)) == Letters(s)
  {
    StripLeftKeepsLetters(s);
    StripRightKeepsLetters(StripLeft(s));
  }

  lemma {:induction false} StripLeftKeepsLetters(s: string)
    ensures Letters(StripLeft(s)) == Letters(s)
  {
    if s != "" && s[0] == '-' {
      StripLeftKeepsLetters(s[1..]);
    }
  }

  lemma {:induction false} StripRightKeepsLetters(s: string)
    ensures Letters(StripRight(s)) == Letters(s)
  {
    if s != "" && s[|s| - 1] == '-' {
      var t := s[..|s| - 1];
      StripRightKeepsLetters(t);
      assert s == t + "-";
      LettersOfConcat(t, "-");
      assert Letters("-") == "";
    }
  }

  lemma StripNothing()
    ensures Strip("") == ""
  {}

  /** Slug text that starts with no hyphen is empty exactly when it has no letters. */
  lemma StrippedIsEmptyIff(s: string)
    requires s == "" || (IsSlugText(s) && s[0] != '-')
    ensures s == "" <==> Letters(s) == ""
  {}

  /**
   The slug spells the letters and digits of the folded text, in order, up to the
   cap; the identifier fallback is used exactly when there are none.
   */
  lemma SlugSpellsText(fold: string -> string, text: string, id: string)
    ensures Letters(Capped(fold, text)) <= Letters(fold(text))
    ensures |ReplaceOthers(fold(text))| <= 80 ==> Letters(Capped(fold, text)) == Letters(fold(text))
    ensures Capped(fold, text) == "" <==> Letters(fold(text)) == ""
  {
    hide ReplaceOthers, Collapse, Letters, Strip, IsSlugText, HasDoubleHyphen;
    var replaced := ReplaceOthers(fold(text));
    ReplaceKeepsLetters(fold(text));
    CollapseIsIdentity(replaced);
    StripKeepsLetters(replaced);
    StripIsClean(replaced);
    var stripped := Strip(replaced);
    var cut := Prefix(stripped, MAX_LEN);
    assert stripped == cut + stripped[|cut|..];
    LettersOfConcat(cut, stripped[|cut|..]);
    StripKeepsLetters(cut);
    StrippedIsEmptyIff(stripped);
    StripNothing();
    if stripped != "" {
      StripKeepsHead(cut);
    }
  }

  /******* What is promised of every slug *******/

  lemma FallbackIsSlugText(p: string)
    ensures IsSlugText("file-" + p) <==> IsSlugText(p)
  {
    var s := "file-" + p;
    assert forall i :: 0 <= i < |p| ==> s[i + 5] == p[i];
    assert forall i :: 5 <= i < |s| ==> s[i] == p[i - 5];
    assert s[0] == 'f' && s[1] == 'i' && s[2] == 'l' && s[3] == 'e' && s[4] == '-';
  }

  /**
   The promised shape, slug characters only, is met exactly when the folded text has a
   letter or digit or the start of the identifier is made of slug characters.
   */
  lemma PromisedShapeIff(fold: string -> string, text: string, id: string)
    ensures IsSlugText(Slugify(fold, text, id)) <==>
            Letters(fold(text)) != "" || IsSlugText(Prefix(id, ID_PREFIX))
  {
    hide Capped, Letters;
    SlugSpellsText(fold, text, id);
    CappedIsNormal(fold, text);
    FallbackIsSlugText(Prefix(id, ID_PREFIX));
  }

  /** A title without letters or digits and an identifier with a capital letter. */
  lemma PromisedShapeBroken(fold: string -> string)
    requires IsFold(fold)
    ensures !IsSlugText(Slugify(fold, "?", "1A_bcdefgh"))
  {
    var id := "1A_bcdefgh";
    assert IsPlainAscii("?") && Letters("?") == "";
    assert Prefix(id, ID_PREFIX)[1] == 'A';
    PromisedShapeIff(fold, "?", id);
  }

  /** One slugification is enough exactly when the folded text has a letter or digit or the fallback is in normal form. */
  lemma IdempotentIff(fold: string -> string, text: string, id: string)
    requires IsFold(fold)
    ensures var r := Slugify(fold, text, id);
            Slugify(fold, r, id) == r <==> Letters(fold(text)) != "" || IsNormal(Fallback(id))
  {
    hide Capped, Letters, Fallback;
    SlugSpellsText(fold, text, id);
    CappedIsNormal(fold, text);
    FixedIffNormal(fold, Slugify(fold, text, id), id);
  }
}
