/** Slugs for the tabs of one workbook. */
module SheetTabs {
  import opened Slugs

  datatype Tab = Tab(index: int, gid: nat, title: string)

  /******* Decimal gids *******/

  function Digit(d: nat): char
    requires d < 10
  {
    '0' + d as char
  }

  function Decimal(n: nat): (s: string)
    ensures s != "" && (|s| == 1 <==> n < 10) && forall i :: 0 <= i < |s| ==> s[i] != '-'
  {
    if n < 10 then [Digit(n)] else Decimal(n / 10) + [Digit(n % 10)]
  }

  lemma {:induction false} DecimalIsInjective(m: nat, n: nat)
    requires Decimal(m) == Decimal(n)
    ensures m == n
    decreases m
  {
    var s := Decimal(m);
    if m < 10 && n < 10 {
      assert s[0] == Digit(m) && s[0] == Digit(n);
    } else {
      assert Decimal(m / 10) == s[..|s| - 1] == Decimal(n / 10);
      assert Digit(m % 10) == s[|s| - 1] == Digit(n % 10);
      DecimalIsInjective(m / 10, n / 10);
    }
  }

  /******* Order *******/

  /** Stable insertion by index: equal indices keep their listing order. */
  function InsertTab(t: Tab, sorted: seq<Tab>): (r: seq<Tab>)
    ensures multiset(r) == multiset(sorted) + multiset{t}
    ensures |r| == |sorted| + 1
  {
    if sorted == [] || t.index < sorted[0].index then
      assert [t] + sorted == [t] + sorted;
      [t] + sorted
    else
      assert sorted == [sorted[0]] + sorted[1..];
      [sorted[0]] + InsertTab(t, sorted[1..])
  }

  function SortByIndex(tabs: seq<Tab>): (r: seq<Tab>)
    ensures multiset(r) == multiset(tabs) && |r| == |tabs|
  {
    if tabs == [] then []
    else
      assert tabs == tabs[..|tabs| - 1] + [tabs[|tabs| - 1]];
      InsertTab(tabs[|tabs| - 1], SortByIndex(tabs[..|tabs| - 1]))
  }

  ghost predicate SortedByIndex(tabs: seq<Tab>) {
    forall i, j :: 0 <= i < j < |tabs| ==> tabs[i].index <= tabs[j].index
  }

  lemma {:induction false} InsertKeepsSorted(t: Tab, sorted: seq<Tab>)
    requires SortedByIndex(sorted)
    ensures SortedByIndex(InsertTab(t, sorted))
  {
    if sorted != [] && t.index >= sorted[0].index {
      var rest := InsertTab(t, sorted[1..]);
      InsertKeepsSorted(t, sorted[1..]);
      forall i | 0 <= i < |rest| ensures sorted[0].index <= rest[i].index {
        assert rest[i] in multiset(rest);
        assert rest[i] == t || rest[i] in sorted[1..];
      }
    }
  }

  lemma {:induction false} SortIsSorted(tabs: seq<Tab>)
    ensures SortedByIndex(SortByIndex(tabs))
  {
    if tabs != [] {
      SortIsSorted(tabs[..|tabs| - 1]);
      InsertKeepsSorted(tabs[|tabs| - 1], SortByIndex(tabs[..|tabs| - 1]));
    }
  }

  /** The tabs with one index, in their order. */
  function WithIndex(tabs: seq<Tab>, index: int): seq<Tab> {
    if tabs == [] then [] else (if tabs[0].index == index then [tabs[0]] else []) + WithIndex(tabs[1..], index)
  }

  lemma Reassociate(a: seq<Tab>, b: seq<Tab>, c: seq<Tab>)
    ensures a + (b + c) == a + b + c
  {}

  lemma {:induction false} WithIndexAppend(a: seq<Tab>, b: seq<Tab>, index: int)
    ensures WithIndex(a + b, index) == WithIndex(a, index) + WithIndex(b, index)
  {
    if a == [] {
      assert a + b == b;
    } else {
      WithIndexAppend(a[1..], b, index);
      assert (a + b)[1..] == a[1..] + b && (a + b)[0] == a[0];
      Reassociate(if a[0].index == index then [a[0]] else [], WithIndex(a[1..], index), WithIndex(b, index));
    }
  }

  lemma {:induction false} LaterAreLarger(sorted: seq<Tab>, index: int)
    requires SortedByIndex(sorted) && (sorted == [] || index < sorted[0].index)
    ensures WithIndex(sorted, index) == []
  {
    if sorted != [] {
      assert |sorted| > 1 ==> sorted[0].index <= sorted[1].index;
      LaterAreLarger(sorted[1..], index);
    }
  }

  lemma InsertStep(t: Tab, sorted: seq<Tab>)
    ensures InsertTab(t, sorted)
            == if sorted == [] || t.index < sorted[0].index then [t] + sorted
               else [sorted[0]] + InsertTab(t, sorted[1..])
  {}

  lemma WithIndexStep(t: Tab, rest: seq<Tab>, index: int)
    ensures WithIndex([t] + rest, index) == (if t.index == index then [t] else []) + WithIndex(rest, index)
  {
    assert ([t] + rest)[1..] == rest;
  }

  lemma {:induction false} InsertKeepsOrder(t: Tab, sorted: seq<Tab>, index: int)
    requires SortedByIndex(sorted)
    ensures WithIndex(InsertTab(t, sorted), index)
            == WithIndex(sorted, index) + if t.index == index then [t] else []
  {
    hide InsertTab, WithIndex;
    InsertStep(t, sorted);
    if sorted == [] || t.index < sorted[0].index {
      WithIndexStep(t, sorted, index);
      if t.index == index {
        LaterAreLarger(sorted, index);
      }
    } else {
      InsertKeepsOrder(t, sorted[1..], index);
      WithIndexStep(sorted[0], InsertTab(t, sorted[1..]), index);
      WithIndexStep(sorted[0], sorted[1..], index);
      assert sorted == [sorted[0]] + sorted[1..];
      Reassociate(if sorted[0].index == index then [sorted[0]] else [], WithIndex(sorted[1..], index),
                  if t.index == index then [t] else []);
    }
  }

  /** Tabs with the same index keep their listing order. */
  lemma {:induction false} SortIsStable(tabs: seq<Tab>, index: int)
    ensures WithIndex(SortByIndex(tabs), index) == WithIndex(tabs, index)
  {
    hide InsertTab;
    if tabs != [] {
      var n := |tabs| - 1;
      SortIsStable(tabs[..n], index);
      SortIsSorted(tabs[..n]);
      InsertKeepsOrder(tabs[n], SortByIndex(tabs[..n]), index);
      WithIndexAppend(tabs[..n], [tabs[n]], index);
      assert tabs == tabs[..n] + [tabs[n]];
      assert [tabs[n]][1..] == [];
    }
  }

  /******* Slugs *******/

  /** The slug of a tab's own title; its gid is the fallback identifier. */
  function BaseSlugs(fold: string -> string): Tab -> string {
    (t: Tab) => Slugify(fold, t.title, Decimal(t.gid))
  }

  function Suffixed(base: Tab -> string, t: Tab): string {
    base(t) + "-" + Decimal(t.gid)
  }

  /** An earlier tab has the same base slug. */
  predicate IsRepeat(base: Tab -> string, tabs: seq<Tab>, i: nat)
    requires i < |tabs|
  {
    exists j :: 0 <= j < i && base(tabs[j]) == base(tabs[i])
  }

  function TabSlug(base: Tab -> string, tabs: seq<Tab>, i: nat): string
    requires i < |tabs|
  {
    if IsRepeat(base, tabs, i) then Suffixed(base, tabs[i]) else base(tabs[i])
  }

  function TabSlugs(base: Tab -> string, tabs: seq<Tab>): (r: seq<string>)
    ensures |r| == |tabs|
  {
    seq(|tabs|, i requires 0 <= i < |tabs| => TabSlug(base, tabs, i))
  }

  /** Only base slugs enter `seen`; a suffixed slug is never recorded. */
  method ResolveTabCollisions(base: Tab -> string, tabs: seq<Tab>) returns (sorted: seq<Tab>, slugs: seq<string>)
    ensures sorted == SortByIndex(tabs)
    ensures slugs == TabSlugs(base, sorted)
  {
    sorted := SortByIndex(tabs);
    var seen: set<string> := {};
    slugs := [];
    for i := 0 to |sorted|
      invariant seen == set j | 0 <= j < i :: base(sorted[j])
      invariant |slugs| == i && forall j :: 0 <= j < i ==> slugs[j] == TabSlug(base, sorted, j)
    {
      var slug := base(sorted[i]);
      assert slug in seen <==> IsRepeat(base, sorted, i);
      if slug !in seen {
        seen := seen + {slug};
        slugs := slugs + [slug];
      } else {
        slugs := slugs + [slug + "-" + Decimal(sorted[i].gid)];
      }
    }
  }

  /******* Distinctness *******/

  /** The digits after the last hyphen determine the gid. */
  lemma SuffixDeterminesGid(a: string, m: nat, b: string, n: nat)
    requires a + "-" + Decimal(m) == b + "-" + Decimal(n)
    ensures m == n
  {
    var s := a + "-" + Decimal(m);
    assert s[|a|] == '-' && forall i :: |a| < i < |s| ==> s[i] == Decimal(m)[i - |a| - 1];
    assert s[|b|] == '-' && forall i :: |b| < i < |s| ==> s[i] == Decimal(n)[i - |b| - 1];
    assert |a| == |b|;
    assert s[|a| + 1..] == Decimal(m) && s[|b| + 1..] == Decimal(n);
    DecimalIsInjective(m, n);
  }

  /** No suffixed slug happens to be the base slug that another tab keeps. */
  ghost predicate NoSuffixClash(base: Tab -> string, tabs: seq<Tab>) {
    forall i, j :: 0 <= i < |tabs| && 0 <= j < |tabs| && IsRepeat(base, tabs, i) && !IsRepeat(base, tabs, j) ==>
      Suffixed(base, tabs[i]) != base(tabs[j])
  }

  ghost predicate DistinctGids(tabs: seq<Tab>) {
    forall i, j :: 0 <= i < j < |tabs| ==> tabs[i].gid != tabs[j].gid
  }

  /** Slugs within a workbook are pairwise distinct exactly when no suffix clashes. */
  lemma TabSlugsDistinctIff(base: Tab -> string, tabs: seq<Tab>)
    requires DistinctGids(tabs)
    ensures (forall i, j :: 0 <= i < j < |tabs| ==> TabSlug(base, tabs, i) != TabSlug(base, tabs, j))
            <==> NoSuffixClash(base, tabs)
  {
    if NoSuffixClash(base, tabs) {
      forall i, j | 0 <= i < j < |tabs| ensures TabSlug(base, tabs, i) != TabSlug(base, tabs, j) {
        if IsRepeat(base, tabs, i) && IsRepeat(base, tabs, j) && Suffixed(base, tabs[i]) == Suffixed(base, tabs[j]) {
          SuffixDeterminesGid(base(tabs[i]), tabs[i].gid, base(tabs[j]), tabs[j].gid);
        }
      }
    } else {
      var i, j :| 0 <= i < |tabs| && 0 <= j < |tabs| && IsRepeat(base, tabs, i) && !IsRepeat(base, tabs, j)
                  && Suffixed(base, tabs[i]) == base(tabs[j]);
      assert TabSlug(base, tabs, i) == TabSlug(base, tabs, j) && i != j;
    }
  }

  /** Titles a, a (gid g) and a-g in one workbook, such as "a", "a" (gid 5) and "a-5". */
  function ClashingTabs(a: string, f: nat, g: nat, h: nat): seq<Tab> {
    [Tab(0, f, a), Tab(1, g, a), Tab(2, h, a + "-" + Decimal(g))]
  }

  lemma SuffixStaysNormal(a: string, g: nat)
    requires IsNormal(a) && |a| + 1 + |Decimal(g)| <= MAX_LEN
    ensures IsNormal(a + "-" + Decimal(g))
  {
    DecimalIsSlugText(g);
    var s, d := a + "-" + Decimal(g), Decimal(g);
    assert forall i :: 0 <= i < |s| ==> s[i] == if i < |a| then a[i] else if i == |a| then '-' else d[i - |a| - 1];
  }

  lemma {:induction false} DecimalIsSlugText(n: nat)
    ensures IsSlugText(Decimal(n))
  {
    if n >= 10 {
      DecimalIsSlugText(n / 10);
    }
  }

  /** For any slug a short enough, the second and the third of these tabs get the same slug. */
  lemma TabSlugsCanClash(fold: string -> string, a: string, f: nat, g: nat, h: nat)
    requires IsFold(fold) && f != g && g != h && f != h
    requires IsNormal(a) && |a| + 1 + |Decimal(g)| <= MAX_LEN
    ensures var tabs := ClashingTabs(a, f, g, h);
            DistinctGids(tabs) && TabSlug(BaseSlugs(fold), tabs, 1) == TabSlug(BaseSlugs(fold), tabs, 2)
  {
    hide Slugify, IsNormal, Decimal;
    var base, tabs := BaseSlugs(fold), ClashingTabs(a, f, g, h);
    SuffixStaysNormal(a, g);
    NormalIsFixed(fold, a, Decimal(f));
    NormalIsFixed(fold, a, Decimal(g));
    NormalIsFixed(fold, tabs[2].title, Decimal(h));
    assert base(tabs[0]) == base(tabs[1]) == a && base(tabs[2]) == tabs[2].title;
    assert IsRepeat(base, tabs, 1);
    assert |tabs[2].title| > |a|;
    assert !IsRepeat(base, tabs, 2);
  }

  /** Titles "a", "a" (gid 5) and "a-5". */
  lemma TabsThatClash(fold: string -> string)
    requires IsFold(fold)
    ensures var tabs := [Tab(0, 1, "a"), Tab(1, 5, "a"), Tab(2, 7, "a-5")];
            DistinctGids(tabs) && TabSlug(BaseSlugs(fold), tabs, 1) == TabSlug(BaseSlugs(fold), tabs, 2)
  {
    hide Slugify;
    assert Decimal(5) == "5" && "a" + "-" + "5" == "a-5";
    TabSlugsCanClash(fold, "a", 1, 5, 7);
  }
}
