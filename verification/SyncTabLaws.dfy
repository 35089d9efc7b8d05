/** What a run tells about the tabs of a workbook. */
module SyncTabLaws {
  import opened Wrappers
  import opened Slugs
  import opened Paths
  import opened SheetTabs
  import opened SyncSpec
  import opened SyncLaws
  import opened SyncFixpoint

  /** The tab's status relates what is stored now to what was stored and to the exported body. */
  ghost predicate TabStatusTells(
    setup: Setup, existing: Option<Entry>, path: Path, body: string, status: Status, entry: Entry)
  {
    && (status == Created <==> existing.None?)
    && (status == Unchanged <==> existing == Some(entry))
    && (status == Renamed <==> existing.Some? && existing.value.path != path)
    && (status == Updated ==> existing.Some? && existing.value.signature != entry.signature)
    && (Exports(status) || status == Unchanged)
    && (status != Unchanged ==> && entry.exportedAt == setup.now && entry.archivedAt.None?
                                && entry.bodyHash == setup.sha256(body) && entry.images == map[])
    && entry.path == path && entry.signature == Sha(setup, body)
  }

  lemma BodyTells(setup: Setup, key: Key, existing: Option<Entry>, path: Path, body: Option<string>)
    requires !setup.dryRun && !TabAborts(setup, key, existing, path, body)
    ensures var o := BodyOutcome(setup, key, existing, path, body);
            && o.report.key == key && !o.report.failedLate
            && (o.report.status == Error <==> body.None? || TooLarge(body.value))
            && (o.report.status == Error <==> o.entry.None?)
            && (o.entry.Some? ==> TabStatusTells(setup, existing, path, body.value, o.report.status, o.entry.value))
  {
    hide TooLarge;
  }

  /** The report at `j` and the final entry tell the truth about the tab; a tab in error leaves the entry as it was before. */
  ghost predicate TellsOfTab(
    setup: Setup, state: map<Key, Entry>, before: map<Key, Entry>, f: DriveFile, tab: Tab, slug: string, r: Progress, j: nat)
    requires f.content.SheetContent?
  {
    var k := TabKey(f.id, tab.gid);
    var path, body := TabPath(setup.fold, f.components, f.name, f.id, slug), TabBody(f, tab);
    && j < |r.log| && r.log[j].key == k && !r.log[j].failedLate && path in r.tabPaths
    && (r.log[j].status == Error <==> body.None? || TooLarge(body.value))
    && if r.log[j].status == Error then SameEntry(before, r.newState, k)
       else && k in r.newState
            && TabStatusTells(setup, Lookup(state, k), path, body.value, r.log[j].status, r.newState[k])
  }

  lemma TabStepTells(setup: Setup, state: map<Key, Entry>, p: Progress, f: DriveFile, tab: Tab, slug: string)
    requires f.content.SheetContent? && !setup.dryRun && ProcessTab(setup, state, p, f, tab, slug).Some?
    ensures TellsOfTab(setup, state, p.newState, f, tab, slug, ProcessTab(setup, state, p, f, tab, slug).value, |p.log|)
  {
    hide TooLarge, TabPath, TabAborts, BodyOutcome, TabStatusTells;
    var k := TabKey(f.id, tab.gid);
    var path := TabPath(setup.fold, f.components, f.name, f.id, slug);
    BodyTells(setup, k, Lookup(state, k), path, TabBody(f, tab));
    assert path in (p.tabPaths + [path]);
  }

  /** Tabs other than the one of the key leave its entry alone. */
  lemma OtherTabKeeps(setup: Setup, state: map<Key, Entry>, p: Progress, f: DriveFile, tab: Tab, slug: string, k: Key)
    requires f.content.SheetContent? && ProcessTab(setup, state, p, f, tab, slug).Some? && k != TabKey(f.id, tab.gid)
    ensures var q := ProcessTab(setup, state, p, f, tab, slug).value;
            p.log <= q.log && p.tabPaths <= q.tabPaths && SameEntry(p.newState, q.newState, k)
  {
    hide TooLarge, TabPath, TabAborts, BodyUnchanged;
  }

  lemma {:induction false} OtherTabsKeep(
    setup: Setup, state: map<Key, Entry>, p: Progress, f: DriveFile, tabs: seq<Tab>, slugs: seq<string>, m: nat, n: nat, k: Key)
    requires f.content.SheetContent? && m <= n <= |tabs| == |slugs|
    requires ProcessTabs(setup, state, p, f, tabs, slugs, n).Some?
    requires forall i :: m <= i < n ==> k != TabKey(f.id, tabs[i].gid)
    ensures ProcessTabs(setup, state, p, f, tabs, slugs, m).Some?
    ensures var q, r := ProcessTabs(setup, state, p, f, tabs, slugs, m).value, ProcessTabs(setup, state, p, f, tabs, slugs, n).value;
            q.log <= r.log && q.tabPaths <= r.tabPaths && SameEntry(q.newState, r.newState, k)
  {
    hide ProcessTab;
    if m < n {
      OtherTabsKeep(setup, state, p, f, tabs, slugs, m, n - 1, k);
      OtherTabKeeps(setup, state, ProcessTabs(setup, state, p, f, tabs, slugs, n - 1).value, f, tabs[n - 1], slugs[n - 1], k);
    }
  }

  lemma StillTells(
    setup: Setup, state: map<Key, Entry>, start: map<Key, Entry>, mid: map<Key, Entry>, f: DriveFile, tab: Tab, slug: string,
    q: Progress, r: Progress, j: nat)
    requires f.content.SheetContent? && TellsOfTab(setup, state, mid, f, tab, slug, q, j)
    requires SameEntry(start, mid, TabKey(f.id, tab.gid)) && SameEntry(q.newState, r.newState, TabKey(f.id, tab.gid))
    requires q.log <= r.log && q.tabPaths <= r.tabPaths
    ensures TellsOfTab(setup, state, start, f, tab, slug, r, j)
  {
    hide TooLarge, TabPath, TabStatusTells;
    assert r.log[j] == q.log[j];
  }

  /** The workbook's own tabs, in order. */
  lemma WorkbookTells(
    setup: Setup, state: map<Key, Entry>, p: Progress, f: DriveFile, tabs: seq<Tab>, slugs: seq<string>, t: nat) returns (j: nat)
    requires f.content.SheetContent? && !setup.dryRun && DistinctGids(tabs) && t < |tabs| == |slugs|
    requires ProcessTabs(setup, state, p, f, tabs, slugs, |tabs|).Some?
    ensures TellsOfTab(setup, state, p.newState, f, tabs[t], slugs[t], ProcessTabs(setup, state, p, f, tabs, slugs, |tabs|).value, j)
  {
    hide ProcessTab, TellsOfTab;
    var k := TabKey(f.id, tabs[t].gid);
    OtherTabsKeep(setup, state, p, f, tabs, slugs, t + 1, |tabs|, k);
    OtherTabsKeep(setup, state, p, f, tabs, slugs, 0, t, k);
    var q := ProcessTabs(setup, state, p, f, tabs, slugs, t).value;
    var r := ProcessTabs(setup, state, p, f, tabs, slugs, t + 1).value;
    assert ProcessTabs(setup, state, p, f, tabs, slugs, t + 1) == ProcessTab(setup, state, q, f, tabs[t], slugs[t]);
    TabStepTells(setup, state, q, f, tabs[t], slugs[t]);
    j := |q.log|;
    StillTells(
      setup, state, p.newState, q.newState, f, tabs[t], slugs[t], r, ProcessTabs(setup, state, p, f, tabs, slugs, |tabs|).value, j);
  }

  /**
   In a completed real run every tab the export pass lists has a report that tells the
   truth: an error exactly when its body is missing or too large, and then the entry is
   what the archive pass left; otherwise the entry lies at the tab's path with the
   signature of its body, and the status says how it relates to what was stored.
   */
  lemma RunTellsOfTabs(
    setup: Setup, state: map<Key, Entry>, order: seq<Key>, files: seq<DriveFile>, i: nat, t: nat) returns (j: nat)
    requires (forall k :: k in order <==> k in state) && DistinctIds(files) && !setup.dryRun
    requires i < |files| && files[i].content.SheetContent? && files[i].content.listing.Some?
    requires DistinctGids(files[i].content.listing.value) && t < |SortByIndex(files[i].content.listing.value)|
    requires RunSync(setup, state, order, files).Some?
    ensures var tabs := SortByIndex(files[i].content.listing.value);
            TellsOfTab(setup, state, ArchivePass(setup, files, state, order).value.newState, files[i], tabs[t],
                       TabSlug(BaseSlugs(setup.fold), tabs, t), RunSync(setup, state, order, files).value, j)
  {
    hide ProcessFile, ProcessTabs, ArchivePass, TellsOfTab, SortByIndex, TabSlug;
    var p := ArchivePass(setup, files, state, order).value;
    var f, tabs := files[i], SortByIndex(files[i].content.listing.value);
    var slugs := TabSlugs(BaseSlugs(setup.fold), tabs);
    var k := TabKey(f.id, tabs[t].gid);
    LaterFilesKeep(setup, state, p, files, i + 1, k);
    assert files[..i + 1][..i] == files[..i];
    var q := ProcessFiles(setup, state, p, files[..i]).value;
    assert ProcessFiles(setup, state, p, files[..i + 1]) == ProcessFile(setup, state, q, f);
    WorkbookIsItsTabs(setup, state, q, f);
    LaterFilesKeep(setup, state, p, files[..i], 0, k);
    assert files[..i][..0] == [];
    SortKeepsDistinct(f.content.listing.value);
    j := WorkbookTells(setup, state, q, f, tabs, slugs, t);
    StillTells(
      setup, state, p.newState, q.newState, f, tabs[t], slugs[t], ProcessFile(setup, state, q, f).value,
      ProcessFiles(setup, state, p, files).value, j);
  }

  lemma WorkbookIsItsTabs(setup: Setup, state: map<Key, Entry>, p: Progress, f: DriveFile)
    requires f.content.SheetContent? && f.content.listing.Some?
    ensures var tabs := SortByIndex(f.content.listing.value);
            ProcessFile(setup, state, p, f)
            == ProcessTabs(setup, state, p, f, tabs, TabSlugs(BaseSlugs(setup.fold), tabs), |tabs|)
  {}
}
