/** A second run on the same Drive snapshot changes nothing. */
module SyncFixpoint {
  import opened Wrappers
  import opened Slugs
  import opened Paths
  import opened SheetTabs
  import opened SyncSpec
  import opened SyncLaws
  import opened SyncArchive

  /** The second run may happen at another time and meet other local failures. */
  ghost predicate SameDrive(first: Setup, second: Setup) {
    && !first.dryRun && !second.dryRun
    && second.fold == first.fold && second.sha256 == first.sha256 && second.md5 == first.md5
  }

  /** One listing per workbook and run, with distinct gids. */
  ghost predicate StableListings(files: seq<DriveFile>) {
    forall i :: 0 <= i < |files| && files[i].content.SheetContent? ==>
      && files[i].content.missed == {}
      && files[i].content.archive == (if files[i].content.listing.Some? then Listed(files[i].content.listing.value) else ApiError)
      && (files[i].content.listing.Some? ==> DistinctGids(files[i].content.listing.value))
  }

  ghost predicate IsSame(r: Report) {
    r.status == Unchanged && !r.failedLate
  }

  ghost predicate AllSame(log: seq<Report>) {
    forall i :: 0 <= i < |log| ==> IsSame(log[i])
  }

  /** Every stored entry is the entry of the reference state. */
  ghost predicate Agrees(m: map<Key, Entry>, state: map<Key, Entry>) {
    forall k :: k in m ==> k in state && m[k] == state[k]
  }

  /******* One entry settles *******/

  /** An entry exported or kept without error is found unchanged the next time. */
  lemma OutcomeSettles(first: Setup, second: Setup, existing: Option<Entry>, path: Path, f: DriveFile)
    requires SameDrive(first, second) && !f.content.SheetContent?
    requires !IsErrored(FileOutcome(first, existing, path, f).report)
    ensures var o := FileOutcome(first, existing, path, f);
            && o.entry.Some? && FileOutcome(second, o.entry, path, f) == Same(FileKey(f.id), o.entry.value)
            && !FileAborts(second, o.entry, path, f)
  {
    hide Utf8Size;
    match f.content
    case DocContent(rendered) =>
    case SlidesContent(body) =>
    case ImageContent(md5, bytes) =>
  }

  lemma BodySettles(first: Setup, second: Setup, key: Key, existing: Option<Entry>, path: Path, body: Option<string>)
    requires SameDrive(first, second)
    requires !IsErrored(BodyOutcome(first, key, existing, path, body).report)
    ensures var o := BodyOutcome(first, key, existing, path, body);
            && o.entry.Some? && o.report.key == key
            && BodyOutcome(second, key, o.entry, path, body) == Same(key, o.entry.value)
            && !TabAborts(second, key, o.entry, path, body)
  {
    hide Utf8Size;
  }

  /** Where two runs stand after the same files: same paths taken, nothing but unchanged reports. */
  ghost predicate InStep(p: Progress, q: Progress, state: map<Key, Entry>) {
    q.taken == p.taken && Agrees(q.newState, state) && AllSame(q.log)
  }

  /** Recording an unchanged entry keeps the runs in step. */
  lemma RecordInStep(p: Progress, q: Progress, key: Key, state: map<Key, Entry>)
    requires InStep(p, q, state) && key in state
    ensures InStep(p, Record(q, Same(key, state[key])), state)
    ensures Record(q, Same(key, state[key])).newState.Keys == q.newState.Keys + {key}
  {
  }

  lemma SingleSettles(
    first: Setup, second: Setup, old0: map<Key, Entry>, state: map<Key, Entry>, p: Progress, q: Progress, f: DriveFile)
    requires SameDrive(first, second) && !f.content.SheetContent? && InStep(p, q, state)
    requires ProcessFile(first, old0, p, f).Some? && ErrorFree(ProcessFile(first, old0, p, f).value.log)
    requires SameEntry(ProcessFile(first, old0, p, f).value.newState, state, FileKey(f.id))
    ensures ProcessFile(second, state, q, f).Some?
    ensures InStep(ProcessFile(first, old0, p, f).value, ProcessFile(second, state, q, f).value, state)
    ensures ProcessFile(second, state, q, f).value.newState.Keys == q.newState.Keys + {FileKey(f.id)}
  {
    hide ResolveLocalPath, FileOutcome, FileAborts, Slugify;
    var key := FileKey(f.id);
    var path := ResolveLocalPath(
      first.fold, f.components, Slugify(first.fold, f.name, f.id), Extension(f.content), p.taken, f.id).value;
    var o := FileOutcome(first, Lookup(old0, key), path, f);
    var p' := p.(taken := p.taken + {path}, filePaths := p.filePaths + [path]);
    var q' := q.(taken := q.taken + {path}, filePaths := q.filePaths + [path]);
    assert ProcessFile(first, old0, p, f).value == Record(p', o);
    assert Record(p', o).log[|p.log|] == o.report;
    OutcomeSettles(first, second, Lookup(old0, key), path, f);
    OutcomeKeys(first, Lookup(old0, key), path, f);
    assert Lookup(state, key) == o.entry;
    RecordInStep(p', q', key, state);
  }

  /******* One workbook settles *******/

  lemma TabSettles(
    first: Setup, second: Setup, old0: map<Key, Entry>, state: map<Key, Entry>, p: Progress, q: Progress,
    f: DriveFile, tab: Tab, slug: string)
    requires SameDrive(first, second) && f.content.SheetContent? && InStep(p, q, state)
    requires ProcessTab(first, old0, p, f, tab, slug).Some?
    requires ErrorFree(ProcessTab(first, old0, p, f, tab, slug).value.log)
    requires SameEntry(ProcessTab(first, old0, p, f, tab, slug).value.newState, state, TabKey(f.id, tab.gid))
    ensures ProcessTab(second, state, q, f, tab, slug).Some?
    ensures InStep(ProcessTab(first, old0, p, f, tab, slug).value, ProcessTab(second, state, q, f, tab, slug).value, state)
    ensures q.newState.Keys <= ProcessTab(second, state, q, f, tab, slug).value.newState.Keys
  {
    hide TabPath, BodyOutcome, TabAborts;
    var key := TabKey(f.id, tab.gid);
    var path := TabPath(first.fold, f.components, f.name, f.id, slug);
    var o := BodyOutcome(first, key, Lookup(old0, key), path, TabBody(f, tab));
    var p' := p.(taken := p.taken + {path}, tabPaths := p.tabPaths + [path]);
    var q' := q.(taken := q.taken + {path}, tabPaths := q.tabPaths + [path]);
    assert ProcessTab(first, old0, p, f, tab, slug).value == Record(p', o);
    assert Record(p', o).log[|p.log|] == o.report;
    BodySettles(first, second, key, Lookup(old0, key), path, TabBody(f, tab));
    assert Lookup(state, key) == o.entry;
    RecordInStep(p', q', key, state);
  }

  /** Later tabs of the workbook leave the entry of another gid alone. */
  lemma {:induction false} LaterTabsKeep(
    setup: Setup, state: map<Key, Entry>, p: Progress, f: DriveFile, tabs: seq<Tab>, slugs: seq<string>,
    n: nat, m: nat, gid: nat)
    requires f.content.SheetContent? && n <= m <= |tabs| == |slugs|
    requires forall i :: n <= i < m ==> tabs[i].gid != gid
    requires ProcessTabs(setup, state, p, f, tabs, slugs, m).Some?
    ensures ProcessTabs(setup, state, p, f, tabs, slugs, n).Some?
    ensures var a := ProcessTabs(setup, state, p, f, tabs, slugs, n).value;
            var b := ProcessTabs(setup, state, p, f, tabs, slugs, m).value;
            a.log <= b.log && SameEntry(a.newState, b.newState, TabKey(f.id, gid))
  {
    hide ProcessTab;
    if n < m {
      LaterTabsKeep(setup, state, p, f, tabs, slugs, n, m - 1, gid);
      TabKeepsOthers(
        setup, state, ProcessTabs(setup, state, p, f, tabs, slugs, m - 1).value, f, tabs[m - 1], slugs[m - 1], gid);
    }
  }

  lemma TabKeepsOthers(
    setup: Setup, state: map<Key, Entry>, p: Progress, f: DriveFile, tab: Tab, slug: string, gid: nat)
    requires f.content.SheetContent? && ProcessTab(setup, state, p, f, tab, slug).Some? && tab.gid != gid
    ensures var q := ProcessTab(setup, state, p, f, tab, slug).value;
            p.log <= q.log && SameEntry(p.newState, q.newState, TabKey(f.id, gid))
  {
    hide TabPath;
  }

  lemma {:induction false} TabsSettle(
    first: Setup, second: Setup, old0: map<Key, Entry>, state: map<Key, Entry>, p: Progress, q: Progress,
    f: DriveFile, tabs: seq<Tab>, slugs: seq<string>, n: nat)
    requires SameDrive(first, second) && f.content.SheetContent? && InStep(p, q, state)
    requires n <= |tabs| == |slugs| && DistinctGids(tabs)
    requires ProcessTabs(first, old0, p, f, tabs, slugs, |tabs|).Some?
    requires var t := ProcessTabs(first, old0, p, f, tabs, slugs, |tabs|).value;
             && ErrorFree(t.log)
             && forall i :: 0 <= i < |tabs| ==> SameEntry(t.newState, state, TabKey(f.id, tabs[i].gid))
    ensures ProcessTabs(first, old0, p, f, tabs, slugs, n).Some?
    ensures ProcessTabs(second, state, q, f, tabs, slugs, n).Some?
    ensures var b := ProcessTabs(second, state, q, f, tabs, slugs, n).value;
            InStep(ProcessTabs(first, old0, p, f, tabs, slugs, n).value, b, state) && q.newState.Keys <= b.newState.Keys
  {
    hide ProcessTab;
    if n == 0 {
    } else {
      TabsSettle(first, second, old0, state, p, q, f, tabs, slugs, n - 1);
      var gid := tabs[n - 1].gid;
      LaterTabsKeep(first, old0, p, f, tabs, slugs, n, |tabs|, gid);
      var a := ProcessTabs(first, old0, p, f, tabs, slugs, n).value;
      var t := ProcessTabs(first, old0, p, f, tabs, slugs, |tabs|).value;
      assert ErrorFree(a.log) by {
        assert forall i :: 0 <= i < |a.log| ==> a.log[i] == t.log[i];
      }
      assert SameEntry(a.newState, state, TabKey(f.id, gid)) by {
        assert SameEntry(t.newState, state, TabKey(f.id, tabs[n - 1].gid));
      }
      TabSettles(
        first, second, old0, state, ProcessTabs(first, old0, p, f, tabs, slugs, n - 1).value,
        ProcessTabs(second, state, q, f, tabs, slugs, n - 1).value, f, tabs[n - 1], slugs[n - 1]);
    }
  }

  lemma OccursTwice(tabs: seq<Tab>, i: nat, j: nat)
    requires i < j < |tabs| && tabs[i] == tabs[j]
    ensures multiset(tabs)[tabs[i]] >= 2
  {
    assert tabs == tabs[..j] + [tabs[j]] + tabs[j + 1..];
    assert tabs[i] in tabs[..j];
  }

  lemma OccursOnce(tabs: seq<Tab>, a: nat)
    requires DistinctGids(tabs) && a < |tabs|
    ensures multiset(tabs)[tabs[a]] == 1
  {
    assert tabs == tabs[..a] + [tabs[a]] + tabs[a + 1..];
    assert tabs[a] !in tabs[..a] && tabs[a] !in tabs[a + 1..];
  }

  lemma SortKeepsDistinct(tabs: seq<Tab>)
    requires DistinctGids(tabs)
    ensures DistinctGids(SortByIndex(tabs))
  {
    var sorted := SortByIndex(tabs);
    forall i, j | 0 <= i < j < |sorted| ensures sorted[i].gid != sorted[j].gid {
      assert sorted[i] in multiset(tabs) && sorted[j] in multiset(tabs);
      var a :| 0 <= a < |tabs| && tabs[a] == sorted[i];
      var b :| 0 <= b < |tabs| && tabs[b] == sorted[j];
      OccursOnce(tabs, a);
      if sorted[i] == sorted[j] {
        OccursTwice(sorted, i, j);
      }
    }
  }

  lemma SheetSettles(
    first: Setup, second: Setup, old0: map<Key, Entry>, state: map<Key, Entry>, p: Progress, q: Progress, f: DriveFile)
    requires SameDrive(first, second) && f.content.SheetContent? && InStep(p, q, state)
    requires f.content.listing.Some? ==> DistinctGids(f.content.listing.value)
    requires ProcessFile(first, old0, p, f).Some? && ErrorFree(ProcessFile(first, old0, p, f).value.log)
    requires forall k :: Touchable(f, k) ==> SameEntry(ProcessFile(first, old0, p, f).value.newState, state, k)
    ensures ProcessFile(second, state, q, f).Some?
    ensures InStep(ProcessFile(first, old0, p, f).value, ProcessFile(second, state, q, f).value, state)
    ensures q.newState.Keys <= ProcessFile(second, state, q, f).value.newState.Keys
  {
    hide ProcessTabs;
    var log := ProcessFile(first, old0, p, f).value.log;
    assert f.content.listing.None? ==> log == p.log + [Report(FileKey(f.id), Error, false)] && IsErrored(log[|p.log|]);
    var tabs := SortByIndex(f.content.listing.value);
    SortKeepsDistinct(f.content.listing.value);
    ListedTabsAreTouchable(f);
    TabsSettle(first, second, old0, state, p, q, f, tabs, TabSlugs(BaseSlugs(first.fold), tabs), |tabs|);
  }

  /******* The whole run settles *******/

  lemma FileSettles(
    first: Setup, second: Setup, old0: map<Key, Entry>, state: map<Key, Entry>, p: Progress, q: Progress, f: DriveFile)
    requires SameDrive(first, second) && InStep(p, q, state)
    requires f.content.SheetContent? && f.content.listing.Some? ==> DistinctGids(f.content.listing.value)
    requires ProcessFile(first, old0, p, f).Some? && ErrorFree(ProcessFile(first, old0, p, f).value.log)
    requires forall k :: Touchable(f, k) ==> SameEntry(ProcessFile(first, old0, p, f).value.newState, state, k)
    ensures ProcessFile(second, state, q, f).Some?
    ensures InStep(ProcessFile(first, old0, p, f).value, ProcessFile(second, state, q, f).value, state)
    ensures q.newState.Keys <= ProcessFile(second, state, q, f).value.newState.Keys
    ensures !f.content.SheetContent? ==> FileKey(f.id) in ProcessFile(second, state, q, f).value.newState
  {
    hide ProcessFile;
    if f.content.SheetContent? {
      SheetSettles(first, second, old0, state, p, q, f);
    } else {
      assert Touchable(f, FileKey(f.id));
      SingleSettles(first, second, old0, state, p, q, f);
    }
  }

  /** What is known after both runs have processed the first n files. */
  ghost predicate Settled(
    first: Setup, second: Setup, old0: map<Key, Entry>, state: map<Key, Entry>, p: Progress, q: Progress,
    files: seq<DriveFile>, n: nat)
    requires n <= |files|
  {
    && ProcessFiles(first, old0, p, files[..n]).Some?
    && ProcessFiles(second, state, q, files[..n]).Some?
    && var a := ProcessFiles(first, old0, p, files[..n]).value;
       var b := ProcessFiles(second, state, q, files[..n]).value;
       && InStep(a, b, state)
       && q.newState.Keys <= b.newState.Keys
       && forall i :: 0 <= i < n && !files[i].content.SheetContent? ==> FileKey(files[i].id) in b.newState
  }

  lemma {:induction false} FilesSettle(
    first: Setup, second: Setup, old0: map<Key, Entry>, state: map<Key, Entry>, p: Progress, q: Progress,
    files: seq<DriveFile>, n: nat)
    requires SameDrive(first, second) && InStep(p, q, state)
    requires n <= |files| && DistinctIds(files) && StableListings(files)
    requires ProcessFiles(first, old0, p, files).Some?
    requires ErrorFree(ProcessFiles(first, old0, p, files).value.log)
    requires ProcessFiles(first, old0, p, files).value.newState == state
    ensures Settled(first, second, old0, state, p, q, files, n)
  {
    hide ProcessFile;
    if n == 0 {
      assert files[..0] == [];
    } else {
      FilesSettle(first, second, old0, state, p, q, files, n - 1);
      var f := files[n - 1];
      var a := ProcessFiles(first, old0, p, files[..n - 1]).value;
      var b := ProcessFiles(second, state, q, files[..n - 1]).value;
      PrefixRuns(first, old0, p, files, n);
      assert files[..n][..n - 1] == files[..n - 1];
      forall k | Touchable(f, k) ensures SameEntry(ProcessFile(first, old0, a, f).value.newState, state, k) {
        LaterFilesKeep(first, old0, p, files, n, k);
      }
      FileSettles(first, second, old0, state, a, b, f);
    }
  }

  /** A completed error-free run has completed error-free prefixes. */
  lemma PrefixRuns(setup: Setup, state: map<Key, Entry>, p: Progress, files: seq<DriveFile>, n: nat)
    requires n <= |files| && ProcessFiles(setup, state, p, files).Some?
    requires ErrorFree(ProcessFiles(setup, state, p, files).value.log)
    ensures ProcessFiles(setup, state, p, files[..n]).Some?
    ensures ErrorFree(ProcessFiles(setup, state, p, files[..n]).value.log)
  {
    PrefixLogs(setup, state, p, files, n);
    var a, b := ProcessFiles(setup, state, p, files[..n]).value, ProcessFiles(setup, state, p, files).value;
    assert forall i :: 0 <= i < |a.log| ==> a.log[i] == b.log[i];
  }

  lemma {:induction false} PrefixLogs(setup: Setup, state: map<Key, Entry>, p: Progress, files: seq<DriveFile>, n: nat)
    requires n <= |files| && ProcessFiles(setup, state, p, files).Some?
    ensures ProcessFiles(setup, state, p, files[..n]).Some?
    ensures ProcessFiles(setup, state, p, files[..n]).value.log <= ProcessFiles(setup, state, p, files).value.log
  {
    hide ProcessFile;
    if n == |files| {
      assert files[..n] == files;
    } else {
      var m := |files| - 1;
      PrefixLogs(setup, state, p, files[..m], n);
      assert files[..m][..n] == files[..n];
      FileGrows(setup, state, ProcessFiles(setup, state, p, files[..m]).value, files[m]);
    }
  }

  /******* The archive pass settles *******/

  /** Every entry that the archive pass would archive is archived already. */
  ghost predicate GoneAreArchived(files: seq<DriveFile>, state: map<Key, Entry>) {
    forall k :: k in state && FateOf(files, k) == Gone ==> state[k].archivedAt.Some?
  }

  /** The identifier of the key names a spreadsheet of the snapshot. */
  predicate FindIsSheet(files: seq<DriveFile>, k: Key) {
    FindFile(files, k.id).Some? && FindFile(files, k.id).value.content.SheetContent?
  }

  /** A key left for later is stored only by its own, non-spreadsheet file. */
  ghost predicate LaterAreFiles(files: seq<DriveFile>, state: map<Key, Entry>) {
    forall k :: k in state && FateOf(files, k) == Later ==> !FindIsSheet(files, k)
  }

  /** No file of the snapshot touches a key that the archive pass decides. */
  lemma GoneIsUntouched(files: seq<DriveFile>, k: Key, i: nat)
    requires DistinctIds(files) && StableListings(files) && i < |files|
    requires FateOf(files, k) == Gone || (FateOf(files, k) == Later && FindIsSheet(files, k))
    ensures !Touchable(files[i], k)
  {
    if files[i].id == k.id {
      FoundIsTheOne(files, i);
    }
  }

  lemma FoundIsTheOne(files: seq<DriveFile>, i: nat)
    requires DistinctIds(files) && i < |files|
    ensures FindFile(files, files[i].id) == Some(files[i])
  {
    var f := FindFile(files, files[i].id);
    assert files[i] in files;
    var j :| 0 <= j < |files| && files[j] == f.value;
  }

  lemma FirstRunArchives(setup: Setup, state: map<Key, Entry>, order: seq<Key>, files: seq<DriveFile>)
    requires (forall k :: k in order <==> k in state) && DistinctIds(files) && StableListings(files) && !setup.dryRun
    requires RunSync(setup, state, order, files).Some?
    ensures var r := RunSync(setup, state, order, files).value.newState;
            && GoneAreArchived(files, r) && LaterAreFiles(files, r)
            && forall k :: k in r && Departed(files, k) ==> r[k].archivedAt.Some?
  {
    hide ProcessFile, FateOf, Departed;
    forall k: Key ensures FateOf(files, k) == Gone <==> Departed(files, k) {
      FateMeans(files, k);
    }
    var p := ArchivePass(setup, files, state, order).value;
    ArchivePassKeeps(setup, files, state, order);
    var r := ProcessFiles(setup, state, p, files).value.newState;
    forall k | k in r && (FateOf(files, k) == Gone
                          || (FateOf(files, k) == Later && FindIsSheet(files, k)))
      ensures k in p.newState && r[k] == p.newState[k]
    {
      forall i | 0 <= i < |files| ensures !Touchable(files[i], k) {
        GoneIsUntouched(files, k, i);
      }
      LaterFilesKeep(setup, state, p, files, 0, k);
      assert files[..0] == [];
    }
    forall k | k in r && FateOf(files, k) == Later ensures !FindIsSheet(files, k) {
      assert FindIsSheet(files, k) ==> k in p.newState;
    }
  }

  lemma LaterIsFound(files: seq<DriveFile>, k: Key)
    requires FateOf(files, k) == Later
    ensures k.FileKey? && FindFile(files, k.id).Some?
  {
  }

  lemma StableListingHolds(files: seq<DriveFile>, key: Key)
    requires StableListings(files)
    ensures !ListingBreaks(files, key)
  {
    var f := FindFile(files, key.id);
    if f.Some? {
      var i :| 0 <= i < |files| && files[i] == f.value;
    }
  }

  lemma {:induction false} SecondArchivePass(setup: Setup, state: map<Key, Entry>, order: seq<Key>, files: seq<DriveFile>)
    requires (forall k :: k in order ==> k in state) && GoneAreArchived(files, state) && StableListings(files)
    ensures ArchivePass(setup, files, state, order).Some?
    ensures AllSame(ArchivePass(setup, files, state, order).value.log)
    ensures Agrees(ArchivePass(setup, files, state, order).value.newState, state)
  {
    hide FateOf, ListingBreaks;
    if order != [] {
      SecondArchivePass(setup, state, order[..|order| - 1], files);
      StableListingHolds(files, order[|order| - 1]);
    }
  }

  /**
   After an error-free run, a second run on the same snapshot, whatever the time and
   the local failures, completes with an equal state and every counted entry
   unchanged.
   */
  lemma SecondRunChangesNothing(
    first: Setup, second: Setup, state: map<Key, Entry>, order: seq<Key>, files: seq<DriveFile>, order2: seq<Key>)
    requires SameDrive(first, second) && DistinctIds(files) && StableListings(files)
    requires (forall k :: k in order <==> k in state) && RunSync(first, state, order, files).Some?
    requires Tally(RunSync(first, state, order, files).value.log).errors == 0
    requires forall k :: k in order2 <==> k in RunSync(first, state, order, files).value.newState
    ensures var r := RunSync(first, state, order, files).value;
            && RunSync(second, r.newState, order2, files).Some?
            && var t := RunSync(second, r.newState, order2, files).value;
               && t.newState == r.newState
               && Tally(t.log) == Counts(|t.log|, 0, 0, 0, 0, |t.log|, 0)
  {
    hide FateOf, ProcessFile, Tally;
    var p := ArchivePass(first, files, state, order).value;
    var r := ProcessFiles(first, state, p, files).value;
    ErrorFreeIffZero(r.log);
    FirstRunArchives(first, state, order, files);
    ArchivePassKeeps(first, files, state, order);
    SecondArchivePass(second, r.newState, order2, files);
    var q := ArchivePass(second, files, r.newState, order2).value;
    ArchivePassKeeps(second, files, r.newState, order2);
    FilesSettle(first, second, state, r.newState, p, q, files, |files|);
    assert files[..|files|] == files;
    var t := ProcessFiles(second, r.newState, q, files).value;
    AllUnchangedTally(t.log);
    forall k | k in r.newState ensures k in t.newState {
      if FateOf(files, k) == Later {
        LaterIsFound(files, k);
        var f := FindFile(files, k.id).value;
        var i :| 0 <= i < |files| && files[i] == f;
      }
    }
  }
}
