/**
 What a run archives, said without the archive pass: an entry whose file or tab has left
 Drive, and no other.
 */
module SyncArchive {
  import opened Wrappers
  import opened Slugs
  import opened Paths
  import opened SheetTabs
  import opened SyncSpec
  import opened SyncLaws

  predicate Unlisted(files: seq<DriveFile>, id: string) {
    forall f :: f in files ==> f.id != id
  }

  /** The workbook is listed and answered, for this tab, without it. */
  predicate TabIsMissing(f: DriveFile, key: Key) {
    && key.TabKey? && f.id == key.id && f.content.SheetContent? && f.content.archive.Listed?
    && key.gid !in f.content.missed && forall t :: t in f.content.archive.tabs ==> t.gid != key.gid
  }

  /** The file or tab of the key has left Drive. */
  ghost predicate Departed(files: seq<DriveFile>, key: Key) {
    Unlisted(files, key.id) || exists f :: f in files && TabIsMissing(f, key)
  }

  /** The workbook is listed and the tab listing raised something else than an API error for this tab. */
  predicate TabBreaks(f: DriveFile, key: Key) {
    && key.TabKey? && f.id == key.id && f.content.SheetContent? && f.content.archive.Broken?
    && key.gid !in f.content.missed
  }

  lemma TheOnlyOne(files: seq<DriveFile>, f: DriveFile)
    requires DistinctIds(files) && f in files
    ensures FindFile(files, f.id) == Some(f)
  {
    var i, j :| 0 <= i < |files| && 0 <= j < |files| && files[i] == f && files[j] == FindFile(files, f.id).value;
  }

  /** The pass archives what has departed, leaves listed files for later and carries other tabs over. */
  lemma FateMeans(files: seq<DriveFile>, key: Key)
    requires DistinctIds(files)
    ensures FateOf(files, key) == Gone <==> Departed(files, key)
    ensures FateOf(files, key) == Later <==> key.FileKey? && !Unlisted(files, key.id)
    ensures ListingBreaks(files, key) <==> exists f :: f in files && TabBreaks(f, key)
  {
    var found := FindFile(files, key.id);
    if found.Some? {
      forall f | f in files && f.id == key.id ensures f == found.value {
        TheOnlyOne(files, f);
      }
      if key.TabKey? && found.value.content.SheetContent? && found.value.content.archive.Listed? {
        GidAmongTabs(found.value.content.archive.tabs, key.gid);
      }
    }
  }

  lemma GidAmongTabs(tabs: seq<Tab>, gid: nat)
    ensures HasGid(tabs, gid) <==> exists t :: t in tabs && t.gid == gid
  {
    if t :| t in tabs && t.gid == gid {
      var i :| 0 <= i < |tabs| && tabs[i] == t;
    }
  }

  /******* Archived reports *******/

  function ArchivedReports(log: seq<Report>, k: Key): nat {
    if log == [] then 0
    else
      var n := |log| - 1;
      ArchivedReports(log[..n], k) + if log[n].key == k && log[n].status == Archived then 1 else 0
  }

  lemma OneMoreReport(log: seq<Report>, r: Report, k: Key)
    ensures ArchivedReports(log + [r], k)
            == ArchivedReports(log, k) + if r.key == k && r.status == Archived then 1 else 0
  {
    assert (log + [r])[..|log|] == log;
  }

  lemma FileIsNotArchived(setup: Setup, existing: Option<Entry>, path: Path, f: DriveFile)
    requires !f.content.SheetContent?
    ensures FileOutcome(setup, existing, path, f).report.status != Archived
  {
    hide TooLarge, DocUnchanged, BodyUnchanged;
    match f.content
    case DocContent(_) =>
    case SlidesContent(_) =>
    case ImageContent(_, _) =>
  }

  lemma TabIsNotArchived(setup: Setup, state: map<Key, Entry>, p: Progress, f: DriveFile, tab: Tab, slug: string, k: Key)
    requires f.content.SheetContent? && ProcessTab(setup, state, p, f, tab, slug).Some?
    ensures ArchivedReports(ProcessTab(setup, state, p, f, tab, slug).value.log, k) == ArchivedReports(p.log, k)
  {
    hide TooLarge, BodyUnchanged, TabPath, TabAborts, ArchivedReports;
    var key := TabKey(f.id, tab.gid);
    var path := TabPath(setup.fold, f.components, f.name, f.id, slug);
    OneMoreReport(p.log, BodyOutcome(setup, key, Lookup(state, key), path, TabBody(f, tab)).report, k);
  }

  lemma {:induction false} TabsAreNotArchived(
    setup: Setup, state: map<Key, Entry>, p: Progress, f: DriveFile, tabs: seq<Tab>, slugs: seq<string>, n: nat, k: Key)
    requires f.content.SheetContent? && n <= |tabs| == |slugs| && ProcessTabs(setup, state, p, f, tabs, slugs, n).Some?
    ensures ArchivedReports(ProcessTabs(setup, state, p, f, tabs, slugs, n).value.log, k) == ArchivedReports(p.log, k)
  {
    hide ProcessTab, ArchivedReports;
    if n > 0 {
      TabsAreNotArchived(setup, state, p, f, tabs, slugs, n - 1, k);
      var q := ProcessTabs(setup, state, p, f, tabs, slugs, n - 1).value;
      TabIsNotArchived(setup, state, q, f, tabs[n - 1], slugs[n - 1], k);
    }
  }

  lemma FileArchivesNothing(setup: Setup, state: map<Key, Entry>, p: Progress, f: DriveFile, k: Key)
    requires ProcessFile(setup, state, p, f).Some?
    ensures ArchivedReports(ProcessFile(setup, state, p, f).value.log, k) == ArchivedReports(p.log, k)
  {
    hide ProcessTabs, ResolveLocalPath, Slugify, FileOutcome, FileAborts, ArchivedReports, SortByIndex;
    if f.content.SheetContent? {
      if f.content.listing.Some? {
        var tabs := SortByIndex(f.content.listing.value);
        TabsAreNotArchived(setup, state, p, f, tabs, TabSlugs(BaseSlugs(setup.fold), tabs), |tabs|, k);
      } else {
        OneMoreReport(p.log, Failed(FileKey(f.id)).report, k);
      }
    } else {
      var path := ResolveLocalPath(
        setup.fold, f.components, Slugify(setup.fold, f.name, f.id), Extension(f.content), p.taken, f.id).value;
      var existing := Lookup(state, FileKey(f.id));
      FileIsNotArchived(setup, existing, path, f);
      OneMoreReport(p.log, FileOutcome(setup, existing, path, f).report, k);
    }
  }

  lemma {:induction false} FilesArchiveNothing(
    setup: Setup, state: map<Key, Entry>, p: Progress, files: seq<DriveFile>, k: Key)
    requires ProcessFiles(setup, state, p, files).Some?
    ensures ArchivedReports(ProcessFiles(setup, state, p, files).value.log, k) == ArchivedReports(p.log, k)
  {
    hide ProcessFile, ArchivedReports;
    if files != [] {
      var n := |files| - 1;
      FilesArchiveNothing(setup, state, p, files[..n], k);
      FileArchivesNothing(setup, state, ProcessFiles(setup, state, p, files[..n]).value, files[n], k);
    }
  }

  /******* The whole run *******/

  ghost predicate Distinct(order: seq<Key>) {
    forall i, j :: 0 <= i < j < |order| ==> order[i] != order[j]
  }

  /** The key's entry is archived by this run: it has departed and carried no mark. */
  ghost predicate ArchivesNow(files: seq<DriveFile>, state: map<Key, Entry>, k: Key) {
    k in state && Departed(files, k) && state[k].archivedAt.None?
  }

  lemma KeyReports(setup: Setup, files: seq<DriveFile>, state: map<Key, Entry>, key: Key, p: Progress, k: Key)
    requires DistinctIds(files) && key in state && ArchiveKey(setup, files, state, key, p).Some?
    ensures ArchivedReports(ArchiveKey(setup, files, state, key, p).value.log, k)
            == ArchivedReports(p.log, k) + if key == k && ArchivesNow(files, state, k) then 1 else 0
  {
    hide FateOf, ListingBreaks, Departed, ArchivedReports;
    FateMeans(files, key);
    if FateOf(files, key) == Gone {
      OneMoreReport(p.log, ArchiveOutcome(setup, key, state[key]).report, k);
    }
  }

  lemma {:induction false} PassReports(setup: Setup, files: seq<DriveFile>, state: map<Key, Entry>, order: seq<Key>, k: Key)
    requires DistinctIds(files) && Distinct(order) && (forall x :: x in order ==> x in state)
    requires ArchivePass(setup, files, state, order).Some?
    ensures ArchivedReports(ArchivePass(setup, files, state, order).value.log, k)
            == if k in order && ArchivesNow(files, state, k) then 1 else 0
  {
    hide ArchiveKey, ArchivesNow, DistinctIds;
    if order != [] {
      var n := |order| - 1;
      PassReports(setup, files, state, order[..n], k);
      KeyReports(setup, files, state, order[n], ArchivePass(setup, files, state, order[..n]).value, k);
      assert order == order[..n] + [order[n]];
    }
  }

  /** In a completed run exactly the stored entries that departed unmarked are reported archived, once each. */
  lemma ArchivedReportsIff(setup: Setup, state: map<Key, Entry>, order: seq<Key>, files: seq<DriveFile>, k: Key)
    requires (forall x :: x in order <==> x in state) && Distinct(order) && DistinctIds(files)
    requires RunSync(setup, state, order, files).Some?
    ensures ArchivedReports(RunSync(setup, state, order, files).value.log, k)
            == if ArchivesNow(files, state, k) then 1 else 0
  {
    hide ArchivePass, ProcessFiles, ArchivesNow, ArchivedReports, DistinctIds;
    PassReports(setup, files, state, order, k);
    FilesArchiveNothing(setup, state, ArchivePass(setup, files, state, order).value, files, k);
    assert ArchivesNow(files, state, k) ==> k in state by { ArchivesNowIsStored(files, state, k); }
  }

  lemma ArchivesNowIsStored(files: seq<DriveFile>, state: map<Key, Entry>, k: Key)
    ensures ArchivesNow(files, state, k) ==> k in state
  {}

  /** The export pass does not see the tab either. */
  ghost predicate NotExported(files: seq<DriveFile>, k: Key) {
    forall i :: 0 <= i < |files| ==> !Touchable(files[i], k)
  }

  /**
   In a completed run a stored entry that departed, and that no file of the export pass
   stores, is kept with an archive time: its old one, or, in a real run, the time of the run.
   */
  lemma DepartedIsArchived(setup: Setup, state: map<Key, Entry>, order: seq<Key>, files: seq<DriveFile>, k: Key)
    requires (forall x :: x in order <==> x in state) && DistinctIds(files)
    requires k in state && Departed(files, k) && NotExported(files, k)
    requires RunSync(setup, state, order, files).Some?
    ensures var r := RunSync(setup, state, order, files).value.newState;
            && k in r
            && r[k] == if state[k].archivedAt.Some? || setup.dryRun then state[k]
                       else state[k].(archivedAt := Some(setup.now))
  {
    hide ProcessFile, FateOf, Departed;
    FateMeans(files, k);
    ArchivePassKeeps(setup, files, state, order);
    LaterFilesKeep(setup, state, ArchivePass(setup, files, state, order).value, files, 0, k);
    assert files[..0] == [];
  }

  /** An identifier that is not listed is not exported. */
  lemma UnlistedIsNotExported(files: seq<DriveFile>, k: Key)
    requires Unlisted(files, k.id)
    ensures Departed(files, k) && NotExported(files, k)
  {
    forall i | 0 <= i < |files| ensures !Touchable(files[i], k) {
      assert files[i] in files;
    }
  }

  /** A tab of a listed workbook that has not departed, and that the export pass does not see, is carried over as it was. */
  lemma OtherTabIsCarriedOver(setup: Setup, state: map<Key, Entry>, order: seq<Key>, files: seq<DriveFile>, k: Key)
    requires (forall x :: x in order <==> x in state) && DistinctIds(files)
    requires k in state && k.TabKey? && !Departed(files, k) && NotExported(files, k)
    requires RunSync(setup, state, order, files).Some?
    ensures var r := RunSync(setup, state, order, files).value.newState; k in r && r[k] == state[k]
  {
    hide ProcessFile, FateOf, Departed;
    FateMeans(files, k);
    ArchivePassKeeps(setup, files, state, order);
    LaterFilesKeep(setup, state, ArchivePass(setup, files, state, order).value, files, 0, k);
    assert files[..0] == [];
  }
}
