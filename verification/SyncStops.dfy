/** When a run stops before its state is saved. */
module SyncStops {
  import opened Wrappers
  import opened Slugs
  import opened Paths
  import opened SheetTabs
  import opened SyncSpec
  import opened SyncLaws
  import opened SyncArchive

  /******* The archive pass *******/

  /** The entry is due for archiving and cannot be marked. */
  ghost predicate CannotBeMarked(setup: Setup, files: seq<DriveFile>, state: map<Key, Entry>, k: Key) {
    ArchivesNow(files, state, k) && !setup.dryRun && k in setup.stuck
  }

  ghost predicate KeyStops(setup: Setup, files: seq<DriveFile>, state: map<Key, Entry>, k: Key) {
    CannotBeMarked(setup, files, state, k) || exists f :: f in files && TabBreaks(f, k)
  }

  lemma BrokenIsKept(files: seq<DriveFile>, k: Key)
    requires ListingBreaks(files, k)
    ensures FateOf(files, k) == Kept
  {}

  lemma KeyStopsIff(setup: Setup, files: seq<DriveFile>, state: map<Key, Entry>, k: Key, p: Progress)
    requires DistinctIds(files) && k in state
    ensures ArchiveKey(setup, files, state, k, p).None? <==> KeyStops(setup, files, state, k)
  {
    hide FateOf, ListingBreaks, Departed;
    FateMeans(files, k);
    if ListingBreaks(files, k) {
      BrokenIsKept(files, k);
    }
  }

  /** The archive pass stops exactly at a departed entry that cannot be marked or at a broken tab listing. */
  lemma {:induction false} PassStopsIff(setup: Setup, files: seq<DriveFile>, state: map<Key, Entry>, order: seq<Key>)
    requires DistinctIds(files) && forall k :: k in order ==> k in state
    ensures ArchivePass(setup, files, state, order).None? <==> exists k :: k in order && KeyStops(setup, files, state, k)
  {
    hide ArchiveKey, KeyStops;
    if order != [] {
      var n := |order| - 1;
      PassStopsIff(setup, files, state, order[..n]);
      assert order == order[..n] + [order[n]];
      var p := ArchivePass(setup, files, state, order[..n]);
      if p.Some? {
        KeyStopsIff(setup, files, state, order[n], p.value);
      }
    }
  }

  /******* Files *******/

  /** A file stops the run exactly when an export is due over frontmatter that is read and is not YAML. */
  lemma FileAbortsIff(setup: Setup, existing: Option<Entry>, path: Path, f: DriveFile)
    requires !f.content.SheetContent?
    ensures var key := FileKey(f.id);
            FileAborts(setup, existing, path, f) <==>
            && !f.content.ImageContent? && !setup.dryRun && key !in setup.failing && key in setup.unreadable
            && Exports(FileOutcome(setup, existing, path, f).report.status)
  {
    hide TooLarge, DocUnchanged, BodyUnchanged;
    match f.content
    case DocContent(_) =>
    case SlidesContent(_) =>
    case ImageContent(_, _) =>
  }

  /** A tab stops the run exactly when an export is due and any of its local steps raises. */
  lemma TabAbortsIff(setup: Setup, key: Key, existing: Option<Entry>, path: Path, body: Option<string>)
    ensures TabAborts(setup, key, existing, path, body) <==>
            && !setup.dryRun && (key in setup.failing || key in setup.unreadable || key in setup.unwritable)
            && Exports(BodyOutcome(setup, key, existing, path, body).report.status)
  {
    hide TooLarge, BodyUnchanged;
  }

  /******* The whole run *******/

  /** No local step raises and no tab listing breaks. */
  ghost predicate NothingRaises(setup: Setup, files: seq<DriveFile>) {
    && setup.failing == setup.unreadable == setup.unwritable == setup.stuck == {}
    && forall f :: f in files && f.content.SheetContent? ==> !f.content.archive.Broken?
  }

  /** Both names the file may have are taken. */
  predicate NoNameLeft(setup: Setup, f: DriveFile, taken: set<Path>) {
    var slug := Slugify(setup.fold, f.name, f.id);
    && !f.content.SheetContent?
    && Candidate(setup.fold, f.components, slug, Extension(f.content), f.id, false) in taken
    && Candidate(setup.fold, f.components, slug, Extension(f.content), f.id, true) in taken
  }

  lemma {:induction false} TabsNeverStop(
    setup: Setup, state: map<Key, Entry>, p: Progress, f: DriveFile, tabs: seq<Tab>, slugs: seq<string>, n: nat)
    requires f.content.SheetContent? && n <= |tabs| == |slugs|
    requires setup.failing == setup.unreadable == setup.unwritable == {}
    ensures ProcessTabs(setup, state, p, f, tabs, slugs, n).Some?
  {
    hide BodyOutcome, TabPath, BodyUnchanged;
    if n > 0 {
      TabsNeverStop(setup, state, p, f, tabs, slugs, n - 1);
    }
  }

  lemma FileStopsIff(setup: Setup, state: map<Key, Entry>, p: Progress, f: DriveFile)
    requires setup.failing == setup.unreadable == setup.unwritable == {}
    ensures ProcessFile(setup, state, p, f).None? <==> NoNameLeft(setup, f, p.taken)
  {
    hide ProcessTabs, FileOutcome, FileAborts, Slugify, Candidate, SortByIndex;
    if f.content.SheetContent? {
      if f.content.listing.Some? {
        var tabs := SortByIndex(f.content.listing.value);
        TabsNeverStop(setup, state, p, f, tabs, TabSlugs(BaseSlugs(setup.fold), tabs), |tabs|);
      }
    } else {
      var path := ResolveLocalPath(
        setup.fold, f.components, Slugify(setup.fold, f.name, f.id), Extension(f.content), p.taken, f.id);
      if path.Some? {
        FileAbortsIff(setup, Lookup(state, FileKey(f.id)), path.value, f);
      }
    }
  }

  /** File `i` finds no name when the ones before it are done. */
  ghost predicate StuckAt(setup: Setup, state: map<Key, Entry>, p: Progress, files: seq<DriveFile>, i: nat)
    requires i < |files|
  {
    var q := ProcessFiles(setup, state, p, files[..i]);
    q.Some? && NoNameLeft(setup, files[i], q.value.taken)
  }

  lemma {:induction false} FilesStopIff(setup: Setup, state: map<Key, Entry>, p: Progress, files: seq<DriveFile>)
    requires setup.failing == setup.unreadable == setup.unwritable == {}
    ensures ProcessFiles(setup, state, p, files).None? <==>
            exists i :: 0 <= i < |files| && StuckAt(setup, state, p, files, i)
  {
    hide ProcessFile, NoNameLeft;
    if files != [] {
      var n := |files| - 1;
      FilesStopIff(setup, state, p, files[..n]);
      assert forall i :: 0 <= i < n ==> files[..n][..i] == files[..i];
      assert forall i :: 0 <= i < n ==>
          (StuckAt(setup, state, p, files[..n], i) <==> StuckAt(setup, state, p, files, i));
      var q := ProcessFiles(setup, state, p, files[..n]);
      if q.Some? {
        FileStopsIff(setup, state, q.value, files[n]);
        assert StuckAt(setup, state, p, files, n) <==> NoNameLeft(setup, files[n], q.value.taken);
      } else {
        var i :| 0 <= i < n && StuckAt(setup, state, p, files[..n], i);
        assert StuckAt(setup, state, p, files, i);
      }
    }
  }

  /** When nothing raises, a run stops exactly at a file both of whose names are taken. */
  lemma RunStopsIff(setup: Setup, state: map<Key, Entry>, order: seq<Key>, files: seq<DriveFile>)
    requires DistinctIds(files) && (forall k :: k in order ==> k in state) && NothingRaises(setup, files)
    ensures var p := ArchivePass(setup, files, state, order);
            && p.Some?
            && (RunSync(setup, state, order, files).None? <==>
                exists i :: 0 <= i < |files| && StuckAt(setup, state, p.value, files, i))
  {
    hide ArchivePass, ProcessFiles;
    PassStopsIff(setup, files, state, order);
    FilesStopIff(setup, state, ArchivePass(setup, files, state, order).value, files);
  }
}
