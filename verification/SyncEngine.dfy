/** The sync run as it executes: one mutable context, counters and nested loops. */
module SyncEngine {
  import opened Wrappers
  import opened Slugs
  import opened Paths
  import opened SheetTabs
  import opened SyncSpec

  lemma TallySnoc(log: seq<Report>, r: Report)
    ensures Tally(log + [r]) == CountReport(Tally(log), r)
  {
    assert (log + [r])[..|log|] == log;
  }

  class SyncContext {
    const setup: Setup
    const state: map<Key, Entry>
    const files: seq<DriveFile>
    var newState: map<Key, Entry>
    var counts: Counts
    var taken: set<Path>
    // History of the run: what was reported and which paths were handed out.
    ghost var log: seq<Report>
    ghost var filePaths: seq<Path>
    ghost var tabPaths: seq<Path>

    ghost function View(): Progress
      reads this
    {
      Progress(newState, log, taken, filePaths, tabPaths)
    }

    /** The counters are the tally of the reports. */
    ghost predicate Valid()
      reads this
    {
      counts == Tally(log)
    }

    constructor (setup: Setup, state: map<Key, Entry>, files: seq<DriveFile>)
      ensures this.setup == setup && this.state == state && this.files == files
      ensures Valid() && View() == Progress(map[], [], {}, [], [])
    {
      this.setup, this.state, this.files := setup, state, files;
      newState, counts, taken := map[], ZERO, {};
      log, filePaths, tabPaths := [], [], [];
    }

    /** The entry is stored, or lost when it errored. */
    method Finish(key: Key, status: Status, failedLate: bool, entry: Option<Entry>)
      requires Valid()
      modifies this
      ensures Valid()
      ensures View() == Record(old(View()), Outcome(Report(key, status, failedLate), entry))
    {
      hide Tally;
      counts := counts.(total := counts.total + 1);
      counts := CountStatus(counts, status);
      if failedLate {
        counts := counts.(errors := counts.errors + 1);
      }
      if entry.Some? {
        newState := newState[key := entry.value];
      }
      TallySnoc(log, Report(key, status, failedLate));
      log := log + [Report(key, status, failedLate)];
    }

    method ExportEntry(
      key: Key, existing: Option<Entry>, path: Path, signature: string, bodyHash: string, images: map<string, string>)
      requires Valid()
      modifies this
      ensures Valid()
      ensures View() == Record(old(View()), Export(setup, key, existing, path, signature, bodyHash, images))
    {
      var status := StatusFor(existing, path);
      if setup.dryRun {
        var kept := if existing.Some? then existing.value
                    else Entry(path, signature, setup.now, bodyHash, None, images);
        Finish(key, status, false, Some(kept));
      } else if key in setup.failing || key in setup.unwritable {
        Finish(key, status, true, None);
      } else {
        Finish(key, status, false, Some(Entry(path, signature, setup.now, bodyHash, None, images)));
      }
    }

    method ProcessDoc(key: Key, existing: Option<Entry>, path: Path, rendered: Option<Rendered>) returns (ok: bool)
      requires Valid()
      modifies this
      ensures Valid()
      ensures ok == !DocAborts(setup, key, existing, path, rendered)
      ensures ok ==> View() == Record(old(View()), DocOutcome(setup, key, existing, path, rendered))
    {
      hide Utf8Size;
      if rendered.None? || TooLarge(rendered.value.body) {
        Finish(key, Error, false, None);
        return true;
      }
      var signature := Sha(setup, rendered.value.body);
      var images := if setup.dryRun then map[] else rendered.value.images;
      var isRename := existing.Some? && existing.value.path != path;
      var imagesUnchanged := existing.Some? && existing.value.images.Keys == images.Keys;
      var contentUnchanged := existing.Some? && existing.value.signature == signature;
      if contentUnchanged && imagesUnchanged && !isRename {
        Finish(key, Unchanged, false, existing);
        return true;
      }
      if !setup.dryRun && key !in setup.failing && key in setup.unreadable {
        return false;
      }
      ExportEntry(key, existing, path, signature, setup.sha256(rendered.value.body), images);
      ok := true;
    }

    /** A slide deck or a tab. */
    method ProcessBody(key: Key, existing: Option<Entry>, path: Path, body: Option<string>) returns (ok: bool)
      requires Valid()
      modifies this
      ensures Valid()
      ensures ok == !BodyAborts(setup, key, existing, path, body)
      ensures ok ==> View() == Record(old(View()), BodyOutcome(setup, key, existing, path, body))
    {
      hide Utf8Size;
      if body.None? || TooLarge(body.value) {
        Finish(key, Error, false, None);
        return true;
      }
      var signature := Sha(setup, body.value);
      var isRename := existing.Some? && existing.value.path != path;
      if existing.Some? && existing.value.signature == signature && !isRename {
        Finish(key, Unchanged, false, existing);
        return true;
      }
      if !setup.dryRun && key !in setup.failing && key in setup.unreadable {
        return false;
      }
      ExportEntry(key, existing, path, signature, setup.sha256(body.value), map[]);
      ok := true;
    }

    method ProcessImage(key: Key, existing: Option<Entry>, path: Path, md5: Option<string>, bytes: Option<string>)
      requires Valid()
      modifies this
      ensures Valid()
      ensures View() == Record(old(View()), ImageOutcome(setup, key, existing, path, md5, bytes))
    {
      var signature := "";
      if md5.Some? {
        signature := Md5(md5.value);
        if existing.Some? && existing.value.signature == signature {
          Finish(key, Unchanged, false, existing);
          return;
        }
      }
      if bytes.None? || |bytes.value| > ONE_MIB {
        Finish(key, Error, false, None);
        return;
      }
      if md5.None? {
        signature := Md5(setup.md5(bytes.value));
        if existing.Some? && existing.value.signature == signature {
          Finish(key, Unchanged, false, existing);
          return;
        }
      }
      ExportEntry(key, existing, path, signature, "", map[]);
    }

    /** A document, slide deck or image: allocate its path, then dispatch. */
    method ProcessOne(f: DriveFile) returns (ok: bool)
      requires Valid() && !f.content.SheetContent?
      modifies this
      ensures Valid()
      ensures ok == ProcessSingle(setup, state, old(View()), f).Some?
      ensures ok ==> View() == ProcessSingle(setup, state, old(View()), f).value
    {
      hide ResolveLocalPath, Slugify, DocOutcome, BodyOutcome, ImageOutcome, DocAborts, BodyAborts;
      var slug := Slugify(setup.fold, f.name, f.id);
      var path := ResolveLocalPath(setup.fold, f.components, slug, Extension(f.content), taken, f.id);
      if path.None? {
        return false;
      }
      taken := taken + {path.value};
      filePaths := filePaths + [path.value];
      var existing := Lookup(state, FileKey(f.id));
      match f.content {
        case DocContent(rendered) => ok := ProcessDoc(FileKey(f.id), existing, path.value, rendered);
        case SlidesContent(body) => ok := ProcessBody(FileKey(f.id), existing, path.value, body);
        case ImageContent(md5, bytes) =>
          ProcessImage(FileKey(f.id), existing, path.value, md5, bytes);
          ok := true;
      }
    }

    method ProcessOneTab(f: DriveFile, tab: Tab, slug: string) returns (ok: bool)
      requires Valid() && f.content.SheetContent?
      modifies this
      ensures Valid()
      ensures ok == ProcessTab(setup, state, old(View()), f, tab, slug).Some?
      ensures ok ==> View() == ProcessTab(setup, state, old(View()), f, tab, slug).value
    {
      hide TabPath, BodyOutcome, Utf8Size;
      var key := TabKey(f.id, tab.gid);
      var path := TabPath(setup.fold, f.components, f.name, f.id, slug);
      var body := if tab.gid in f.content.bodies then Some(f.content.bodies[tab.gid]) else None;
      if TabAborts(setup, key, Lookup(state, key), path, body) {
        return false;
      }
      taken := taken + {path};
      tabPaths := tabPaths + [path];
      ok := ProcessBody(key, Lookup(state, key), path, body);
    }

    /** All tabs of a workbook, in index order. */
    method ProcessWorkbook(f: DriveFile) returns (ok: bool)
      requires Valid() && f.content.SheetContent?
      modifies this
      ensures Valid()
      ensures ok == ProcessSheet(setup, state, old(View()), f).Some?
      ensures ok ==> View() == ProcessSheet(setup, state, old(View()), f).value
    {
      hide ProcessTab, TabSlugs, BaseSlugs;
      if f.content.listing.None? {
        Finish(FileKey(f.id), Error, false, None);
        return true;
      }
      var tabs, slugs := ResolveTabCollisions(BaseSlugs(setup.fold), f.content.listing.value);
      for i := 0 to |tabs|
        invariant Valid()
        invariant ProcessTabs(setup, state, old(View()), f, tabs, slugs, i) == Some(View())
      {
        var done := ProcessOneTab(f, tabs[i], slugs[i]);
        if !done {
          TabAbortAborts(setup, state, old(View()), f, tabs, slugs, i + 1, |tabs|);
          return false;
        }
      }
      ok := true;
    }

    method ArchiveEntry(key: Key, entry: Entry) returns (ok: bool)
      requires Valid()
      modifies this
      ensures Valid()
      ensures ok == !ArchiveAborts(setup, key, entry)
      ensures ok ==> View() == Record(old(View()), ArchiveOutcome(setup, key, entry))
    {
      if entry.archivedAt.Some? {
        Finish(key, Unchanged, false, Some(entry));
      } else if setup.dryRun {
        Finish(key, Archived, false, Some(entry));
      } else if key in setup.stuck {
        return false;
      } else {
        Finish(key, Archived, false, Some(entry.(archivedAt := Some(setup.now))));
      }
      ok := true;
    }

    /** The archive pass; `order` lists the stored keys as the state file does. */
    method HandleArchived(order: seq<Key>) returns (ok: bool)
      requires Valid() && View() == Progress(map[], [], {}, [], [])
      requires forall k :: k in order ==> k in state
      modifies this
      ensures Valid()
      ensures ok == ArchivePass(setup, files, state, order).Some?
      ensures ok ==> View() == ArchivePass(setup, files, state, order).value
    {
      hide FateOf, ListingBreaks;
      for i := 0 to |order|
        invariant Valid()
        invariant ArchivePass(setup, files, state, order[..i]) == Some(View())
      {
        assert order[..i + 1][..i] == order[..i];
        var key := order[i];
        match FateOf(files, key)
        case Later =>
        case Kept =>
          if ListingBreaks(files, key) {
            PassAbortAborts(setup, files, state, order, i + 1);
            return false;
          }
          newState := newState[key := state[key]];
        case Gone =>
          var done := ArchiveEntry(key, state[key]);
          if !done {
            PassAbortAborts(setup, files, state, order, i + 1);
            return false;
          }
      }
      assert order[..|order|] == order;
      ok := true;
    }

    /** One sync cycle; false means that an uncaught error stopped it. */
    method Run(order: seq<Key>) returns (ok: bool)
      requires Valid() && View() == Progress(map[], [], {}, [], [])
      requires forall k :: k in order ==> k in state
      modifies this
      ensures Valid()
      ensures ok == RunSync(setup, state, order, files).Some?
      ensures ok ==> View() == RunSync(setup, state, order, files).value
    {
      hide ProcessFile, ProcessSingle, ProcessSheet, ArchivePass;
      var archived := HandleArchived(order);
      if !archived {
        return false;
      }
      ghost var start := View();
      for i := 0 to |files|
        invariant Valid()
        invariant ProcessFiles(setup, state, start, files[..i]) == Some(View())
      {
        assert files[..i + 1][..i] == files[..i];
        ProcessFileCases(setup, state, View(), files[i]);
        var done;
        if files[i].content.SheetContent? {
          done := ProcessWorkbook(files[i]);
        } else {
          done := ProcessOne(files[i]);
        }
        if !done {
          FilesAbortAborts(setup, state, start, files, i + 1);
          return false;
        }
      }
      assert files[..|files|] == files;
      ok := true;
    }
  }

  /******* An aborted prefix aborts the run *******/

  lemma ProcessFileCases(setup: Setup, state: map<Key, Entry>, p: Progress, f: DriveFile)
    ensures f.content.SheetContent? ==> ProcessFile(setup, state, p, f) == ProcessSheet(setup, state, p, f)
    ensures !f.content.SheetContent? ==> ProcessFile(setup, state, p, f) == ProcessSingle(setup, state, p, f)
  {
  }

  lemma {:induction false} TabAbortAborts(
    setup: Setup, state: map<Key, Entry>, p: Progress, f: DriveFile, tabs: seq<Tab>, slugs: seq<string>, n: nat, m: nat)
    requires f.content.SheetContent? && n <= m <= |tabs| == |slugs|
    requires ProcessTabs(setup, state, p, f, tabs, slugs, n).None?
    ensures ProcessTabs(setup, state, p, f, tabs, slugs, m).None?
  {
    hide ProcessTab;
    if n < m {
      TabAbortAborts(setup, state, p, f, tabs, slugs, n, m - 1);
    }
  }

  lemma {:induction false} PassAbortAborts(
    setup: Setup, files: seq<DriveFile>, state: map<Key, Entry>, order: seq<Key>, n: nat)
    requires n <= |order| && forall k :: k in order ==> k in state
    requires ArchivePass(setup, files, state, order[..n]).None?
    ensures ArchivePass(setup, files, state, order).None?
  {
    hide FateOf;
    if n < |order| {
      var m := |order| - 1;
      assert order[..m][..n] == order[..n];
      PassAbortAborts(setup, files, state, order[..m], n);
    } else {
      assert order[..n] == order;
    }
  }

  lemma {:induction false} FilesAbortAborts(
    setup: Setup, state: map<Key, Entry>, p: Progress, files: seq<DriveFile>, n: nat)
    requires n <= |files| && ProcessFiles(setup, state, p, files[..n]).None?
    ensures ProcessFiles(setup, state, p, files).None?
  {
    hide ProcessFile;
    if n < |files| {
      var m := |files| - 1;
      assert files[..m][..n] == files[..n];
      FilesAbortAborts(setup, state, p, files[..m], n);
    } else {
      assert files[..n] == files;
    }
  }
}
