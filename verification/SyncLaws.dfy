/** What one sync run keeps: counts that add up, no key lost silently, no path used twice. */
module SyncLaws {
  import opened Wrappers
  import opened Slugs
  import opened Paths
  import opened SheetTabs
  import opened SyncSpec

  /******* Sizes *******/

  function PowerOfTwo(n: nat): nat {
    if n == 0 then 1 else 2 * PowerOfTwo(n - 1)
  }

  /** How many code points `n` bytes of UTF-8 reach: 7 bits in one byte, else 5n + 1 bits. */
  function Reach(n: nat): nat
    requires n > 0
  {
    PowerOfTwo(if n == 1 then 7 else 5 * n + 1)
  }

  /** A character takes the fewest bytes that reach it. */
  lemma WidthIsLeast(c: char, n: nat)
    requires n > 0
    ensures Utf8Width(c) <= n <==> (c as int) < Reach(n)
  {
    Reaches();
    if n > 4 {
      PowerGrows(21, 5 * n + 1);
    }
  }

  lemma Reaches()
    ensures Reach(1) == 0x80 && Reach(2) == 0x800 && Reach(3) == 0x10000 && Reach(4) == 0x200000
  {
    assert PowerOfTwo(7) == 0x80;
    assert PowerOfTwo(11) == 0x800;
    assert PowerOfTwo(16) == 0x10000;
    assert PowerOfTwo(21) == 0x200000;
  }

  lemma {:induction false} PowerGrows(a: nat, b: nat)
    requires a <= b
    ensures PowerOfTwo(a) <= PowerOfTwo(b)
  {
    if a < b {
      PowerGrows(a, b - 1);
    }
  }

  /******* Counts *******/

  /**
   created + updated + renamed + archived + unchanged + errors equals the total plus
   the late failures, so a run without errors balances exactly.
   */
  lemma {:induction false} CountsAddUp(log: seq<Report>)
    ensures var c := Tally(log);
            && c.total == |log|
            && c.created + c.updated + c.renamed + c.archived + c.same + c.errors == c.total + LateFailures(log)
            && LateFailures(log) <= c.errors
  {
    if log != [] {
      CountsAddUp(log[..|log| - 1]);
    }
  }

  function WithStatus(log: seq<Report>, status: Status): nat {
    if log == [] then 0
    else WithStatus(log[..|log| - 1], status) + if log[|log| - 1].status == status then 1 else 0
  }

  /** Each counter counts its own status; errors also count the late failures. */
  lemma {:induction false} CountersCount(log: seq<Report>)
    ensures var c := Tally(log);
            && c.created == WithStatus(log, Created) && c.updated == WithStatus(log, Updated)
            && c.renamed == WithStatus(log, Renamed) && c.archived == WithStatus(log, Archived)
            && c.same == WithStatus(log, Unchanged) && c.errors == WithStatus(log, Error) + LateFailures(log)
  {
    if log != [] {
      CountersCount(log[..|log| - 1]);
    }
  }

  ghost predicate IsErrored(r: Report) {
    r.status.Error? || r.failedLate
  }

  ghost predicate ErrorFree(log: seq<Report>) {
    forall i :: 0 <= i < |log| ==> !IsErrored(log[i])
  }

  /** No errors counted means that no report is an error. */
  lemma {:induction false} ErrorFreeIffZero(log: seq<Report>)
    ensures Tally(log).errors == 0 <==> ErrorFree(log)
  {
    if log != [] {
      var n := |log| - 1;
      ErrorFreeIffZero(log[..n]);
      assert ErrorFree(log) <==> ErrorFree(log[..n]) && !IsErrored(log[n]);
    }
  }

  lemma {:induction false} AllUnchangedTally(log: seq<Report>)
    requires forall i :: 0 <= i < |log| ==> log[i].status == Unchanged && !log[i].failedLate
    ensures Tally(log) == Counts(|log|, 0, 0, 0, 0, |log|, 0)
  {
    if log != [] {
      AllUnchangedTally(log[..|log| - 1]);
    }
  }

  /******* Frames *******/

  ghost predicate SameEntry(a: map<Key, Entry>, b: map<Key, Entry>, k: Key) {
    Lookup(a, k) == Lookup(b, k)
  }

  /** The keys that processing a file may store. */
  ghost predicate Touchable(f: DriveFile, k: Key) {
    && k.id == f.id
    && if f.content.SheetContent?
       then k.TabKey? && f.content.listing.Some? && HasGid(f.content.listing.value, k.gid)
       else k.FileKey?
  }

  /** Processing a file reports and allocates more, and stores only its own keys. */
  ghost predicate Grows(p: Progress, q: Progress, f: DriveFile) {
    && p.log <= q.log && p.newState.Keys <= q.newState.Keys && p.filePaths <= q.filePaths
    && p.tabPaths <= q.tabPaths
    && (forall k: Key :: !Touchable(f, k) ==> SameEntry(p.newState, q.newState, k))
  }

  lemma RecordGrows(p: Progress, o: Outcome, f: DriveFile)
    requires o.entry.Some? ==> Touchable(f, o.report.key)
    ensures Grows(p, Record(p, o), f)
  {
  }

  lemma GrowsIsTransitive(p: Progress, q: Progress, r: Progress, f: DriveFile)
    requires Grows(p, q, f) && Grows(q, r, f)
    ensures Grows(p, r, f)
  {
    forall k: Key | !Touchable(f, k) ensures SameEntry(p.newState, r.newState, k) {
      assert SameEntry(p.newState, q.newState, k) && SameEntry(q.newState, r.newState, k);
    }
  }

  lemma OutcomeKeys(setup: Setup, existing: Option<Entry>, path: Path, f: DriveFile)
    requires !f.content.SheetContent?
    ensures var o := FileOutcome(setup, existing, path, f);
            o.report.key == FileKey(f.id) && (o.entry.None? <==> IsErrored(o.report))
  {
  }

  lemma SortKeepsGids(tabs: seq<Tab>, gid: nat)
    ensures HasGid(SortByIndex(tabs), gid) <==> HasGid(tabs, gid)
  {
    var sorted := SortByIndex(tabs);
    if HasGid(sorted, gid) {
      var i :| 0 <= i < |sorted| && sorted[i].gid == gid;
      assert sorted[i] in multiset(tabs);
      var j :| 0 <= j < |tabs| && tabs[j] == sorted[i];
    }
    if HasGid(tabs, gid) {
      var i :| 0 <= i < |tabs| && tabs[i].gid == gid;
      assert tabs[i] in multiset(sorted);
      var j :| 0 <= j < |sorted| && sorted[j] == tabs[i];
    }
  }

  /** The parts of one tab step, named. */
  function TabBody(f: DriveFile, tab: Tab): Option<string>
    requires f.content.SheetContent?
  {
    if tab.gid in f.content.bodies then Some(f.content.bodies[tab.gid]) else None
  }

  ghost predicate AllTouchable(f: DriveFile, tabs: seq<Tab>) {
    forall i :: 0 <= i < |tabs| ==> Touchable(f, TabKey(f.id, tabs[i].gid))
  }

  lemma TabGrows(setup: Setup, state: map<Key, Entry>, p: Progress, f: DriveFile, tab: Tab, slug: string)
    requires f.content.SheetContent? && ProcessTab(setup, state, p, f, tab, slug).Some?
    requires Touchable(f, TabKey(f.id, tab.gid))
    ensures Grows(p, ProcessTab(setup, state, p, f, tab, slug).value, f)
  {
    hide TabPath;
    var path := TabPath(setup.fold, f.components, f.name, f.id, slug);
    var q := p.(taken := p.taken + {path}, tabPaths := p.tabPaths + [path]);
    var key := TabKey(f.id, tab.gid);
    RecordGrows(q, BodyOutcome(setup, key, Lookup(state, key), path, TabBody(f, tab)), f);
  }

  lemma {:induction false} TabsGrow(
    setup: Setup, state: map<Key, Entry>, p: Progress, f: DriveFile, tabs: seq<Tab>, slugs: seq<string>, n: nat)
    requires f.content.SheetContent? && n <= |tabs| == |slugs|
    requires AllTouchable(f, tabs)
    requires ProcessTabs(setup, state, p, f, tabs, slugs, n).Some?
    ensures Grows(p, ProcessTabs(setup, state, p, f, tabs, slugs, n).value, f)
  {
    hide ProcessTab;
    if n > 0 {
      TabsGrow(setup, state, p, f, tabs, slugs, n - 1);
      var q := ProcessTabs(setup, state, p, f, tabs, slugs, n - 1).value;
      TabGrows(setup, state, q, f, tabs[n - 1], slugs[n - 1]);
      GrowsIsTransitive(p, q, ProcessTab(setup, state, q, f, tabs[n - 1], slugs[n - 1]).value, f);
    }
  }

  lemma ListedTabsAreTouchable(f: DriveFile)
    requires f.content.SheetContent? && f.content.listing.Some?
    ensures AllTouchable(f, SortByIndex(f.content.listing.value))
  {
    var tabs := SortByIndex(f.content.listing.value);
    forall i | 0 <= i < |tabs| ensures Touchable(f, TabKey(f.id, tabs[i].gid)) {
      SortKeepsGids(f.content.listing.value, tabs[i].gid);
    }
  }

  lemma FileGrows(setup: Setup, state: map<Key, Entry>, p: Progress, f: DriveFile)
    requires ProcessFile(setup, state, p, f).Some?
    ensures Grows(p, ProcessFile(setup, state, p, f).value, f)
  {
    hide ResolveLocalPath, ProcessTabs, FileOutcome, FileAborts, Slugify, SortByIndex;
    if f.content.SheetContent? {
      if f.content.listing.Some? {
        var tabs := SortByIndex(f.content.listing.value);
        ListedTabsAreTouchable(f);
        TabsGrow(setup, state, p, f, tabs, TabSlugs(BaseSlugs(setup.fold), tabs), |tabs|);
      }
    } else {
      var path := ResolveLocalPath(
        setup.fold, f.components, Slugify(setup.fold, f.name, f.id), Extension(f.content), p.taken, f.id).value;
      var q := p.(taken := p.taken + {path}, filePaths := p.filePaths + [path]);
      OutcomeKeys(setup, Lookup(state, FileKey(f.id)), path, f);
      RecordGrows(q, FileOutcome(setup, Lookup(state, FileKey(f.id)), path, f), f);
    }
  }

  ghost predicate DistinctIds(files: seq<DriveFile>) {
    forall i, j :: 0 <= i < j < |files| ==> files[i].id != files[j].id
  }

  /** Later files leave the entry of a key alone once its own file has been processed. */
  lemma {:induction false} LaterFilesKeep(setup: Setup, state: map<Key, Entry>, p: Progress, files: seq<DriveFile>, n: nat, k: Key)
    requires n <= |files| && ProcessFiles(setup, state, p, files).Some?
    requires forall i :: n <= i < |files| ==> !Touchable(files[i], k)
    ensures ProcessFiles(setup, state, p, files[..n]).Some?
    ensures var q, r := ProcessFiles(setup, state, p, files[..n]).value, ProcessFiles(setup, state, p, files).value;
            && q.log <= r.log && q.filePaths <= r.filePaths && q.tabPaths <= r.tabPaths
            && SameEntry(q.newState, r.newState, k)
  {
    hide ProcessFile;
    if n == |files| {
      assert files[..n] == files;
    } else {
      var m := |files| - 1;
      LaterFilesKeep(setup, state, p, files[..m], n, k);
      assert files[..m][..n] == files[..n];
      FileGrows(setup, state, ProcessFiles(setup, state, p, files[..m]).value, files[m]);
    }
  }

  /** How many of the files are a document, a deck or an image: each is given one path. */
  function Singles(files: seq<DriveFile>): nat {
    if files == [] then 0
    else Singles(files[..|files| - 1]) + if files[|files| - 1].content.SheetContent? then 0 else 1
  }

  lemma {:induction false} TabsGiveNoFilePath(
    setup: Setup, state: map<Key, Entry>, p: Progress, f: DriveFile, tabs: seq<Tab>, slugs: seq<string>, n: nat)
    requires f.content.SheetContent? && n <= |tabs| == |slugs| && ProcessTabs(setup, state, p, f, tabs, slugs, n).Some?
    ensures ProcessTabs(setup, state, p, f, tabs, slugs, n).value.filePaths == p.filePaths
  {
    hide TabAborts, BodyOutcome, TabPath;
    if n > 0 {
      TabsGiveNoFilePath(setup, state, p, f, tabs, slugs, n - 1);
    }
  }

  lemma {:induction false} OnePathEach(setup: Setup, state: map<Key, Entry>, p: Progress, files: seq<DriveFile>)
    requires ProcessFiles(setup, state, p, files).Some?
    ensures |ProcessFiles(setup, state, p, files).value.filePaths| == |p.filePaths| + Singles(files)
  {
    hide ResolveLocalPath, ProcessTabs, FileOutcome, FileAborts, Slugify, SortByIndex;
    if files != [] {
      var f := files[|files| - 1];
      OnePathEach(setup, state, p, files[..|files| - 1]);
      var q := ProcessFiles(setup, state, p, files[..|files| - 1]).value;
      if f.content.SheetContent? && f.content.listing.Some? {
        var tabs := SortByIndex(f.content.listing.value);
        TabsGiveNoFilePath(setup, state, q, f, tabs, TabSlugs(BaseSlugs(setup.fold), tabs), |tabs|);
      }
    }
  }

  /******* No tracked key is dropped silently *******/

  ghost predicate HasError(log: seq<Report>, k: Key) {
    exists i :: 0 <= i < |log| && log[i].key == k && IsErrored(log[i])
  }

  /** After a document, deck or image, its key is stored or its error is reported. */
  lemma SingleStoresOrErrs(setup: Setup, state: map<Key, Entry>, p: Progress, f: DriveFile)
    requires !f.content.SheetContent? && ProcessFile(setup, state, p, f).Some?
    ensures var q := ProcessFile(setup, state, p, f).value;
            FileKey(f.id) in q.newState || HasError(q.log, FileKey(f.id))
  {
    var path := ResolveLocalPath(
      setup.fold, f.components, Slugify(setup.fold, f.name, f.id), Extension(f.content), p.taken, f.id).value;
    var q := p.(taken := p.taken + {path}, filePaths := p.filePaths + [path]);
    var o := FileOutcome(setup, Lookup(state, FileKey(f.id)), path, f);
    OutcomeKeys(setup, Lookup(state, FileKey(f.id)), path, f);
    assert Record(q, o).log[|p.log|] == o.report;
  }

  /** What the archive pass stores for a key it does not leave for later. */
  ghost function ArchivedEntry(setup: Setup, files: seq<DriveFile>, state: map<Key, Entry>, k: Key): Entry
    requires k in state
  {
    if FateOf(files, k).Kept? then state[k] else ArchiveOutcome(setup, k, state[k]).entry.value
  }

  /** The archive pass stores exactly the keys that are not left for later, and reports the gone ones. */
  ghost predicate ArchiveInv(setup: Setup, files: seq<DriveFile>, state: map<Key, Entry>, order: seq<Key>, p: Progress) {
    && (forall k :: k in order ==> k in state)
    && (forall k :: k in p.newState <==> k in order && FateOf(files, k) != Later)
    && (forall k :: k in p.newState ==> p.newState[k] == ArchivedEntry(setup, files, state, k))
    && (forall i :: 0 <= i < |p.log| ==>
          && p.log[i].key in order && FateOf(files, p.log[i].key) == Gone
          && p.log[i] == ArchiveOutcome(setup, p.log[i].key, state[p.log[i].key]).report)
    && p.taken == {} && p.filePaths == [] && p.tabPaths == []
  }

  lemma ArchiveKeyKeeps(
    setup: Setup, files: seq<DriveFile>, state: map<Key, Entry>, order: seq<Key>, key: Key, p: Progress)
    requires key in state && ArchiveInv(setup, files, state, order, p)
    requires ArchiveKey(setup, files, state, key, p).Some?
    ensures ArchiveInv(setup, files, state, order + [key], ArchiveKey(setup, files, state, key, p).value)
  {
    hide FateOf, ArchiveAborts;
    assert forall k :: k in order + [key] <==> k in order || k == key;
  }

  lemma {:induction false} ArchivePassKeeps(setup: Setup, files: seq<DriveFile>, state: map<Key, Entry>, order: seq<Key>)
    requires forall k :: k in order ==> k in state
    requires ArchivePass(setup, files, state, order).Some?
    ensures ArchiveInv(setup, files, state, order, ArchivePass(setup, files, state, order).value)
  {
    if order != [] {
      var n := |order| - 1;
      ArchivePassKeeps(setup, files, state, order[..n]);
      var p := ArchivePass(setup, files, state, order[..n]).value;
      assert ArchivePass(setup, files, state, order) == ArchiveKey(setup, files, state, order[n], p);
      ArchiveKeyKeeps(setup, files, state, order[..n], order[n], p);
      assert order == order[..n] + [order[n]];
    }
  }

  lemma {:induction false} StoredKeysStay(setup: Setup, state: map<Key, Entry>, p: Progress, files: seq<DriveFile>)
    requires ProcessFiles(setup, state, p, files).Some?
    ensures p.newState.Keys <= ProcessFiles(setup, state, p, files).value.newState.Keys
    ensures p.log <= ProcessFiles(setup, state, p, files).value.log
  {
    hide ProcessFile;
    if files != [] {
      var n := |files| - 1;
      StoredKeysStay(setup, state, p, files[..n]);
      FileGrows(setup, state, ProcessFiles(setup, state, p, files[..n]).value, files[n]);
    }
  }

  /** A file present in Drive that is not a spreadsheet ends up stored or errored. */
  lemma PresentFileStoresOrErrs(setup: Setup, state: map<Key, Entry>, p: Progress, files: seq<DriveFile>, i: nat)
    requires DistinctIds(files) && i < |files| && !files[i].content.SheetContent?
    requires ProcessFiles(setup, state, p, files).Some?
    ensures var r := ProcessFiles(setup, state, p, files).value;
            FileKey(files[i].id) in r.newState || HasError(r.log, FileKey(files[i].id))
  {
    hide ProcessFile;
    var k := FileKey(files[i].id);
    LaterFilesKeep(setup, state, p, files, i + 1, k);
    assert files[..i + 1][..i] == files[..i];
    var q := ProcessFiles(setup, state, p, files[..i]).value;
    assert ProcessFiles(setup, state, p, files[..i + 1]) == ProcessFile(setup, state, q, files[i]);
    SingleStoresOrErrs(setup, state, q, files[i]);
    var r, t := ProcessFiles(setup, state, p, files[..i + 1]).value, ProcessFiles(setup, state, p, files).value;
    assert SameEntry(r.newState, t.newState, k);
    if HasError(r.log, k) {
      var x :| 0 <= x < |r.log| && r.log[x].key == k && IsErrored(r.log[x]);
      assert t.log[x] == r.log[x];
    }
  }

  /**
   In a completed run every stored key is stored again, unless its file reported an
   error or its identifier now names a spreadsheet.
   */
  lemma NoKeyDroppedSilently(setup: Setup, state: map<Key, Entry>, order: seq<Key>, files: seq<DriveFile>, k: Key)
    requires (forall x :: x in order <==> x in state) && DistinctIds(files) && k in state
    requires RunSync(setup, state, order, files).Some?
    ensures var r := RunSync(setup, state, order, files).value;
            || k in r.newState
            || HasError(r.log, k)
            || (k.FileKey? && exists f :: f in files && f.id == k.id && f.content.SheetContent?)
  {
    var p := ArchivePass(setup, files, state, order).value;
    ArchivePassKeeps(setup, files, state, order);
    StoredKeysStay(setup, state, p, files);
    if FateOf(files, k) == Later {
      var i :| 0 <= i < |files| && files[i] == FindFile(files, k.id).value;
      if !files[i].content.SheetContent? {
        PresentFileStoresOrErrs(setup, state, p, files, i);
      }
    }
  }

  /******* What a status says *******/

  /** A tracked image whose checksum is the stored one. */
  predicate KeepsEntry(setup: Setup, existing: Option<Entry>, f: DriveFile) {
    && f.content.ImageContent? && existing.Some? && (f.content.md5.Some? || f.content.bytes.Some?)
    && existing.value.signature
       == Md5(if f.content.md5.Some? then f.content.md5.value else setup.md5(f.content.bytes.value))
  }

  /**
   A status tells how the file relates to what was stored: created means untracked,
   renamed means tracked under another path, updated means same path but other
   content, and unchanged keeps the stored entry, as an image with the stored checksum
   always does. A write stores the file's own path
   and signature and clears the archive mark.
   */
  ghost predicate StatusTells(
    setup: Setup, existing: Option<Entry>, path: Path, f: DriveFile, status: Status, entry: Entry)
  {
    && (status == Created <==> existing.None?)
    && (status == Unchanged ==> existing == Some(entry))
    && (KeepsEntry(setup, existing, f) ==> status == Unchanged)
    && (status == Renamed ==> existing.Some? && existing.value.path != path)
    && (status == Updated ==> && existing.Some? && existing.value.path == path
                              && (existing.value.signature != entry.signature
                                  || existing.value.images.Keys != entry.images.Keys))
    && status != Archived
    && (status != Unchanged ==> entry.path == path && entry.exportedAt == setup.now && entry.archivedAt.None?)
    && (status != Unchanged ==> StoresAnew(setup, f, entry))
    && StoresContent(setup, path, f, entry)
  }

  /** What an export stores besides the signature: the hash of the body and the image manifest. */
  ghost predicate StoresAnew(setup: Setup, f: DriveFile, entry: Entry) {
    match f.content
    case DocContent(rendered) =>
      rendered.Some? && entry.bodyHash == setup.sha256(rendered.value.body) && entry.images == rendered.value.images
    case SlidesContent(body) => body.Some? && entry.bodyHash == setup.sha256(body.value) && entry.images == map[]
    case ImageContent(_, _) => entry.bodyHash == "" && entry.images == map[]
    case SheetContent(_, _, _, _) => false
  }

  /** The entry is the file's own content under its own path; an image keeps its old path while its checksum is the same. */
  ghost predicate StoresContent(setup: Setup, path: Path, f: DriveFile, entry: Entry) {
    match f.content
    case DocContent(rendered) =>
      && rendered.Some? && entry.path == path && entry.signature == Sha(setup, rendered.value.body)
      && entry.images.Keys == rendered.value.images.Keys
    case SlidesContent(body) => body.Some? && entry.path == path && entry.signature == Sha(setup, body.value)
    case ImageContent(md5, bytes) =>
      && (md5.Some? || bytes.Some?)
      && entry.signature == Md5(if md5.Some? then md5.value else setup.md5(bytes.value))
    case SheetContent(_, _, _, _) => false
  }

  lemma OutcomeTells(setup: Setup, existing: Option<Entry>, path: Path, f: DriveFile)
    requires !f.content.SheetContent? && !setup.dryRun
    requires !IsErrored(FileOutcome(setup, existing, path, f).report)
    ensures var o := FileOutcome(setup, existing, path, f);
            o.entry.Some? && StatusTells(setup, existing, path, f, o.report.status, o.entry.value)
  {
    hide Utf8Size;
    OutcomeKeys(setup, existing, path, f);
    match f.content
    case DocContent(_) =>
    case SlidesContent(_) =>
    case ImageContent(_, _) =>
  }

  /** Drive gave no content or too much of it; an image with the stored Drive checksum is not even asked for. */
  predicate Unusable(existing: Option<Entry>, f: DriveFile) {
    match f.content
    case DocContent(rendered) => rendered.None? || Utf8Size(rendered.value.body) > 1048576
    case SlidesContent(body) => body.None? || Utf8Size(body.value) > 1048576
    case ImageContent(md5, bytes) =>
      && !(md5.Some? && existing.Some? && existing.value.signature == Md5(md5.value))
      && (bytes.None? || |bytes.value| > 1048576)
    case SheetContent(_, _, listing, _) => listing.None?
  }

  /** The content is usable but differs from what is stored, or the place does. */
  predicate Exports(status: Status) {
    status == Created || status == Updated || status == Renamed
  }

  /** A file errs exactly when it is unusable, or its export is due and a local step raises. */
  ghost predicate ErrsRightly(setup: Setup, existing: Option<Entry>, f: DriveFile, report: Report) {
    && (report.status == Error <==> Unusable(existing, f))
    && (report.failedLate <==> && Exports(report.status) && !setup.dryRun
                               && (report.key in setup.failing || report.key in setup.unwritable))
  }

  lemma OutcomeErrsRightly(setup: Setup, existing: Option<Entry>, path: Path, f: DriveFile)
    requires !f.content.SheetContent?
    ensures ErrsRightly(setup, existing, f, FileOutcome(setup, existing, path, f).report)
  {
    hide Utf8Size, DocUnchanged, BodyUnchanged;
    match f.content
    case DocContent(_) =>
    case SlidesContent(_) =>
    case ImageContent(_, _) =>
  }

  /** The report at `j`, the path at `n` and the final entry tell the truth about the file: an errored file is not stored. */
  ghost predicate TellsOf(setup: Setup, state: map<Key, Entry>, f: DriveFile, r: Progress, j: nat, n: nat) {
    var k := FileKey(f.id);
    && j < |r.log| && r.log[j].key == k && n < |r.filePaths| && ErrsRightly(setup, Lookup(state, k), f, r.log[j])
    && if IsErrored(r.log[j]) then k !in r.newState
       else k in r.newState && StatusTells(setup, Lookup(state, k), r.filePaths[n], f, r.log[j].status, r.newState[k])
  }

  lemma SingleTells(setup: Setup, state: map<Key, Entry>, p: Progress, f: DriveFile)
    requires !f.content.SheetContent? && !setup.dryRun && FileKey(f.id) !in p.newState
    requires ProcessFile(setup, state, p, f).Some?
    ensures TellsOf(setup, state, f, ProcessFile(setup, state, p, f).value, |p.log|, |p.filePaths|)
  {
    hide ResolveLocalPath, FileOutcome, FileAborts, StatusTells, ErrsRightly, Slugify;
    var path := ResolveLocalPath(
      setup.fold, f.components, Slugify(setup.fold, f.name, f.id), Extension(f.content), p.taken, f.id).value;
    var existing := Lookup(state, FileKey(f.id));
    OutcomeKeys(setup, existing, path, f);
    var o := FileOutcome(setup, existing, path, f);
    var q := p.(taken := p.taken + {path}, filePaths := p.filePaths + [path]);
    assert ProcessFile(setup, state, p, f).value == Record(q, o) && Record(q, o).log[|p.log|] == o.report;
    OutcomeErrsRightly(setup, existing, path, f);
    if !IsErrored(o.report) {
      OutcomeTells(setup, existing, path, f);
    }
  }

  /**
   In a completed run every listed document, deck and image has a report that tells the
   truth: what is stored for it in the end relates to what was stored before, to the
   allocated path and to the file's content as its status says.
   */
  lemma RunTellsWhatChanged(
    setup: Setup, state: map<Key, Entry>, order: seq<Key>, files: seq<DriveFile>, i: nat) returns (j: nat)
    requires (forall k :: k in order <==> k in state) && DistinctIds(files) && !setup.dryRun
    requires i < |files| && !files[i].content.SheetContent? && RunSync(setup, state, order, files).Some?
    ensures TellsOf(setup, state, files[i], RunSync(setup, state, order, files).value, j, Singles(files[..i]))
  {
    hide ProcessFile, FateOf, StatusTells, ErrsRightly;
    var k := FileKey(files[i].id);
    var p := ArchivePass(setup, files, state, order).value;
    ArchivePassKeeps(setup, files, state, order);
    assert k !in p.newState by { PresentIsLater(files, i); }
    LaterFilesKeep(setup, state, p, files, i + 1, k);
    assert files[..i + 1][..i] == files[..i];
    var q := ProcessFiles(setup, state, p, files[..i]).value;
    assert ProcessFiles(setup, state, p, files[..i + 1]) == ProcessFile(setup, state, q, files[i]);
    LaterFilesKeep(setup, state, p, files[..i], 0, k);
    assert files[..i][..0] == [];
    SingleTells(setup, state, q, files[i]);
    OnePathEach(setup, state, p, files[..i]);
    j := |q.log|;
    var r, t := ProcessFiles(setup, state, p, files[..i + 1]).value, ProcessFiles(setup, state, p, files).value;
    assert SameEntry(r.newState, t.newState, k) && t.log[j] == r.log[j];
  }

  lemma PresentIsLater(files: seq<DriveFile>, i: nat)
    requires i < |files|
    ensures FateOf(files, FileKey(files[i].id)) == Later
  {
    assert files[i] in files;
  }
}
