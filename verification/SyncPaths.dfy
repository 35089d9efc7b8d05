/**
 In one run no two files are given the same path, and no file is given a tab's path.
 Whether no two are stored under the same path is another question.
 */
module SyncPaths {
  import opened Wrappers
  import opened Slugs
  import opened Paths
  import opened SheetTabs
  import opened SyncSpec
  import opened SyncLaws

  ghost predicate PathInv(p: Progress) {
    && (forall i :: 0 <= i < |p.filePaths| ==> p.filePaths[i] in p.taken && !HasDoubleHyphen(p.filePaths[i].name))
    && (forall i :: 0 <= i < |p.tabPaths| ==> p.tabPaths[i] in p.taken && HasDoubleHyphen(p.tabPaths[i].name))
    && (forall i, j :: 0 <= i < j < |p.filePaths| ==> p.filePaths[i] != p.filePaths[j])
  }

  lemma SingleKeepsPaths(setup: Setup, state: map<Key, Entry>, p: Progress, f: DriveFile)
    requires IsFold(setup.fold) && IsPlainId(f.id) && !f.content.SheetContent? && PathInv(p)
    requires ProcessFile(setup, state, p, f).Some?
    ensures PathInv(ProcessFile(setup, state, p, f).value)
  {
    hide ResolveLocalPath, FileOutcome, Slugify;
    FileNameHasNoDoubleHyphen(setup.fold, f.components, f.name, Extension(f.content), p.taken, f.id);
  }

  lemma TabKeepsPaths(setup: Setup, state: map<Key, Entry>, p: Progress, f: DriveFile, tab: Tab, slug: string)
    requires f.content.SheetContent? && PathInv(p) && ProcessTab(setup, state, p, f, tab, slug).Some?
    ensures PathInv(ProcessTab(setup, state, p, f, tab, slug).value)
  {
    hide TabPath, BodyOutcome, TabAborts;
    TabNameHasDoubleHyphen(setup.fold, f.components, f.name, f.id, slug);
  }

  lemma {:induction false} TabsKeepPaths(
    setup: Setup, state: map<Key, Entry>, p: Progress, f: DriveFile, tabs: seq<Tab>, slugs: seq<string>, n: nat)
    requires f.content.SheetContent? && n <= |tabs| == |slugs| && PathInv(p)
    requires ProcessTabs(setup, state, p, f, tabs, slugs, n).Some?
    ensures PathInv(ProcessTabs(setup, state, p, f, tabs, slugs, n).value)
  {
    hide ProcessTab;
    if n > 0 {
      TabsKeepPaths(setup, state, p, f, tabs, slugs, n - 1);
      TabKeepsPaths(setup, state, ProcessTabs(setup, state, p, f, tabs, slugs, n - 1).value, f, tabs[n - 1], slugs[n - 1]);
    }
  }

  lemma FileKeepsPaths(setup: Setup, state: map<Key, Entry>, p: Progress, f: DriveFile)
    requires IsFold(setup.fold) && IsPlainId(f.id) && PathInv(p) && ProcessFile(setup, state, p, f).Some?
    ensures PathInv(ProcessFile(setup, state, p, f).value)
  {
    hide ProcessTabs, ProcessSingle;
    if !f.content.SheetContent? {
      SingleKeepsPaths(setup, state, p, f);
    } else if f.content.listing.Some? {
      var tabs := SortByIndex(f.content.listing.value);
      TabsKeepPaths(setup, state, p, f, tabs, TabSlugs(BaseSlugs(setup.fold), tabs), |tabs|);
    }
  }

  lemma {:induction false} FilesKeepPaths(setup: Setup, state: map<Key, Entry>, p: Progress, files: seq<DriveFile>)
    requires IsFold(setup.fold) && PathInv(p) && (forall i :: 0 <= i < |files| ==> IsPlainId(files[i].id))
    requires ProcessFiles(setup, state, p, files).Some?
    ensures PathInv(ProcessFiles(setup, state, p, files).value)
  {
    hide ProcessFile;
    if files != [] {
      var n := |files| - 1;
      FilesKeepPaths(setup, state, p, files[..n]);
      FileKeepsPaths(setup, state, ProcessFiles(setup, state, p, files[..n]).value, files[n]);
    }
  }

  /** The paths given to documents, slides and images are pairwise distinct, and none is given to a tab. */
  lemma PathsAreDistinct(setup: Setup, state: map<Key, Entry>, order: seq<Key>, files: seq<DriveFile>)
    requires forall k :: k in order ==> k in state
    requires IsFold(setup.fold) && forall i :: 0 <= i < |files| ==> IsPlainId(files[i].id)
    requires RunSync(setup, state, order, files).Some?
    ensures var r := RunSync(setup, state, order, files).value;
            && (forall i, j :: 0 <= i < j < |r.filePaths| ==> r.filePaths[i] != r.filePaths[j])
            && (forall i, j :: 0 <= i < |r.filePaths| && 0 <= j < |r.tabPaths| ==> r.filePaths[i] != r.tabPaths[j])
  {
    hide ProcessFile, FateOf, HasDoubleHyphen, Slugify;
    ArchivePassKeeps(setup, files, state, order);
    FilesKeepPaths(setup, state, ArchivePass(setup, files, state, order).value, files);
  }

  /******* Stored paths *******/

  predicate IsStored(r: Progress, f: DriveFile) {
    !f.content.SheetContent? && FileKey(f.id) in r.newState
  }

  /** No two listed documents, decks and images are stored under the same path. */
  ghost predicate StoredApart(files: seq<DriveFile>, r: Progress) {
    forall i, j :: 0 <= i < j < |files| && IsStored(r, files[i]) && IsStored(r, files[j]) ==>
      r.newState[FileKey(files[i].id)].path != r.newState[FileKey(files[j].id)].path
  }

  lemma {:induction false} SinglesGrow(files: seq<DriveFile>, i: nat)
    requires i < |files| && !files[i].content.SheetContent?
    ensures Singles(files[..i]) < Singles(files)
  {
    var n := |files| - 1;
    if i < n {
      SinglesGrow(files[..n], i);
      assert files[..n][..i] == files[..i];
    }
  }

  /** The path the run gives to a file that is not a workbook. */
  function GivenPath(files: seq<DriveFile>, r: Progress, i: nat): Path
    requires i < |files| && !files[i].content.SheetContent? && |r.filePaths| == Singles(files)
  {
    SinglesGrow(files, i);
    r.filePaths[Singles(files[..i])]
  }

  /** Where a file is left: an image with the stored checksum stays, any other goes to the path it is given. */
  function PlaceOf(setup: Setup, state: map<Key, Entry>, files: seq<DriveFile>, r: Progress, i: nat): Path
    requires i < |files| && !files[i].content.SheetContent? && |r.filePaths| == Singles(files)
  {
    var existing := Lookup(state, FileKey(files[i].id));
    if KeepsEntry(setup, existing, files[i]) then existing.value.path else GivenPath(files, r, i)
  }

  /** An image that stays away from the path it is given, where another file is left. */
  predicate Collide(setup: Setup, state: map<Key, Entry>, files: seq<DriveFile>, r: Progress, i: nat, j: nat)
    requires i < |files| && j < |files| && |r.filePaths| == Singles(files)
  {
    && i != j && IsStored(r, files[i]) && IsStored(r, files[j])
    && PlaceOf(setup, state, files, r, i) != GivenPath(files, r, i)
    && PlaceOf(setup, state, files, r, i) == PlaceOf(setup, state, files, r, j)
  }

  lemma GivenPathsDiffer(setup: Setup, state: map<Key, Entry>, order: seq<Key>, files: seq<DriveFile>, i: nat, j: nat)
    requires forall k :: k in order ==> k in state
    requires IsFold(setup.fold) && forall x :: 0 <= x < |files| ==> IsPlainId(files[x].id)
    requires RunSync(setup, state, order, files).Some?
    requires i < j < |files| && !files[i].content.SheetContent? && !files[j].content.SheetContent?
    requires |RunSync(setup, state, order, files).value.filePaths| == Singles(files)
    ensures var r := RunSync(setup, state, order, files).value; GivenPath(files, r, i) != GivenPath(files, r, j)
  {
    hide RunSync, IsFold, IsPlainId;
    SinglesGrow(files, j);
    SinglesGrow(files[..j], i);
    assert files[..j][..i] == files[..i];
    PathsAreDistinct(setup, state, order, files);
  }

  lemma RunGivesOnePathEach(setup: Setup, state: map<Key, Entry>, order: seq<Key>, files: seq<DriveFile>)
    requires (forall k :: k in order ==> k in state) && RunSync(setup, state, order, files).Some?
    ensures |RunSync(setup, state, order, files).value.filePaths| == Singles(files)
  {
    hide ProcessFiles, FateOf;
    ArchivePassKeeps(setup, files, state, order);
    OnePathEach(setup, state, ArchivePass(setup, files, state, order).value, files);
  }

  /**
   A document or deck is given its slug with ".md" and an image its slug with ".png", in
   its slugged folders; only if that is taken, the same with the first eight characters of
   its identifier.
   */
  lemma GivenPathIsNamed(setup: Setup, state: map<Key, Entry>, order: seq<Key>, files: seq<DriveFile>, i: nat)
    requires (forall k :: k in order ==> k in state) && DistinctIds(files) && RunSync(setup, state, order, files).Some?
    requires i < |files| && !files[i].content.SheetContent?
    requires |RunSync(setup, state, order, files).value.filePaths| == Singles(files)
    ensures var f, given := files[i], GivenPath(files, RunSync(setup, state, order, files).value, i);
            var slug := Slugify(setup.fold, Slugify(setup.fold, f.name, f.id), f.id);
            var ext := if f.content.ImageContent? then ".png" else ".md";
            && given.folders == SlugFolders(setup.fold, f.components, f.id)
            && (given.name == slug + ext || given.name == slug + "-" + f.id[..if |f.id| < 8 then |f.id| else 8] + ext)
  {
    hide ProcessFile, FateOf, Slugify, SlugFolders, Singles;
    var p := ArchivePass(setup, files, state, order).value;
    ArchivePassKeeps(setup, files, state, order);
    LaterFilesKeep(setup, state, p, files, i + 1, FileKey(files[i].id));
    assert files[..i + 1][..i] == files[..i];
    var q := ProcessFiles(setup, state, p, files[..i]).value;
    assert ProcessFiles(setup, state, p, files[..i + 1]) == ProcessFile(setup, state, q, files[i]);
    OnePathEach(setup, state, p, files[..i]);
    SingleIsNamed(setup, state, q, files[i]);
    SinglesGrow(files, i);
  }

  lemma SingleIsNamed(setup: Setup, state: map<Key, Entry>, p: Progress, f: DriveFile)
    requires !f.content.SheetContent? && ProcessFile(setup, state, p, f).Some?
    ensures var q := ProcessFile(setup, state, p, f).value;
            var slug := Slugify(setup.fold, Slugify(setup.fold, f.name, f.id), f.id);
            var ext := if f.content.ImageContent? then ".png" else ".md";
            && |q.filePaths| == |p.filePaths| + 1
            && var given := q.filePaths[|p.filePaths|];
            && given.folders == SlugFolders(setup.fold, f.components, f.id)
            && (given.name == slug + ext || given.name == slug + "-" + f.id[..if |f.id| < 8 then |f.id| else 8] + ext)
  {
    hide Slugify, SlugFolders, FileOutcome, FileAborts;
    assert f.id[..|f.id|] == f.id;
  }

  /** A completed run stores a file where it is left. */
  lemma StoredAtPlace(setup: Setup, state: map<Key, Entry>, order: seq<Key>, files: seq<DriveFile>, i: nat)
    requires (forall k :: k in order <==> k in state) && DistinctIds(files) && !setup.dryRun
    requires i < |files| && RunSync(setup, state, order, files).Some?
    requires |RunSync(setup, state, order, files).value.filePaths| == Singles(files)
    requires IsStored(RunSync(setup, state, order, files).value, files[i])
    ensures var r := RunSync(setup, state, order, files).value;
            r.newState[FileKey(files[i].id)].path == PlaceOf(setup, state, files, r, i)
  {
    hide RunSync, Singles;
    var j := RunTellsWhatChanged(setup, state, order, files, i);
  }

  /**
   In a completed real run the listed documents, decks and images are stored under
   distinct paths exactly when no image kept for its checksum stays where another file
   is left: the paths the run gives are never at fault.
   */
  lemma StoredApartIff(setup: Setup, state: map<Key, Entry>, order: seq<Key>, files: seq<DriveFile>)
    requires (forall k :: k in order <==> k in state) && DistinctIds(files) && !setup.dryRun
    requires IsFold(setup.fold) && forall i :: 0 <= i < |files| ==> IsPlainId(files[i].id)
    requires RunSync(setup, state, order, files).Some?
    ensures var r := RunSync(setup, state, order, files).value;
            && |r.filePaths| == Singles(files)
            && (StoredApart(files, r) <==>
                forall i, j :: 0 <= i < |files| && 0 <= j < |files| ==> !Collide(setup, state, files, r, i, j))
  {
    hide RunSync, Singles, IsFold, IsPlainId, PlaceOf, GivenPath;
    var r := RunSync(setup, state, order, files).value;
    RunGivesOnePathEach(setup, state, order, files);
    forall i | 0 <= i < |files| && IsStored(r, files[i])
      ensures r.newState[FileKey(files[i].id)].path == PlaceOf(setup, state, files, r, i)
    {
      StoredAtPlace(setup, state, order, files, i);
    }
    forall i, j | 0 <= i < j < |files| && IsStored(r, files[i]) && IsStored(r, files[j])
      ensures r.newState[FileKey(files[i].id)].path == r.newState[FileKey(files[j].id)].path
              <==> Collide(setup, state, files, r, i, j) || Collide(setup, state, files, r, j, i)
    {
      GivenPathsDiffer(setup, state, order, files, i, j);
    }
  }

  lemma NormalNameIsGiven(fold: string -> string, name: string, ext: string, taken: set<Path>, id: string)
    requires IsFold(fold) && IsNormal(name) && Path([], name + ext) !in taken
    ensures ResolveLocalPath(fold, [], Slugify(fold, name, id), ext, taken, id) == Some(Path([], name + ext))
  {
    hide Slugify, IsFold, IsNormal;
    NormalIsFixed(fold, name, id);
    assert SlugFolders(fold, [], id) == [];
  }

  /**
   An image stored as `was` and renamed in Drive with the same checksum keeps its entry;
   a new image with the old name is given, and stored under, the path of that entry.
   */
  lemma ImagesCanShareAPath(setup: Setup, was: string, now: string, entry: Entry, bytes: string)
    requires IsFold(setup.fold) && !setup.dryRun && IsNormal(was) && IsNormal(now) && was != now
    requires FileKey("y") !in setup.failing && FileKey("y") !in setup.unwritable && |bytes| <= ONE_MIB
    requires entry.path == Path([], was + ".png") && entry.signature == Md5("m")
    ensures var x := DriveFile("x", now, [], ImageContent(Some("m"), None));
            var y := DriveFile("y", was, [], ImageContent(Some("n"), Some(bytes)));
            var r := RunSync(setup, map[FileKey("x") := entry], [FileKey("x")], [x, y]);
            && r.Some? && FileKey("x") in r.value.newState && FileKey("y") in r.value.newState
            && r.value.newState[FileKey("x")].path == r.value.newState[FileKey("y")].path
  {
    hide ResolveLocalPath, Slugify, IsFold, IsNormal;
    var x := DriveFile("x", now, [], ImageContent(Some("m"), None));
    var y := DriveFile("y", was, [], ImageContent(Some("n"), Some(bytes)));
    var state := map[FileKey("x") := entry];
    var p := Progress(map[], [], {}, [], []);
    assert [FileKey("x")][..0] == [];
    PresentIsLater([x, y], 0);
    assert ArchivePass(setup, [x, y], state, [FileKey("x")]) == Some(p);
    NormalNameIsGiven(setup.fold, now, ".png", {}, "x");
    var q := ProcessFile(setup, state, p, x);
    assert q.Some? && q.value.taken == {Path([], now + ".png")} && q.value.newState == map[FileKey("x") := entry];
    assert now + ".png" != was + ".png" by {
      assert (now + ".png")[..|now|] == now && (was + ".png")[..|was|] == was;
    }
    NormalNameIsGiven(setup.fold, was, ".png", q.value.taken, "y");
    var r := ProcessFile(setup, state, q.value, y);
    assert [x, y][..1] == [x] && [x][..0] == [];
    assert ProcessFiles(setup, state, p, [x]) == q;
    assert ProcessFiles(setup, state, p, [x, y]) == r;
  }
}
