/**
 One Drive sync run as a function: stored state and Drive snapshot in, new state,
 report log and allocated paths out.

 A Drive file carries what the API answers for it during the run, already rendered
 and normalised; None stands for an error answered before the file gets a status.
 */
module SyncSpec {
  import opened Wrappers
  import opened Slugs
  import opened Paths
  import opened SheetTabs

  const ONE_MIB: nat := 1024 * 1024

  /** A state key: a file identifier, or `<file id>#<gid>` for a workbook tab. */
  datatype Key = FileKey(id: string) | TabKey(id: string, gid: nat)

  datatype Entry = Entry(
    path: Path, signature: string, exportedAt: string, bodyHash: string,
    archivedAt: Option<string>, images: map<string, string>)

  datatype Rendered = Rendered(body: string, images: map<string, string>)

  /** A tab listing as the archive pass meets it: an API error is caught, any other error is not. */
  datatype Listing = Listed(tabs: seq<Tab>) | ApiError | Broken

  /**
   `archive` and `listing` are the two separate tab listings of a workbook in one run. The
   archive pass asks again after an API error: `missed` are the gids whose question met one
   before `archive` was answered.
   */
  datatype Content =
    | DocContent(rendered: Option<Rendered>)
    | SlidesContent(body: Option<string>)
    | ImageContent(md5: Option<string>, bytes: Option<string>)
    | SheetContent(archive: Listing, missed: set<nat>, listing: Option<seq<Tab>>, bodies: map<nat, string>)

  datatype DriveFile = DriveFile(id: string, name: string, components: seq<string>, content: Content)

  /**
   `failing` are the keys whose local rename or read raises, `unreadable` those whose old
   frontmatter is not YAML, `unwritable` those whose local write raises, in this order;
   `stuck` are the keys whose frontmatter cannot be marked archived.
   */
  datatype Setup = Setup(
    fold: string -> string, sha256: string -> string, md5: string -> string,
    now: string, dryRun: bool, failing: set<Key>, unreadable: set<Key>, unwritable: set<Key>,
    stuck: set<Key>)

  datatype Status = Created | Updated | Renamed | Archived | Unchanged | Error

  /** One counted entry; `failedLate` says that it raised after it had been given its status. */
  datatype Report = Report(key: Key, status: Status, failedLate: bool)

  datatype Outcome = Outcome(report: Report, entry: Option<Entry>)

  /** `filePaths` and `tabPaths` are the paths allocated so far; `taken` holds both. */
  datatype Progress = Progress(
    newState: map<Key, Entry>, log: seq<Report>, taken: set<Path>, filePaths: seq<Path>, tabPaths: seq<Path>)

  /******* Sizes *******/

  function Utf8Width(c: char): nat {
    if c as int < 0x80 then 1 else if c as int < 0x800 then 2 else if c as int < 0x10000 then 3 else 4
  }

  function Utf8Size(s: string): nat {
    if s == "" then 0 else Utf8Size(s[..|s| - 1]) + Utf8Width(s[|s| - 1])
  }

  predicate TooLarge(body: string) {
    Utf8Size(body) > ONE_MIB
  }

  /******* One entry *******/

  function Sha(setup: Setup, body: string): string {
    "sha256:" + setup.sha256(body)
  }

  function Md5(sum: string): string {
    "md5:" + sum
  }

  function StatusFor(existing: Option<Entry>, path: Path): Status {
    if existing.None? then Created else if existing.value.path != path then Renamed else Updated
  }

  function Failed(key: Key): Outcome {
    Outcome(Report(key, Error, false), None)
  }

  function Same(key: Key, existing: Entry): Outcome {
    Outcome(Report(key, Unchanged, false), Some(existing))
  }

  /** Status first, then rename and write; a failure of those loses the entry. */
  function Export(
    setup: Setup, key: Key, existing: Option<Entry>, path: Path, signature: string, bodyHash: string,
    images: map<string, string>
  ): Outcome {
    var status := StatusFor(existing, path);
    var exported := Entry(path, signature, setup.now, bodyHash, None, images);
    if setup.dryRun then
      Outcome(Report(key, status, false), Some(if existing.Some? then existing.value else exported))
    else if key in setup.failing || key in setup.unwritable then Outcome(Report(key, status, true), None)
    else Outcome(Report(key, status, false), Some(exported))
  }

  /** A dry run downloads no image, so its manifest is empty. */
  function ImagesOf(setup: Setup, rendered: Rendered): map<string, string> {
    if setup.dryRun then map[] else rendered.images
  }

  predicate DocUnchanged(setup: Setup, existing: Option<Entry>, path: Path, rendered: Rendered) {
    && existing.Some? && existing.value.signature == Sha(setup, rendered.body)
    && existing.value.images.Keys == ImagesOf(setup, rendered).Keys && existing.value.path == path
  }

  function DocOutcome(setup: Setup, key: Key, existing: Option<Entry>, path: Path, rendered: Option<Rendered>): Outcome {
    if rendered.None? || TooLarge(rendered.value.body) then Failed(key)
    else
      var body := rendered.value.body;
      if DocUnchanged(setup, existing, path, rendered.value) then Same(key, existing.value)
      else Export(setup, key, existing, path, Sha(setup, body), setup.sha256(body), ImagesOf(setup, rendered.value))
  }

  /** A YAML error in the old frontmatter is not caught: it stops the run before the write. */
  predicate DocAborts(setup: Setup, key: Key, existing: Option<Entry>, path: Path, rendered: Option<Rendered>) {
    && rendered.Some? && !TooLarge(rendered.value.body) && !DocUnchanged(setup, existing, path, rendered.value)
    && !setup.dryRun && key !in setup.failing && key in setup.unreadable
  }

  predicate BodyUnchanged(setup: Setup, existing: Option<Entry>, path: Path, body: string) {
    existing.Some? && existing.value.signature == Sha(setup, body) && existing.value.path == path
  }

  /** Slides and tabs: one Markdown body, no images. */
  function BodyOutcome(setup: Setup, key: Key, existing: Option<Entry>, path: Path, body: Option<string>): Outcome {
    if body.None? || TooLarge(body.value) then Failed(key)
    else if BodyUnchanged(setup, existing, path, body.value) then Same(key, existing.value)
    else Export(setup, key, existing, path, Sha(setup, body.value), setup.sha256(body.value), map[])
  }

  predicate BodyAborts(setup: Setup, key: Key, existing: Option<Entry>, path: Path, body: Option<string>) {
    && body.Some? && !TooLarge(body.value) && !BodyUnchanged(setup, existing, path, body.value)
    && !setup.dryRun && key !in setup.failing && key in setup.unreadable
  }

  /** The Drive checksum short-circuits the download; a path change alone is not noticed. */
  function ImageOutcome(
    setup: Setup, key: Key, existing: Option<Entry>, path: Path, md5: Option<string>, bytes: Option<string>
  ): Outcome {
    if md5.Some? && existing.Some? && existing.value.signature == Md5(md5.value) then Same(key, existing.value)
    else if bytes.None? || |bytes.value| > ONE_MIB then Failed(key)
    else
      var signature := Md5(if md5.Some? then md5.value else setup.md5(bytes.value));
      if md5.None? && existing.Some? && existing.value.signature == signature then Same(key, existing.value)
      else Export(setup, key, existing, path, signature, "", map[])
  }

  function FileOutcome(setup: Setup, existing: Option<Entry>, path: Path, f: DriveFile): Outcome
    requires !f.content.SheetContent?
  {
    match f.content
    case DocContent(rendered) => DocOutcome(setup, FileKey(f.id), existing, path, rendered)
    case SlidesContent(body) => BodyOutcome(setup, FileKey(f.id), existing, path, body)
    case ImageContent(md5, bytes) => ImageOutcome(setup, FileKey(f.id), existing, path, md5, bytes)
  }

  predicate FileAborts(setup: Setup, existing: Option<Entry>, path: Path, f: DriveFile)
    requires !f.content.SheetContent?
  {
    match f.content
    case DocContent(rendered) => DocAborts(setup, FileKey(f.id), existing, path, rendered)
    case SlidesContent(body) => BodyAborts(setup, FileKey(f.id), existing, path, body)
    case ImageContent(_, _) => false
  }

  function Lookup(state: map<Key, Entry>, key: Key): Option<Entry> {
    if key in state then Some(state[key]) else None
  }

  function Record(p: Progress, o: Outcome): Progress {
    p.(log := p.log + [o.report],
       newState := if o.entry.Some? then p.newState[o.report.key := o.entry.value] else p.newState)
  }

  /******* Entries that left Drive *******/

  /** Identifiers are distinct, so the first match is the only one. */
  function FindFile(files: seq<DriveFile>, id: string): (r: Option<DriveFile>)
    ensures r.Some? ==> r.value in files && r.value.id == id
    ensures r.None? ==> forall f :: f in files ==> f.id != id
  {
    if files == [] then None
    else if files[0].id == id then Some(files[0])
    else FindFile(files[1..], id)
  }

  predicate HasGid(tabs: seq<Tab>, gid: nat) {
    exists i :: 0 <= i < |tabs| && tabs[i].gid == gid
  }

  datatype Fate = Gone | Kept | Later

  /** What the archive pass decides for one stored key. */
  function FateOf(files: seq<DriveFile>, key: Key): Fate {
    var f := FindFile(files, key.id);
    match key
    case FileKey(_) => if f.Some? then Later else Gone
    case TabKey(_, gid) =>
      if f.None? then Gone
      else if !f.value.content.SheetContent? || !f.value.content.archive.Listed? then Kept
      else if gid in f.value.content.missed || HasGid(f.value.content.archive.tabs, gid) then Kept
      else Gone
  }

  /** The tab listing that decides this key raises something else than an API error. */
  predicate ListingBreaks(files: seq<DriveFile>, key: Key) {
    var f := FindFile(files, key.id);
    && key.TabKey? && f.Some? && f.value.content.SheetContent?
    && f.value.content.archive.Broken? && key.gid !in f.value.content.missed
  }

  function ArchiveOutcome(setup: Setup, key: Key, entry: Entry): Outcome {
    if entry.archivedAt.Some? then Same(key, entry)
    else if setup.dryRun then Outcome(Report(key, Archived, false), Some(entry))
    else Outcome(Report(key, Archived, false), Some(entry.(archivedAt := Some(setup.now))))
  }

  predicate ArchiveAborts(setup: Setup, key: Key, entry: Entry) {
    entry.archivedAt.None? && !setup.dryRun && key in setup.stuck
  }

  function ArchiveKey(setup: Setup, files: seq<DriveFile>, state: map<Key, Entry>, key: Key, p: Progress): Option<Progress>
    requires key in state
  {
    match FateOf(files, key)
    case Later => Some(p)
    case Kept => if ListingBreaks(files, key) then None else Some(p.(newState := p.newState[key := state[key]]))
    case Gone =>
      if ArchiveAborts(setup, key, state[key]) then None
      else Some(Record(p, ArchiveOutcome(setup, key, state[key])))
  }

  /** The archive pass over the stored keys in their stored order. */
  function ArchivePass(setup: Setup, files: seq<DriveFile>, state: map<Key, Entry>, order: seq<Key>): Option<Progress>
    requires forall k :: k in order ==> k in state
  {
    if order == [] then Some(Progress(map[], [], {}, [], []))
    else
      var n := |order| - 1;
      var p := ArchivePass(setup, files, state, order[..n]);
      if p.None? then None else ArchiveKey(setup, files, state, order[n], p.value)
  }

  /******* Files present in Drive *******/

  function Extension(c: Content): string {
    if c.ImageContent? then ".png" else ".md"
  }

  /** A document, slide deck or image; None when no free path is left or the old frontmatter is not YAML. */
  function ProcessSingle(setup: Setup, state: map<Key, Entry>, p: Progress, f: DriveFile): Option<Progress>
    requires !f.content.SheetContent?
  {
    var path := ResolveLocalPath(
      setup.fold, f.components, Slugify(setup.fold, f.name, f.id), Extension(f.content), p.taken, f.id);
    if path.None? || FileAborts(setup, Lookup(state, FileKey(f.id)), path.value, f) then None
    else
      var q := p.(taken := p.taken + {path.value}, filePaths := p.filePaths + [path.value]);
      Some(Record(q, FileOutcome(setup, Lookup(state, FileKey(f.id)), path.value, f)))
  }

  /** A tab that raises on rename, read or write is not caught: it stops the run. */
  predicate TabAborts(setup: Setup, key: Key, existing: Option<Entry>, path: Path, body: Option<string>) {
    && body.Some? && !TooLarge(body.value) && !BodyUnchanged(setup, existing, path, body.value)
    && !setup.dryRun && (key in setup.failing || key in setup.unreadable || key in setup.unwritable)
  }

  function ProcessTab(setup: Setup, state: map<Key, Entry>, p: Progress, f: DriveFile, tab: Tab, slug: string): Option<Progress>
    requires f.content.SheetContent?
  {
    var key := TabKey(f.id, tab.gid);
    var path := TabPath(setup.fold, f.components, f.name, f.id, slug);
    var body := if tab.gid in f.content.bodies then Some(f.content.bodies[tab.gid]) else None;
    var q := p.(taken := p.taken + {path}, tabPaths := p.tabPaths + [path]);
    if TabAborts(setup, key, Lookup(state, key), path, body) then None
    else Some(Record(q, BodyOutcome(setup, key, Lookup(state, key), path, body)))
  }

  /** The first n tabs of a workbook. */
  function ProcessTabs(
    setup: Setup, state: map<Key, Entry>, p: Progress, f: DriveFile, tabs: seq<Tab>, slugs: seq<string>, n: nat
  ): Option<Progress>
    requires f.content.SheetContent? && n <= |tabs| == |slugs|
  {
    if n == 0 then Some(p)
    else
      var q := ProcessTabs(setup, state, p, f, tabs, slugs, n - 1);
      if q.None? then None else ProcessTab(setup, state, q.value, f, tabs[n - 1], slugs[n - 1])
  }

  function ProcessSheet(setup: Setup, state: map<Key, Entry>, p: Progress, f: DriveFile): Option<Progress>
    requires f.content.SheetContent?
  {
    if f.content.listing.None? then Some(Record(p, Failed(FileKey(f.id))))
    else
      var tabs := SortByIndex(f.content.listing.value);
      ProcessTabs(setup, state, p, f, tabs, TabSlugs(BaseSlugs(setup.fold), tabs), |tabs|)
  }

  function ProcessFile(setup: Setup, state: map<Key, Entry>, p: Progress, f: DriveFile): Option<Progress> {
    if f.content.SheetContent? then ProcessSheet(setup, state, p, f) else ProcessSingle(setup, state, p, f)
  }

  function ProcessFiles(setup: Setup, state: map<Key, Entry>, p: Progress, files: seq<DriveFile>): Option<Progress> {
    if files == [] then Some(p)
    else
      var q := ProcessFiles(setup, state, p, files[..|files| - 1]);
      if q.None? then None else ProcessFile(setup, state, q.value, files[|files| - 1])
  }

  /** A completed run; None when an uncaught error stops it before the state is saved. */
  function RunSync(setup: Setup, state: map<Key, Entry>, order: seq<Key>, files: seq<DriveFile>): Option<Progress>
    requires forall k :: k in order ==> k in state
  {
    var p := ArchivePass(setup, files, state, order);
    if p.None? then None else ProcessFiles(setup, state, p.value, files)
  }

  /******* Counts *******/

  datatype Counts = Counts(
    total: nat, created: nat, updated: nat, renamed: nat, archived: nat, same: nat, errors: nat)

  const ZERO := Counts(0, 0, 0, 0, 0, 0, 0)

  function CountStatus(c: Counts, status: Status): Counts {
    match status
    case Created => c.(created := c.created + 1)
    case Updated => c.(updated := c.updated + 1)
    case Renamed => c.(renamed := c.renamed + 1)
    case Archived => c.(archived := c.archived + 1)
    case Unchanged => c.(same := c.same + 1)
    case Error => c.(errors := c.errors + 1)
  }

  /** One counted entry: its total, its status, and one more error if it failed late. */
  function CountReport(c: Counts, r: Report): Counts {
    var d := CountStatus(c.(total := c.total + 1), r.status);
    if r.failedLate then d.(errors := d.errors + 1) else d
  }

  function Tally(log: seq<Report>): Counts {
    if log == [] then ZERO else CountReport(Tally(log[..|log| - 1]), log[|log| - 1])
  }

  /** How many files failed after being given a status. */
  function LateFailures(log: seq<Report>): nat {
    if log == [] then 0
    else LateFailures(log[..|log| - 1]) + (if log[|log| - 1].failedLate then 1 else 0)
  }
}
