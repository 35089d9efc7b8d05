# Verified model of the archive's protocols

This project models, in Dafny, the parts of the archive whose correctness depends on
interleavings, failures or text details, and proves what they guarantee. Running
`dafny verify dfyconfig.toml` checks all of it.

- **Conversation log** (`Conversation*.dfy`). Many POST and DELETE requests on one
  conversation, interleaved at every storage and database operation. The Markdown object
  is written by conditional upload and by read, then compare-and-swap on its generation;
  the row, its counter and the turn table follow. Any operation may fail, with or without
  its effect, and any request may die. `ConversationStorage` is the retry loop itself as a
  class run against an environment that changes the object between any two operations.
- **Drive sync** (`Slugs`, `Paths`, `SheetTabs`, `Sync*.dfy`). One run over a Drive listing
  and a stored state: archive pass, path allocation, one outcome per file or tab, counters.
  `SyncEngine` is the imperative run, proved equal to the specification in `SyncSpec`.
- **Exported files** (`Frontmatter`, `MarkdownFiles`, `SheetTable`). The ordered merge of
  frontmatter keys, files rewritten by exports and archivings, and sheets as tables.
- **Streaming text** (`Texts`, `SseStream`, `FollowupBlock`, `FollowupPatterns`,
  `FollowupLaws`, `PersistedAnswer`, `Citations`, `CitationLaws`, `CitationShapes`).
  The event-stream consumer, the hiding of the follow-up marker on every prefix of an
  answer, reload of a stored answer, and the numbering of citations. Regular expressions
  are written out as scanners.
- **Refresh-ahead caches** (`RefreshCache`, `RefreshLaws`, `TokenProvider`). Double-checked
  locking with a clock: token providers and the health snapshot, and the signing call.
- **Login throttle** (`Throttle`, `ThrottleLaws`), **judge panel** (`JudgePanel`) and the
  chat shell's **selection tokens** (`Selection`).

Where code and comments disagree the model follows the code, shows an input that breaks
the promise, and states exactly when it holds:

- The throttle comment says that five failures within 15 minutes lock until 15 minutes
  after the fifth. The code counts from the oldest failure it still holds, so a burst may
  not lock and a lock may end early (`ThrottleLaws.FiveInARowLockIff`,
  `ThrottleLaws.PromiseIff`, `ThrottleLaws.BurstDoesNotLock`, `ThrottleLaws.LockEndsEarly`).
  The announced wait counts from the fifth failure and may outlast the lock
  (`ThrottleLaws.WaitEndsWithinLockIff`, `ThrottleLaws.WaitOutlastsLock`).
- The redaction docstring speaks of 24 characters. The true bound is 47
  (`JudgePanel.GuaranteeIsExactly47`, `JudgePanel.RunOf46Passes`).
- The follow-up marker stays hidden while streaming exactly when a line feed comes right
  before its line; after a bare carriage return, or as the first line, it shows
  (`FollowupLaws.MarkerNeverShowsIff`, `PersistedAnswer.CarriageReturnShowsMarker`).
- An answer can look different live and after reload when its last line could still become
  a marker (`PersistedAnswer.ReloadAgreesIff`, `PersistedAnswer.HyphensDiffer`).
- Suffixed tab slugs are never remembered, so two tabs of one workbook can share a slug
  (`SheetTabs.TabSlugsDistinctIff`, `SheetTabs.TabsThatClash`).
- Every file is allocated a path of its own, but an image kept for its checksum stays at its
  old path, which a new file can be given (`SyncPaths.StoredApartIff`,
  `SyncPaths.ImagesCanShareAPath`).
- Image sidecars are written under raw folder names and cleaned under slugified ones
  (`Paths.SidecarsAgreeIff`, `Paths.CapitalPartsSidecars`).
- A delete decides by the selection at confirmation time, so it can close a conversation
  opened since (`Selection.DeletePromiseIff`, `Selection.LateDeleteClosesAnother`).
- A POST and a DELETE that overlap can leave an object without a row. Exactly two kinds of
  step do it (`ConversationOverlap.EverOrphanedIff`,
  `ConversationOverlap.OverlapCanOrphanTheObject`), and none occurs while POSTs and DELETEs
  keep apart, however POSTs overlap each other (`ConversationOverlap.ApartNeverOrphans`).
  POSTs that overlap can meet the "already exists" answer
  (`ConversationOverlap.OverlappingPostsMeet`).
- Ownership is checked when a DELETE looks the row up, and the comment calls the removal
  safe for that reason. With a second DELETE and a stranger's POST in between, the row that
  goes is the stranger's; it is the caller's exactly when it is still the one looked up or
  the caller made it anew (`ConversationOwners.RemovedRowIsOwnersIff`,
  `ConversationOwners.StrangersRowCanGo`).
- A slug is promised to consist of slug characters. The fallback for a title without letters
  or digits copies the start of the identifier as it is, so the promise holds exactly when
  there is a letter or digit or that start is made of slug characters
  (`Slugs.PromisedShapeIff`, `Slugs.PromisedShapeBroken`).

Clocks, identifiers, what other callers do between two steps, and the answers of foreign
code (JSON, YAML, hashing, Unicode folding, HTTP) are parameters.

## Model
| member | source | states |
|---|---|---|
| ConversationSafety.RunKeepsInv | workers/src/archiviste_workers/conversation/router.py:150-246 | In every reachable state, for any interleaving, failures, crashes and deletions, the object is absent or one header and the committed blocks, and every request in flight has written, or not written, exactly what its phase says |
| ConversationSafety.ObjectIsHeaderThenBlocks | workers/src/archiviste_workers/conversation/gcs_storage.py:112-159 | For every run the object's text is one header followed by the blocks of the committed requests in order, and no request contributes two blocks |
| ConversationSafety.EventChangesObjectByOneBlock | workers/src/archiviste_workers/conversation/gcs_storage.py:91-159 | Each event leaves the object, creates it as a bare header, extends it by exactly one block of the acting request that had not written yet, or removes it in a DELETE; no request's write is undone from its record |
| ConversationSafety.ContendedMeansFourForeignWrites | workers/src/archiviste_workers/conversation/gcs_storage.py:116-159 | A concurrent_write 409 means that the request wrote no block and that at least four generation changes, all by others, landed since its append began |
| ConversationStorage.Bucket.constructor | workers/src/archiviste_workers/conversation/gcs_storage.py:56-65 | A bucket starts without the object and with an empty history |
| ConversationStorage.Bucket.ConditionalUpload | workers/src/archiviste_workers/conversation/gcs_storage.py:95-97 | An upload applies exactly when the expected generation is the live one (0 for an absent object) and then makes exactly one new generation; otherwise nothing changes |
| ConversationStorage.Bucket.ReadModifyWrite | workers/src/archiviste_workers/conversation/gcs_storage.py:112-159 | Against any interference: at most four reads and four conditional writes, with 0, 50, 250 or 1050 ms slept; at most one change of its own, which appends the block to the live text; unavailable exactly when the last read or write failed, and none failed before; otherwise the block landed exactly when the answer is a success, with the live generation and the size written, or a failed reload; giving up means that at least four changes by others landed during the call; an object nobody else touches gets its block at the first attempt |
| ConversationStorage.Bucket.ReadThenWrite | workers/src/archiviste_workers/conversation/gcs_storage.py:117-156 | One attempt: a failed read or write is reported as such, a conflict only after a change by somebody else, and an undisturbed attempt lands |
| ConversationStorage.SleptTimes | workers/src/archiviste_workers/conversation/gcs_storage.py:38 | The sleeps before the second, third and fourth attempt add up to 50, 250 and 1050 ms |
| ConversationStorage.Bucket.UploadHeader | workers/src/archiviste_workers/conversation/gcs_storage.py:91-110 | Against any interference: at most one change of its own, the header on an absent object; unavailable exactly when the upload failed, otherwise landed exactly when the answer is created, with the live generation, or a failed reload; "already there" only over an object |
| ConversationTurns.RunKeepsTurns | workers/src/archiviste_workers/conversation/router.py:204-230 | In deletion-free runs with any failures the counter is the number of increments, each turn's ordinal is its author's place among them, and a turn carries its author's role and content |
| ConversationTurns.InsertAlwaysLands | workers/src/archiviste_workers/conversation/repository.py:43-47 | In every deletion-free run the insert of a turn is never refused: the row is there, the ordinal is unused, and exactly the author's role and content are added under it |
| ConversationTurns.CreatedMeansExactlyOneBlock | workers/src/archiviste_workers/conversation/router.py:187-246 | In deletion-free runs every 201 has exactly one block in the object |
| ConversationTurns.TurnsWithinCountWithinBlocks | workers/src/archiviste_workers/conversation/router.py:209-230 | In deletion-free runs ordinals are distinct and below message_count, and turns <= message_count <= committed blocks |
| ConversationDates.RunKeepsDates | workers/src/archiviste_workers/conversation/router.py:56-62 | In deletion-free runs every request past the timestamp check holds the row's creation time and is not dated before it, and the header carries that time |
| ConversationDates.BlocksFollowHeaderDate | workers/src/archiviste_workers/conversation/router.py:56-184 | In deletion-free runs, whoever created or healed the object, its header is dated as the row and no block is dated before it |
| ConversationSerial.RunKeepsSerial | gateway/src/handlers/conversations.rs:445-492 | When requests do not overlap, whatever step fails, an object implies a row and each phase finds the row, lock and object it relies on |
| ConversationSerial.ObjectNeverOutlivesRow | gateway/src/handlers/conversations.rs:445-492 | When requests do not overlap, an object without a row is unreachable, and so is the "already exists" 409 |
| ConversationSerial.NoContentLeavesNothing | gateway/src/gcs/delete.rs:112-121 | When requests do not overlap, the moment a DELETE answers 204 neither row nor turns nor object are left, also when the object was already absent |
| ConversationSerial.PlayHeals | workers/src/archiviste_workers/conversation/router.py:96-142 | Each step of an undisturbed append on a row without object keeps the healing on track and brings the end one step nearer |
| ConversationSerial.NextAppendHeals | workers/src/archiviste_workers/conversation/router.py:96-204 | From a row without an object, the next append that meets no storage or timestamp error answers 201 within nine steps and leaves one header, with the row's creation time, and its one block |
| ConversationTranscript.RunKeepsAligned | workers/src/archiviste_workers/conversation/router.py:204-230 | When requests neither overlap nor fail, increments, turns and blocks stay in step at every point of every request |
| ConversationTranscript.AscendingReverses | workers/src/archiviste_workers/conversation/repository.py:52-58 | Ordering ascending ordinals newest first is exactly reversal |
| ConversationTranscript.TailIsReversedMarkdown | workers/src/archiviste_workers/conversation/repository.py:148-152 | When requests neither overlap nor fail, turn k is block k, so the tail read of any limit is the reversed tail of the Markdown and message_count is the number of blocks |
| ConversationOverlap.EverOrphanedIff | gateway/src/handlers/conversations.rs:445-492 | A run ever holds an object without a row exactly when one of its events is such a step |
| ConversationOverlap.RunKeepsApart | gateway/src/handlers/conversations.rs:445-492 | While no POST is in flight together with a DELETE, whatever fails, every POST past its first step has the row, only DELETEs hold the lock and a DELETE commits over no object |
| ConversationOverlap.ApartNeverOrphans | workers/src/archiviste_workers/conversation/router.py:164-204 | Under that condition alone, with POSTs and DELETEs each free to overlap among themselves, an object always has its row |
| ConversationOverlap.OverlapCanOrphanTheObject | gateway/src/handlers/conversations.rs:475-489 | A POST and a DELETE that overlap can end with an object and no row |
| ConversationOverlap.OverlappingPostsMeet | workers/src/archiviste_workers/conversation/router.py:176-192 | Two overlapping POSTs, kept apart from any DELETE, of which one answers "already exists" |
| ConversationOwners.LookupTells | gateway/src/handlers/conversations.rs:462-473 | The owner-scoped lookup changes nothing and passes exactly for the owner of the row; anybody else, and a missing row, get the same 404 |
| ConversationOwners.StrangerDeletesNothing | gateway/src/handlers/conversations.rs:445-492 | However requests overlap: a DELETE whose caller does not own the row at its lookup ends with 404, or 503 if the lookup fails, and no event of that request, before or after, changes row, turns or object |
| ConversationOwners.DeleterWasOwner | gateway/src/handlers/conversations.rs:445-492 | However requests overlap: a DELETE past its lookup, and so every 204, was started by the owner of the row the lookup found |
| ConversationOwners.RemovedRowIsOwnersIff | gateway/src/handlers/conversations.rs:526-539 | Every row that goes is removed by such a DELETE; the row that goes is its caller's exactly when it is still the one looked up, or a POST of the caller made it anew |
| ConversationOwners.StrangersRowCanGo | gateway/src/handlers/conversations.rs:526-539 | Two overlapping DELETEs by the owner with a stranger's POST between them remove the stranger's row |
| ConversationOwners.SerialDeleteIsOwners | gateway/src/handlers/conversations.rs:445-492 | When requests do not overlap, every row that goes is removed by its owner |
| ConversationOwners.OwnersDeleteSucceeds | gateway/src/handlers/conversations.rs:445-492 | After any run without overlap, the owner's DELETE that meets no failure and no ticket answers 204 and leaves no row, no turn and no object |
| ConversationCauses.StepEndsIff | workers/src/archiviste_workers/conversation/router.py:150-246 | A step ends a request with a given status exactly when one of the causes of that status holds |
| ConversationCauses.AnswerHasItsCause | workers/src/archiviste_workers/conversation/router.py:150-246 | However requests overlap: every answer was given by one event, for a cause of that answer |
| ConversationAnswers.CreatedTells | workers/src/archiviste_workers/conversation/router.py:204-246 | However requests overlap: the generation in a 201 is the one its reload saw, and its count is the row's counter after its own increment, or -1 when that failed |
| ConversationAnswers.AdmittedWasTimely | workers/src/archiviste_workers/conversation/router.py:56-62 | However requests overlap: whoever gets past the first step had a message dated neither before the conversation nor more than five minutes ahead |
| ConversationAnswers.OrdinalsStayDistinct | workers/src/archiviste_workers/conversation/repository.py:43-47 | However requests overlap, deletions included: no two turns share an ordinal |
| ConversationAnswers.FirstPostSucceeds | workers/src/archiviste_workers/conversation/router.py:150-246 | After any run without overlap, the first message, if nothing fails, makes the row with its user as owner, the header, its block and turn 0, and answers 201 with count 1 and the live generation |
| ConversationAnswers.NextPostSucceeds | workers/src/archiviste_workers/conversation/router.py:150-246 | Likewise a further message adds exactly its block, one to the counter and the next turn, and answers with the new count |
| ConversationAnswers.BlockTells | workers/src/archiviste_workers/conversation/gcs_storage.py:80-89 | Equal blocks have equal time, role and content, for times without a closing bracket and roles on one line |
| ConversationAnswers.HeaderTells | workers/src/archiviste_workers/conversation/gcs_storage.py:70-78 | Equal headers have equal conversation, time and user, for fields on one line |
| Slugs.CappedIsNormal | scripts/gdrive_export/slugify.py:26-41 | The text a slug is made of is empty or in normal form: a-z, 0-9 and single inner hyphens, at most 80 characters |
| Slugs.PromisedShapeIff | scripts/gdrive_export/slugify.py:19-41 | A slug has only slug characters exactly when the folded text has a letter or digit or the start of the identifier has only slug characters |
| Slugs.PromisedShapeBroken | scripts/gdrive_export/slugify.py:24-40 | Title "?" with identifier "1A_bcdefgh" breaks that promise |
| Slugs.DoubleSlugIsNormal | scripts/gdrive_export/slugify.py:26-41 | Slugifying twice always gives normal form |
| Slugs.IdempotentIff | scripts/gdrive_export/slugify.py:26-41 | Slugifying once more changes nothing exactly when the folded text has a letter or digit or the fallback is in normal form |
| Slugs.FixedIffNormal | scripts/gdrive_export/slugify.py:26-41 | A text is its own slug exactly when it is in normal form |
| Slugs.SlugSpellsText | scripts/gdrive_export/slugify.py:26-41 | A slug spells the letters and digits of the folded text, in order, up to the cut; it is empty exactly when there are none |
| Paths.ResolveLocalPath | scripts/gdrive_export/paths.py:8-40 | The plain name is chosen exactly when it is free, the name with the identifier prefix only otherwise, nothing exactly when both are taken, and never a taken path |
| Paths.TabNameHasDoubleHyphen | scripts/gdrive_export/sync.py:680-685 | Every tab file name contains a double hyphen |
| Paths.FileNameHasNoDoubleHyphen | scripts/gdrive_export/paths.py:24-40 | No document, slide or image file name does, for identifiers whose prefix neither starts with a hyphen nor doubles one |
| Paths.TabPathsDiffer | scripts/gdrive_export/sync.py:680-685 | Tabs of workbooks with slugs in normal form share a path exactly when folders, workbook slug and tab slug agree |
| Paths.SidecarsAgreeIff | scripts/gdrive_export/images.py:213-214 | Orphaned images are looked for where images are written exactly when every folder name is already a slug |
| Paths.CapitalPartsSidecars | scripts/gdrive_export/sync.py:367 | One folder with a capital letter makes the two directories differ |
| SheetTabs.SortByIndex | scripts/gdrive_export/gsheet_renderer.py:45 | Sorting the tabs of a workbook neither loses nor repeats one |
| SheetTabs.SortIsSorted | scripts/gdrive_export/gsheet_renderer.py:45 | Tabs are taken in ascending index order |
| SheetTabs.SortIsStable | scripts/gdrive_export/gsheet_renderer.py:45 | Tabs with the same index keep their listing order |
| SheetTabs.ResolveTabCollisions | scripts/gdrive_export/gsheet_renderer.py:34-56 | The loop with its set of seen slugs gives each tab its base slug if no earlier tab has the same, and the gid-suffixed one otherwise |
| SheetTabs.SuffixDeterminesGid | scripts/gdrive_export/gsheet_renderer.py:55 | Equal suffixed slugs come from the same gid |
| SheetTabs.TabSlugsDistinctIff | scripts/gdrive_export/gsheet_renderer.py:45-56 | The slugs of a workbook are pairwise distinct exactly when no suffixed slug is the base slug another tab keeps |
| SheetTabs.TabSlugsCanClash | scripts/gdrive_export/gsheet_renderer.py:51-55 | With the real slugifier, for any slug a short enough, tabs titled a, a (gid g) and a-g with distinct gids: the last two get the same slug |
| SheetTabs.TabsThatClash | scripts/gdrive_export/gsheet_renderer.py:51-55 | Titles "a", "a" (gid 5) and "a-5" do |
| SyncLaws.CountsAddUp | scripts/gdrive_export/sync.py:122-154 | For every run log, created + updated + renamed + archived + unchanged + errors = total + files that failed after being given a status |
| SyncLaws.CountersCount | scripts/gdrive_export/sync.py:122-154 | Each counter is the number of reports of its own status, errors with the late failures added |
| SyncLaws.WidthIsLeast | scripts/gdrive_export/sync.py:340-350 | The size cap counts UTF-8: a character takes the fewest bytes that reach it |
| SyncLaws.ErrorFreeIffZero | scripts/gdrive_export/sync.py:281-309 | The error counter is zero exactly when no entry errored, early or late |
| SyncLaws.RunTellsWhatChanged | scripts/gdrive_export/sync.py:122-154 | In every completed real run each listed document, deck and image has a report that tells the truth about what the run leaves stored: an error exactly when its content is missing or too large, or an export was due and a local step raised, and then it is not stored; created exactly when untracked before; unchanged keeps the old entry; renamed means another path, updated the same path and new content; what was exported is stored under the path allocated to it, with time, signature, body hash and images |
| SyncLaws.ArchivePassKeeps | scripts/gdrive_export/sync.py:173-278 | The archive pass stores exactly the keys it does not leave for later, each kept or archived as its file's presence says, and reports exactly the gone ones |
| SyncArchive.FateMeans | scripts/gdrive_export/sync.py:186-232 | The archive pass archives exactly the keys whose file is not listed, and the tabs that an answered listing of their workbook lacks; it leaves exactly the listed files for later |
| SyncArchive.ArchivedReportsIff | scripts/gdrive_export/sync.py:242-278 | In every completed run exactly the stored entries that left Drive unmarked are reported archived, once each |
| SyncArchive.DepartedIsArchived | scripts/gdrive_export/sync.py:242-278 | In every completed run such an entry that the export pass does not store again is kept with its old archive time or, in a real run, the time of the run |
| SyncArchive.UnlistedIsNotExported | scripts/gdrive_export/sync.py:198-201 | A key whose identifier is not listed has left Drive and is not stored again by the export pass |
| SyncArchive.OtherTabIsCarriedOver | scripts/gdrive_export/sync.py:203-239 | A tab that has not left, and that the export pass does not see, keeps its entry |
| SyncStops.PassStopsIff | scripts/gdrive_export/sync.py:173-278 | The archive pass stops exactly at an entry due for archiving that cannot be marked, or at a tab listing that breaks |
| SyncStops.FileAbortsIff | scripts/gdrive_export/sync.py:365-398 | A document or deck stops the run exactly when an export is due over frontmatter that is read and is not YAML |
| SyncStops.TabAbortsIff | scripts/gdrive_export/sync.py:589-633 | A tab stops it exactly when an export is due and its rename, read or write raises |
| SyncStops.RunStopsIff | scripts/gdrive_export/sync.py:90-154 | When nothing raises, a run stops exactly at a file both of whose names are taken |
| SyncTabLaws.RunTellsOfTabs | scripts/gdrive_export/sync.py:589-711 | In every completed real run each listed tab has a report that tells the truth: an error exactly when its body is missing or too large, and then its entry is what the archive pass left; otherwise the entry lies at the tab's path with the signature and hash of its body, and the status says how it relates to what was stored |
| SyncLaws.PresentFileStoresOrErrs | scripts/gdrive_export/sync.py:281-309 | A listed document, slide or image ends the run stored or errored, whatever comes after it |
| SyncLaws.NoKeyDroppedSilently | scripts/gdrive_export/sync.py:122-154 | In every completed run a tracked key is still stored, or errored in that run, or is a plain key whose file is now a spreadsheet |
| SyncPaths.PathsAreDistinct | scripts/gdrive_export/sync.py:139-143 | The paths one run allocates to documents, slides and images are pairwise distinct, and none is allocated to a tab |
| SyncPaths.GivenPathIsNamed | scripts/gdrive_export/paths.py:8-40 | The path allocated to a document or deck is its slug with .md, to an image its slug with .png, in its slugged folders, with the first eight characters of the identifier added if need be |
| SyncPaths.StoredAtPlace | scripts/gdrive_export/sync.py:845-915 | A completed real run stores a document or deck under the path allocated to it, and an image too, unless its checksum is the stored one: then it stays where it was |
| SyncPaths.StoredApartIff | scripts/gdrive_export/sync.py:139-143 | The listed documents, decks and images of a completed real run are stored under distinct paths exactly when no image kept for its checksum stays, away from its allocated path, where another one is left |
| SyncPaths.ImagesCanShareAPath | scripts/gdrive_export/sync.py:860-866 | They need not be: an image renamed in Drive with the same checksum and a new image with its old name end under one path, for any two slugs as names |
| SyncFixpoint.FirstRunArchives | scripts/gdrive_export/sync.py:173-278 | After a completed real run every stored key whose file or tab has left Drive carries an archive time |
| SyncFixpoint.SecondArchivePass | scripts/gdrive_export/sync.py:242-278 | On such a state the archive pass changes no entry and reports everything unchanged |
| SyncFixpoint.FilesSettle | scripts/gdrive_export/sync.py:352-363 | Processing the same files again after an error-free run stores the same entries, allocates the same paths and reports everything unchanged |
| SyncFixpoint.SecondRunChangesNothing | scripts/gdrive_export/sync.py:90-154 | After an error-free run, a second run on the same listing, at any later time, completes with an equal state and every counter but total and unchanged at zero |
| SyncEngine.SyncContext.Finish | scripts/gdrive_export/sync.py:589-633 | Storing an entry and counting its status change the run exactly by one report, and the counters stay the tally of the log |
| SyncEngine.SyncContext.ExportEntry | scripts/gdrive_export/sync.py:800-820 | An export counts exactly one of created, renamed and updated, and a failed write counts one error more |
| SyncEngine.SyncContext.ProcessDoc | scripts/gdrive_export/sync.py:312-398 | The document handler has the outcome the specification gives, and stops the run exactly when, the rename and the read done, it would write over frontmatter that is not YAML |
| SyncEngine.SyncContext.ProcessBody | scripts/gdrive_export/sync.py:761-798 | Same for slides and tabs, whose only content is a body |
| SyncEngine.SyncContext.ProcessImage | scripts/gdrive_export/sync.py:846-915 | Same for images, with and without a checksum from the listing |
| SyncEngine.SyncContext.ProcessOne | scripts/gdrive_export/sync.py:281-309 | Path allocation and dispatch of a file that is not a workbook, stopping the run when no path is free or its handler stops it |
| SyncEngine.SyncContext.ProcessOneTab | scripts/gdrive_export/sync.py:589-711 | Same for one tab under its workbook's name; a rename, read or write that raises stops the run |
| SyncEngine.SyncContext.ProcessWorkbook | scripts/gdrive_export/sync.py:650-711 | Every tab in index order, a failed listing or download counted as an error; the run stops exactly when the rename, read or write of a tab raises |
| SyncEngine.SyncContext.ArchiveEntry | scripts/gdrive_export/sync.py:242-278 | Archiving an entry stamps it once and only once, counts it, and stops the run exactly when the file cannot be marked |
| SyncEngine.SyncContext.HandleArchived | scripts/gdrive_export/sync.py:173-239 | The loop over the stored keys is the archive pass, which keeps a tab whose listing met an API error and asks again for the next one; it stops exactly when an archiving raises or a tab listing fails with something else than an API error |
| SyncEngine.SyncContext.Run | scripts/gdrive_export/sync.py:90-154 | The whole run, with its mutable state and counters, is the specification on which all sync laws are proved; it fails exactly when that aborts |
| Frontmatter.BuildMerged | scripts/gdrive_export/frontmatter_merge.py:32-83 | The key by key merge is defaults under existing keys under script keys, and an error exactly when the old block is neither a mapping nor null |
| Frontmatter.Overwrite | scripts/gdrive_export/frontmatter_merge.py:43-44 | Overwriting one by one is the map union in which the script wins |
| Frontmatter.BuildOrdered | scripts/gdrive_export/sync.py:939-972 | The two passes and the final deletion build the ordered merge, and the key to delete is always there |
| Frontmatter.OrderedIsSimple | scripts/gdrive_export/sync.py:939-972 | As a map the ordered merge is the simple merge without a null archived_at |
| Frontmatter.OrderedKeepsSchemaOrder | scripts/gdrive_export/sync.py:951-967 | Schema keys are written in schema order, then exactly the custom keys in their old order |
| MarkdownFiles.SplitComposed | scripts/gdrive_export/sync.py:975-1001 | A written file splits back into its YAML and its body, whatever the body holds, fence lines included |
| MarkdownFiles.ExportStep | scripts/gdrive_export/sync.py:918-956 | An export over any previous file with readable frontmatter, or none, keeps its user keys and clears any archive time |
| MarkdownFiles.ArchiveStep | scripts/gdrive_export/sync.py:975-987 | Archiving changes the two archive keys and nothing else of the file; an empty or zero document counts as no keys |
| MarkdownFiles.HistoryLaw | scripts/gdrive_export/sync.py:918-1001 | A file whose frontmatter is not YAML stays as it is under every history. After any other history of exports and archivings with at least one export, the file is the last exported body under the last export's metadata, stamped exactly when archived since; user and custom keys have the values they started with |
| MarkdownFiles.FileTells | scripts/gdrive_export/sync.py:918-1001 | After such a history the block names title, source, identifier, path and time of the last export and whether and when it was archived since, over that export's body; tags, access tier and custom keys are those of the file at the start, tags and tier by default |
| MarkdownFiles.ArchiveTells | scripts/gdrive_export/sync.py:975-1001 | Archiving marks any file with a mapping, null or empty block and changes no other key and nothing of the body |
| SheetTable.CellRoundTripIff | scripts/gdrive_export/gsheet_renderer.py:110-122 | A cell survives escaping and unescaping exactly when it holds no literal break tag |
| SheetTable.RowRoundTripIff | scripts/gdrive_export/gsheet_renderer.py:88-95 | A rendered row, split at bars without a backslash before them, has as many cells as went in, and each is the same exactly when it holds no literal break tag |
| SheetTable.WidestRow | scripts/gdrive_export/gsheet_renderer.py:84 | The width is reached by some row and exceeded by none |
| SheetTable.RenderTabMarkdown | scripts/gdrive_export/gsheet_renderer.py:59-97 | The text is the optional comment, header, delimiter and data lines, or the empty-sheet note, joined by line feeds |
| SheetTable.SheetReparses | scripts/gdrive_export/gsheet_renderer.py:59-122 | Every sheet with at least one column splits back into its lines; each table line has exactly width cells, the delimiter only dashes, and each cell is the normalised cell of the sheet, or of the empty text where the row is shorter, exactly when that holds no literal break tag |
| Texts.SplitAppend | frontend/src/lib/sse-stream.ts:166-170 | Text that arrives later only continues the last piece of a split |
| Texts.JoinOfSplit | frontend/src/lib/sse-stream.ts:166-170 | Splitting loses nothing |
| Texts.TrimCuts | frontend/src/lib/sse-stream.ts:66-80 | Trimming removes exactly the outer white space |
| Texts.SpaceIff | frontend/src/lib/sse-stream.ts:66-80 | White space is the list of code points of the JavaScript standard |
| SseStream.ParseSseEvent | frontend/src/lib/sse-stream.ts:66-80 | The loop finds the trimmed remainder of the last event and the last data line of a block, and an event only when both are non-empty |
| SseStream.ConsumeSseStream | frontend/src/lib/sse-stream.ts:149-197 | For every way of cutting a stream into chunks, and for a stream cut inside a character, the buffering consumer yields the chunks of the whole text split at once |
| SseStream.WireRoundTrip | frontend/src/lib/sse-stream.ts:66-80 | Parsing the printed form of any list of single-line, trimmed, non-empty events returns that list |
| SseStream.PrintedStreamYields | frontend/src/lib/sse-stream.ts:86-133 | Such a stream yields the typed chunk of every recognised event, in order |
| SseStream.ChunkRoundTrip | frontend/src/lib/sse-stream.ts:86-133 | Every kind of chunk, written with its fields under their wire names, is read back with each field in its place |
| SseStream.MissingFieldsRead | frontend/src/lib/sse-stream.ts:86-133 | Missing and null fields, and arrays in place of objects, read as empty, zero or "unknown", and an unknown event as nothing |
| SseStream.OtherPayloadsAreDropped | frontend/src/lib/sse-stream.ts:86-97 | Text that is not JSON, or JSON that is neither object nor array, gives no chunk |
| SseStream.OtherItemsAreDropped | frontend/src/lib/sse-stream.ts:110-128 | Follow-up items that are not text are left out |
| SseStream.ChunksArrive | frontend/src/lib/sse-stream.ts:86-197 | Any list of chunks a server prints arrives whole and in order, whatever their texts contain |
| FollowupBlock.FindMarkerFinds | frontend/src/components/chat/ChatForm.tsx:77 | The search finds the first line that reads as the marker, or there is none |
| FollowupPatterns.MarkerAtIff | frontend/src/components/chat/ChatForm.tsx:77 | A marker starts exactly where a whole line, between any of the four line terminators, can be cut into blanks, rule characters, blanks, the word in any case, blanks, rule characters, blanks |
| FollowupPatterns.MarkerLineIff | frontend/src/components/chat/ChatForm.tsx:77 | The scanner accepts a line exactly when it can be cut so |
| FollowupPatterns.PartialTailIff | frontend/src/components/chat/ChatForm.tsx:82-83 | Same for the partial tail, with any beginning of the word |
| FollowupPatterns.RuleLineIff | frontend/src/components/chat/ChatForm.tsx:79 | Same for a rule line, at least three rule characters between blanks |
| FollowupBlock.StripFollowupBlock | frontend/src/components/chat/ChatForm.tsx:90-97 | What is displayed is always a prefix of what has arrived |
| FollowupBlock.PartialTailMonotone | frontend/src/components/chat/ChatForm.tsx:82-83 | Every prefix of a line that may become a marker may still become one |
| FollowupLaws.MarkerNeverShowsIff | frontend/src/components/chat/ChatForm.tsx:77-97 | The displayed text of every streamed prefix is a prefix of the text before the first marker line exactly when that line follows a line feed |
| PersistedAnswer.CarriageReturnShowsMarker | frontend/src/components/chat/ChatForm.tsx:77-97 | A marker line after a bare carriage return does show while streaming |
| PersistedAnswer.SplitFollowupBlock | frontend/src/components/conversation-history/persisted-answer.ts:48-70 | The reload loop gives the body before the first marker line and the non-empty questions after it |
| PersistedAnswer.QuestionTells | frontend/src/components/conversation-history/persisted-answer.ts:63-68 | A follow-up line loses its outer space, its bullets and the space after them, and nothing else |
| PersistedAnswer.ReloadAgreesIff | frontend/src/components/conversation-history/persisted-answer.ts:48-61 | A stored answer reloads with the body last shown live exactly when it has a marker or its last line does not look like one to come |
| PersistedAnswer.RuleTailDiffers | frontend/src/components/conversation-history/persisted-answer.ts:52-55 | Any body followed by a rule line shows the rule after reload and not before |
| PersistedAnswer.HyphensDiffer | frontend/src/components/chat/ChatForm.tsx:96 | "a" over three hyphens is shown live as "a" and reloaded with the hyphens |
| PersistedAnswer.AnswerRoundTrip | frontend/src/components/conversation-history/persisted-answer.ts:48-70 | A body without marker and its questions, printed with marker and bullets, reload unchanged |
| PersistedAnswer.RuledAnswerRoundTrip | frontend/src/components/conversation-history/persisted-answer.ts:56-61 | A rule line between body and marker disappears with the block, whatever the body ends with |
| Citations.ExtractCitations | frontend/src/components/conversation-history/persisted-answer.ts:73-89 | The nested loops with their seen set give the distinct document paths in order of first appearance |
| CitationShapes.DocumentPathIff | frontend/src/components/conversation-history/persisted-answer.ts:45 | A document path is letters, digits, dots, underscores, slashes and hyphens with an extension of letters and digits after the last dot |
| CitationShapes.MatchesAreMarkers | frontend/src/components/conversation-history/persisted-answer.ts:39 | What is matched is a bracket, a first character that is no space, and everything up to the next closing bracket; every such marker lies in a matched one |
| CitationShapes.CitedIff | frontend/src/components/conversation-history/persisted-answer.ts:72-88 | A text is a source exactly when it is a piece of some marker and looks like a document path |
| CitationShapes.PathMarkerIsCited | frontend/src/components/conversation-history/persisted-answer.ts:39-45 | A document path in brackets is a source, whatever follows and whatever closed brackets come before |
| CitationShapes.GroupIsCited | frontend/src/components/conversation-history/persisted-answer.ts:72-88 | So are both paths of a comma-separated group |
| Citations.NumberByPath | frontend/src/components/assistant-answer/remarkCitations.ts:93-98 | A path has a number exactly when it is a source, and it is the 1-based place of its first entry |
| Citations.SplitTextNode | frontend/src/components/assistant-answer/remarkCitations.ts:57-87 | The loop over markers builds the node list the laws below are about |
| CitationLaws.NoMarkerMissed | frontend/src/components/assistant-answer/remarkCitations.ts:64 | Wherever a marker opens, it lies in a matched marker |
| CitationLaws.NothingLostNothingMoved | frontend/src/components/assistant-answer/remarkCitations.ts:57-87 | Read position by position, the nodes show every character outside converted markers and, in place of each converted marker, its numbers: nothing is lost, repeated or moved |
| CitationLaws.EveryNumberNamesItsSource | frontend/src/components/assistant-answer/remarkCitations.ts:64-80 | Each superscript lies in 1..sources and names, in reading order, the next known piece, by its first entry |
| CitationLaws.NumbersStartInOrder | frontend/src/components/conversation-history/persisted-answer.ts:73-89 | Numbered by the sources extracted from it, a text meets the numbers for the first time as 1, 2, ..., in order and without a gap |
| RefreshCache.RunKeepsInv | gateway/src/auth_metadata/token.rs:173-202 | In every run of any number of callers: only the lock holder is past the lock, at most the last fetch runs, every stored entry is cached, expired or evicted, and no fetch starts while an unexpired one is cached |
| RefreshLaws.SingleFlight | gateway/src/auth_metadata/token.rs:184-195 | At most one fetch is in flight, for every interleaving, failure and cancellation |
| RefreshLaws.CacheIsLastStored | workers/src/archiviste_workers/auth_metadata/token.py:72-86 | For every interleaving the cache is empty or exactly what the last successful fetch stored; failed and dropped fetches leave no trace, and without invalidation it always is the last stored entry |
| RefreshLaws.CachedRepliesAreFresh | gateway/src/auth_metadata/id_token.rs:142-158 | A token from the cache has more than 60 s left at the check, a snapshot is less than 10 s old |
| RefreshLaws.EarlyFetchFollowsEviction | gateway/src/auth_metadata/token.rs:197-202 | A fetch that starts before a stored entry was due follows an eviction made after it was stored |
| RefreshLaws.FetchesAreSpaced | gateway/src/health_cache.rs:54-95 | Without invalidation a fetch starts at least L - 60 s after the start of any stored fetch of lifetime L (54 minutes for an unreadable expiry), and a probe at least 10 s after the start of any completed probe |
| RefreshLaws.CancelReleases | gateway/src/auth_metadata/token.rs:173-195 | A caller that is dropped waits for nothing, holds nothing and leaves the cache |
| TokenProvider.Provider.constructor | gateway/src/auth_metadata/token.rs:139-153 | A provider starts with an empty cache and nobody past the lock |
| TokenProvider.Provider.TryCache | gateway/src/auth_metadata/token.rs:174-182 | The first look answers exactly when a cached entry is fresh, by the 60 s and 10 s margins, with that entry, and never fetches |
| TokenProvider.Provider.LockAndRecheck | gateway/src/auth_metadata/token.rs:184-190 | The second look answers likewise, or starts exactly one fetch while holding the lock |
| TokenProvider.Provider.FinishFetch | gateway/src/auth_metadata/token.rs:191-194 | A broken fetch releases the lock and leaves the cache; a delivered one is cached and answered, with its expiry counted from now, taken from the token or, unreadable, 55 minutes ahead |
| TokenProvider.Provider.GetOrRefresh | gateway/src/auth_metadata/token.rs:173-195 | With any others running in between, a call makes exactly one fetch of its own unless it answers from the cache or still waits; a cached answer was fresh during the call; a fetched one is stored as the server stamped it; it waits only for a lock somebody else holds; left alone it returns a fresh cached token and fetches any other |
| TokenProvider.Provider.Invalidate | gateway/src/auth_metadata/token.rs:200-202 | Once it returns the cache is empty, and it fetches nothing; it waits only for a lock somebody else holds |
| TokenProvider.CallSignBlob | gateway/src/gcs/sign.rs:156-213 | At most two POSTs and one metadata fetch; the second POST only after a 401 for a token from the cache; the last response decides: its signature exactly for a 200 with a readable body, refused exactly for 403, throttled exactly for 429, unreachable exactly without a response; without a response to go by the token was not to be had or the call still waits for a lock somebody else holds, which it never does when left alone with a free lock |
| Throttle.ThrottleStore.constructor | gateway/src/auth/throttle.rs:60-64 | The store starts without entries and agrees with the empty history |
| Throttle.ThrottleStore.IsThrottled | gateway/src/auth/throttle.rs:69-98 | After any history the answer is a lock exactly when five live failures say so, with the wait counted from the fifth; the map keeps representing the history |
| Throttle.ThrottleStore.RecordFailure | gateway/src/auth/throttle.rs:101-128 | The three-field record of every key keeps representing the whole list of failures since its last reset |
| Throttle.ThrottleStore.RecordSuccess | gateway/src/auth/throttle.rs:131-138 | A success forgets the key and nothing else |
| Throttle.RetryAfter | gateway/src/auth/throttle.rs:91-94 | The wait lies in 1..900 seconds, is less than a second short of one window after the fifth failure and exceeds it only when the minimum of one second applies |
| ThrottleLaws.LockNeedsFiveFailures | gateway/src/auth/throttle.rs:69-98 | A lock means five failures of that key inside one window and no success since the first of them |
| ThrottleLaws.LockHolds | gateway/src/auth/throttle.rs:69-128 | Once five failures are live the key stays locked through any failures, checks and other keys' events, up to one window after the first failure and before one window after the fifth |
| ThrottleLaws.FiveInARowLockIff | gateway/src/auth/throttle.rs:3-5 | Any five failures of a key in a row, without a success and whatever checks and other keys come between, lock it at once exactly when the last comes at most one window after the oldest failure still counted at the first of them; if five counted ones are simultaneous, before the end of that window |
| ThrottleLaws.PromiseIff | gateway/src/auth/throttle.rs:3-5 | Such five failures lock the key for a full window after the last exactly when the last comes at most one clock tick after the oldest counted failure and in the tick of the fifth counted one |
| ThrottleLaws.LockEndsEarly | gateway/src/auth/throttle.rs:78-82 | Five failures one second apart are unlocked before that |
| ThrottleLaws.BurstDoesNotLock | gateway/src/auth/throttle.rs:115-120 | Five failures within 62 s that do not lock, because an older one opened the window |
| ThrottleLaws.WaitEndsWithinLockIff | gateway/src/auth/throttle.rs:84-94 | The key stays locked throughout the announced wait, so that the wait does not outlast the lock, exactly when a second or more is left to one window after the fifth failure and the fifth came after the first by at most the cut-off fraction of a second and a tick |
| ThrottleLaws.WaitOutlastsLock | gateway/src/auth/throttle.rs:78-94 | Failures at 0, 1, 2, 3 and 899 s: at 900 s the wait is 899 s, at 901 s the key is free |
| JudgePanel.AggregateVerdicts | workers/src/archiviste_workers/contradiction/service.py:112-142 | The winner has two votes and nothing before it in the order of priority has; its reason is that of the first of its judges who gave one; without a winner the verdict is unclear |
| JudgePanel.OneWinner | workers/src/archiviste_workers/contradiction/service.py:133-139 | Among three judges at most one verdict can win |
| JudgePanel.OrderOfJudgesIsIrrelevant | workers/src/archiviste_workers/contradiction/service.py:261-282 | Verdict, majority and outcome do not depend on the order in which three judges answer |
| JudgePanel.OutcomeNeedsTwoVotes | workers/src/archiviste_workers/contradiction/service.py:76-88 | Confirmed exactly when two of three judges agree on absent or on contradiction, refused exactly when two see the claim present |
| JudgePanel.RedactReason | workers/src/archiviste_workers/contradiction/service.py:145-173 | The reason is replaced exactly when a 24-character window of some long enough body occurs in it; a reason let through shares no run of 47 characters with any source body |
| JudgePanel.LongRunIsCaught | workers/src/archiviste_workers/contradiction/service.py:163-166 | A common run of 47 characters is caught wherever it starts |
| JudgePanel.RunOf46Passes | workers/src/archiviste_workers/contradiction/service.py:163-166 | A body and a reason with 46 common characters that pass |
| JudgePanel.GuaranteeIsExactly47 | workers/src/archiviste_workers/contradiction/service.py:145-173 | Passing the check excludes a common run of n characters for all inputs exactly when n is at least 47 |
| Selection.ChatShell.constructor | frontend/src/components/conversation-history/ChatShell.tsx:98-109 | The shell starts with nothing selected and token 0 |
| Selection.ChatShell.HandleSelect | frontend/src/components/conversation-history/ChatShell.tsx:111-113 | Starting a selection takes the next token |
| Selection.ChatShell.HandleResponse | frontend/src/components/conversation-history/ChatShell.tsx:115-121 | A response for a superseded token is dropped; a bad one shows an error; a good one goes on to the body |
| Selection.ChatShell.HandleBody | frontend/src/components/conversation-history/ChatShell.tsx:122-134 | The body's arrival writes transcript and selection together, and only for the current token |
| Selection.ChatShell.HandleBroken | frontend/src/components/conversation-history/ChatShell.tsx:135-139 | A thrown request shows an error only for the current token |
| Selection.ChatShell.HandleNew | frontend/src/components/conversation-history/ChatShell.tsx:142-149 | A reset clears both and takes a new token |
| Selection.ChatShell.HandleRequestDelete | frontend/src/components/conversation-history/ChatShell.tsx:159-162 | Asking for a delete opens the dialog for that conversation and leaves the view |
| Selection.ChatShell.HandleCancelDelete | frontend/src/components/conversation-history/ChatShell.tsx:164-166 | Cancelling closes the dialog and nothing else |
| Selection.ChatShell.HandleConfirmDelete | frontend/src/components/conversation-history/ChatShell.tsx:168-173 | Confirming captures the selection of that moment and closes the dialog |
| Selection.ChatShell.HandleDeleteDone | frontend/src/components/conversation-history/ChatShell.tsx:180-202 | The end of a delete clears the view exactly when the capture names the deleted conversation |
| Selection.RunIsConsistent | frontend/src/components/conversation-history/ChatShell.tsx:111-149 | For every interleaving, selected id and messages are both null, or the messages are that id's transcript |
| Selection.OnlyLatestSelectionCommits | frontend/src/components/conversation-history/ChatShell.tsx:111-140 | A late response that changes what is shown belongs to the last selection: no other selection, reset or clearing delete came in between |
| Selection.CommitsIffNotSuperseded | frontend/src/components/conversation-history/ChatShell.tsx:122-134 | When the transcript of a selection arrives it is shown, whole and under its own id, exactly when no selection, reset or clearing delete came since; otherwise the view stays as it is |
| Selection.EverySelectionIsAnswered | frontend/src/components/conversation-history/ChatShell.tsx:111-140 | For every interleaving, the latest selection, once it has ended, is shown or has shown an error, and an error has no other cause |
| Selection.DeletePromiseIff | frontend/src/components/conversation-history/ChatShell.tsx:184-191 | Deleting clears the open conversation and leaves any other exactly when the captured selection still tells whether the deleted one is open, or nothing is open |
| Selection.QuietDeleteKeepsPromise | frontend/src/components/conversation-history/ChatShell.tsx:168-202 | If the selection at the end is the one at confirmation, the promise is kept |
| Selection.LateDeleteClosesAnother | frontend/src/components/conversation-history/ChatShell.tsx:168-202 | Opening b while the delete of the open a is in flight ends with b closed |

## Left out
- Validation of request bodies and identifiers before the first database step, and the exact log lines: they end a request before anything is touched, or change nothing.
- Retries inside the object-store client library: an operation has one outcome, which may be an error whose effect landed.
- The content of the header and block templates beyond their fields, and UTF-8 sizes of the payload: the object is a character sequence.
- Users and tickets: an unknown user and a referencing ticket are refusals of the step that looks for them; the anonymous upsert and ticket creation are not modelled.
- Image download, compression and orphan counters: a document carries its rendered body and its image manifest.
- Errors of listing the Drive folder, of loading or saving the state file, and of state keys that do not parse: the run has not started or is over.
- The local drift warning and summary log of a sync run: they do not change state, counters or paths.
- Dry runs are part of the run and of its counting laws; the fixpoint is stated for two real runs, because a dry run stores nothing new by design.
- SyncFixpoint.SecondRunChangesNothing: assumes that a workbook's tab listing is the same in the archive pass and in the export pass and that its gids are distinct, because the code lists the tabs twice or, after an API error, more often.
- SyncPaths.PathsAreDistinct: tab paths are not claimed to differ from one another, because tab slugs can clash (see `SheetTabs.TabSlugsDistinctIff`).
- SyncPaths.StoredApartIff: says nothing of archived entries, which keep a path that a new file may be given, nor of tabs.
- Hashes, dash translation, Unicode decomposition and case folding are parameters; folding is assumed to leave slug characters alone and to keep the prefix of the fallback.
- MarkdownFiles.HistoryLaw: assumes that the YAML writer ends its text with a newline, writes no bare fence line and is read back by the loader, for which the empty text is the null document.
- SseStream.ChunksArrive: assumes that the JSON of each chunk that is sent is written on one line and read back by the reader, and that text converts to itself; the writer, the reader and the conversion are parameters, and `SseStream.CodecExists` gives them for any list of chunks.
- Decoding of UTF-8 in the stream consumer is a parameter, except that a stream may end inside a character.
- Nesting of text nodes in a Markdown tree: citations are split in one flat text at a time.
- Throttle.ThrottleStore.RecordFailure: does not model the wrap-around of the 32-bit failure count, because it needs four billion failures inside one window; the key is the hash of the e-mail, taken as a name.
- Poisoned locks, timeouts of the HTTP client, the signed URL around the signature and the fairness of the lock: a call that cannot get the lock is reported as still waiting.
- TokenProvider.Provider.GetOrRefresh: other callers' steps are given per gap, so a call blocked on the lock returns `Blocked` instead of waiting.
- Parsing of a judge's reply, resolving sources, and the forced ticket: they surround the tally without touching it.
- React rendering, the list of conversations beside the selection, and the texts of error messages.
- Board queries, evaluation, cost estimates, percent-encoding and title truncation: they would only add easy members.
