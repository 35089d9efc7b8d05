/**
 The conversation log protocol: any number of POST and DELETE requests on one
 conversation, interleaved step by step.

 The Markdown object is the source of truth. It is created by a conditional
 upload and extended by read, then compare-and-swap on the generation. The
 Postgres row, its counter and the per-turn table follow. A step is one atomic
 operation on the object store or on the database; `Outcome` says how it went.
 `Fail(applied)` is an error whose effect may nevertheless have landed.
 */
module ConversationLog {
  import opened Wrappers

  type RequestId = nat

  /** One read and one conditional write per attempt: three backoffs, four attempts. */
  const MAX_ATTEMPTS: nat := 4
  /** Seconds by which a message may be dated ahead of the clock. */
  const FUTURE_TOLERANCE: int := 300

  /******* Data *******/

  datatype Instant = Instant(at: int, iso: string)
  datatype Message = Message(user: string, role: string, content: string, sent: Instant)

  datatype Row = Row(owner: string, created: Instant, count: nat)
  /** A row of the per-turn table; `author` is the request that inserted it. */
  datatype Turn = Turn(ordinal: nat, role: string, content: string, author: RequestId)
  datatype Blob = Blob(text: string, generation: nat)
  datatype Origin = Origin(created: Instant, user: string)

  datatype Status =
    | Created(count: int, generation: nat)      // 201
    | Deleted                                   // 204
    | AlreadyExists                             // 409 conversation_already_exists
    | Contended(since: nat, until: nat)         // 409 concurrent_write
    | Ticketed                                  // 409 on DELETE
    | NotFound                                  // 404
    | Rejected                                  // 422
    | ServerError                               // 500
    | Unavailable                               // 503
    | Crashed                                   // the request died without answering

  datatype Phase =
    | CreateRow
    | CreateObject
    | CreateReload
    | Read(attempt: nat)
    | Write(attempt: nat, seen: Blob, at: nat)
    | WriteReload
    | Heal
    | HealReload
    | Increment(generation: nat)
    | Insert(generation: nat, count: nat)
    | DeleteBegin(caller: string)
    | DeleteRow
    | DeleteObject
    | DeleteCommit
    | Done(status: Status)

  /**
   `created` is the row's genesis as this request read it; `healed` says that the
   second append is under way. `wrote` (its block landed) and `since` (how many
   generation changes had happened when the current append began) are history.
   */
  datatype Request = Request(phase: Phase, created: Instant, healed: bool, wrote: bool, since: nat)

  /**
   `lock` is the row lock of an uncommitted DELETE transaction. The last four
   fields are history: who the header names, whose blocks the object holds, who
   made each generation change, and who made each counter increment of the row.
   */
  datatype State = State(
    id: string,
    row: Option<Row>,
    turns: seq<Turn>,
    blob: Option<Blob>,
    nextGeneration: nat,
    lock: Option<RequestId>,
    messages: map<RequestId, Message>,
    requests: map<RequestId, Request>,
    origin: Origin,
    committed: seq<RequestId>,
    changes: seq<RequestId>,
    increments: seq<RequestId>
  )

  datatype Outcome = Ok(now: int) | Refused | Fail(applied: bool)

  datatype Event =
    | StartPost(request: RequestId, message: Message)
    | StartDelete(request: RequestId, caller: string)
    | Step(request: RequestId, outcome: Outcome)
    | Crash(request: RequestId)

  /******* The Markdown format *******/

  function Header(id: string, origin: Origin): string {
    "# Conversation " + id + "\n\nCreated: " + origin.created.iso + "\nUser: " + origin.user + "\n\n---\n"
  }

  function Block(m: Message): string {
    "## [" + m.sent.iso + "] " + m.role + "\n" + m.content + "\n\n"
  }

  predicate AllKnown(messages: map<RequestId, Message>, authors: seq<RequestId>) {
    forall i :: 0 <= i < |authors| ==> authors[i] in messages
  }

  /** The blocks of the given requests, in order. */
  function Blocks(messages: map<RequestId, Message>, authors: seq<RequestId>): string
    requires AllKnown(messages, authors)
  {
    if authors == [] then ""
    else Blocks(messages, authors[..|authors| - 1]) + Block(messages[authors[|authors| - 1]])
  }

  /******* Atomic operations *******/

  function Goto(s: State, r: RequestId, p: Phase): State
    requires r in s.requests
  {
    s.(requests := s.requests[r := s.requests[r].(phase := p)])
  }

  function Finish(s: State, r: RequestId, status: Status): State
    requires r in s.requests
  {
    Goto(s, r, Done(status))
  }

  /** Entering `_read_modify_write`: first attempt, and the contention count starts here. */
  function BeginAppend(s: State, r: RequestId): State
    requires r in s.requests
  {
    s.(requests := s.requests[r := s.requests[r].(phase := Read(0), since := |s.changes|)])
  }

  /** INSERT ... ON CONFLICT DO NOTHING. */
  function InsertRow(s: State, m: Message): State {
    if s.row.Some? then s
    else s.(row := Some(Row(m.user, m.sent, 0)), increments := [])
  }

  /** Upload of the header with if_generation_match=0; callers check that the object is absent. */
  function PutHeader(s: State, r: RequestId, origin: Origin): State
    requires s.blob.None?
  {
    s.(blob := Some(Blob(Header(s.id, origin), s.nextGeneration)), nextGeneration := s.nextGeneration + 1,
       origin := origin, committed := [], changes := s.changes + [r])
  }

  predicate GenerationMatches(s: State, seen: Blob) {
    s.blob.Some? && s.blob.value.generation == seen.generation
  }

  /** Upload of the payload read earlier plus one block; callers check the generation. */
  function PutBlock(s: State, r: RequestId, seen: Blob): State
    requires r in s.requests && r in s.messages
  {
    s.(blob := Some(Blob(seen.text + Block(s.messages[r]), s.nextGeneration)),
       nextGeneration := s.nextGeneration + 1,
       committed := s.committed + [r], changes := s.changes + [r],
       requests := s.requests[r := s.requests[r].(wrote := true)])
  }

  function IncrementCount(s: State, r: RequestId): State
    requires s.row.Some?
  {
    s.(row := Some(s.row.value.(count := s.row.value.count + 1)), increments := s.increments + [r])
  }

  predicate HasOrdinal(turns: seq<Turn>, ordinal: nat) {
    exists i :: 0 <= i < |turns| && turns[i].ordinal == ordinal
  }

  /** INSERT INTO conversation_messages: needs the parent row and a free ordinal. */
  function InsertTurn(s: State, r: RequestId, ordinal: nat): State
    requires r in s.messages
  {
    if s.row.None? || HasOrdinal(s.turns, ordinal) then s
    else s.(turns := s.turns + [Turn(ordinal, s.messages[r].role, s.messages[r].content, r)])
  }

  /** An object that is already absent (404) counts as deleted, exactly like 200 and 204. */
  function DropObject(s: State, r: RequestId): State {
    if s.blob.None? then s
    else s.(blob := None, committed := [], changes := s.changes + [r])
  }

  function ReleaseLock(s: State, r: RequestId): State {
    if s.lock == Some(r) then s.(lock := None) else s
  }

  /** COMMIT of the DELETE: the row goes, its turns cascade. */
  function CommitDelete(s: State, r: RequestId): State {
    if s.lock == Some(r) then s.(row := None, turns := [], increments := []) else s
  }

  /******* One step of one request *******/

  predicate IsPostPhase(p: Phase) {
    p.CreateRow? || p.CreateObject? || p.CreateReload? || p.Read? || p.Write? || p.WriteReload? || p.Heal?
    || p.HealReload? || p.Increment? || p.Insert?
  }

  /** Phases in which the request's own block cannot have landed yet. */
  predicate BeforeWrite(p: Phase) {
    p.CreateRow? || p.CreateObject? || p.CreateReload? || p.Read? || p.Write? || p.Heal? || p.HealReload?
  }

  /** A step of r touches no other request and no message. */
  ghost predicate OnlyTouches(s: State, t: State, r: RequestId) {
    && r in s.requests
    && r in t.requests
    && t.id == s.id
    && t.messages == s.messages
    && t.requests == s.requests[r := t.requests[r]]
    && (IsPostPhase(t.requests[r].phase) ==> r in s.messages)
  }

  /** The object, its generation and their history did not change. */
  ghost predicate SameStore(s: State, t: State) {
    && t.id == s.id && t.messages == s.messages && t.blob == s.blob && t.nextGeneration == s.nextGeneration
    && t.origin == s.origin && t.committed == s.committed && t.changes == s.changes
  }

  /** A database or read-only step. */
  ghost predicate LeavesStore(s: State, t: State, r: RequestId) {
    SameStore(s, t) && r in s.requests && r in t.requests && t.requests[r].wrote == s.requests[r].wrote
  }

  /** The database did not change. */
  ghost predicate SameTables(s: State, t: State) {
    t.row == s.row && t.turns == s.turns && t.increments == s.increments && t.lock == s.lock
  }

  function StepCreateRow(s: State, r: RequestId, o: Outcome): (t: State)
    requires r in s.requests && r in s.messages
    ensures OnlyTouches(s, t, r) && LeavesStore(s, t, r)
  {
    var m := s.messages[r];
    if s.lock.Some? then s
    else match o
      case Refused => Finish(s, r, Rejected)
      case Fail(applied) => Finish(if applied then InsertRow(s, m) else s, r, ServerError)
      case Ok(now) =>
        var t := InsertRow(s, m);
        var created := t.row.value.created;
        if m.sent.at > now + FUTURE_TOLERANCE || m.sent.at < created.at then Finish(t, r, Rejected)
        else
          var u := t.(requests := t.requests[r := t.requests[r].(created := created)]);
          if s.row.None? then Goto(u, r, CreateObject) else BeginAppend(u, r)
  }

  function StepCreateObject(s: State, r: RequestId, o: Outcome): (t: State)
    requires r in s.requests && r in s.messages
    ensures OnlyTouches(s, t, r) && SameTables(s, t)
    ensures t.requests[r].wrote == s.requests[r].wrote
    ensures t.committed == s.committed || (s.blob.None? && t.committed == [])
    ensures BeforeWrite(t.requests[r].phase) || t.requests[r].phase.Done?
  {
    var origin := Origin(s.requests[r].created, s.messages[r].user);
    match o
    case Ok(_) =>
      if s.blob.Some? then Finish(s, r, AlreadyExists)
      else Goto(PutHeader(s, r, origin), r, CreateReload)
    case Fail(true) => Finish(if s.blob.Some? then s else PutHeader(s, r, origin), r, Unavailable)
    case _ => Finish(s, r, Unavailable)
  }

  /** `blob.reload()` sits outside every try block: any error ends the request with a 500. */
  function StepCreateReload(s: State, r: RequestId, o: Outcome): (t: State)
    requires r in s.requests && r in s.messages
    ensures OnlyTouches(s, t, r) && LeavesStore(s, t, r) && SameTables(s, t)
  {
    if o.Ok? && s.blob.Some? then BeginAppend(s, r) else Finish(s, r, ServerError)
  }

  function StepRead(s: State, r: RequestId, o: Outcome): (t: State)
    requires r in s.requests && r in s.messages && s.requests[r].phase.Read?
    ensures OnlyTouches(s, t, r) && LeavesStore(s, t, r) && SameTables(s, t)
  {
    var q := s.requests[r];
    if !o.Ok? then Finish(s, r, Unavailable)
    else if s.blob.Some? then Goto(s, r, Write(q.phase.attempt, s.blob.value, |s.changes|))
    else if q.healed then Finish(s, r, ServerError)
    else Goto(s, r, Heal)
  }

  function StepWrite(s: State, r: RequestId, o: Outcome): (t: State)
    requires r in s.requests && r in s.messages && s.requests[r].phase.Write?
    ensures OnlyTouches(s, t, r) && SameTables(s, t)
    ensures t.requests[r].wrote == (s.requests[r].wrote || t.committed == s.committed + [r])
    ensures t.committed == s.committed || t.committed == s.committed + [r]
    ensures t.requests[r].phase.Read? || t.requests[r].phase.WriteReload? || t.requests[r].phase.Done?
  {
    var q := s.requests[r];
    var Write(attempt, seen, _) := q.phase;
    match o
    case Ok(_) =>
      if GenerationMatches(s, seen) then Goto(PutBlock(s, r, seen), r, WriteReload)
      else if attempt + 1 < MAX_ATTEMPTS then Goto(s, r, Read(attempt + 1))
      else Finish(s, r, Contended(q.since, |s.changes|))
    case Fail(true) => Finish(if GenerationMatches(s, seen) then PutBlock(s, r, seen) else s, r, Unavailable)
    case _ => Finish(s, r, Unavailable)
  }

  function StepWriteReload(s: State, r: RequestId, o: Outcome): (t: State)
    requires r in s.requests && r in s.messages
    ensures OnlyTouches(s, t, r) && LeavesStore(s, t, r) && SameTables(s, t)
  {
    if o.Ok? && s.blob.Some? then Goto(s, r, Increment(s.blob.value.generation)) else Finish(s, r, ServerError)
  }

  /** Recreate the header of an orphaned conversation; an object that appeared meanwhile is fine. */
  function StepHeal(s: State, r: RequestId, o: Outcome): (t: State)
    requires r in s.requests && r in s.messages
    ensures OnlyTouches(s, t, r) && SameTables(s, t)
    ensures t.requests[r].wrote == s.requests[r].wrote
    ensures t.committed == s.committed || (s.blob.None? && t.committed == [])
    ensures BeforeWrite(t.requests[r].phase) || t.requests[r].phase.Done?
  {
    var origin := Origin(s.requests[r].created, s.messages[r].user);
    var t := s.(requests := s.requests[r := s.requests[r].(healed := true)]);
    match o
    case Ok(_) =>
      if s.blob.Some? then BeginAppend(t, r) else Goto(PutHeader(t, r, origin), r, HealReload)
    case Fail(true) => Finish(if s.blob.Some? then s else PutHeader(s, r, origin), r, Unavailable)
    case _ => Finish(s, r, Unavailable)
  }

  /** Best effort: an error leaves message_count at -1 and skips the turn. */
  function StepIncrement(s: State, r: RequestId, o: Outcome): (t: State)
    requires r in s.requests && r in s.messages && s.requests[r].phase.Increment?
    ensures OnlyTouches(s, t, r) && LeavesStore(s, t, r)
  {
    var generation := s.requests[r].phase.generation;
    if s.lock.Some? then s
    else match o
      case Ok(_) =>
        if s.row.None? then Finish(s, r, ServerError)
        else
          var t := IncrementCount(s, r);
          Goto(t, r, Insert(generation, t.row.value.count))
      case Fail(true) =>
        Finish(if s.row.Some? then IncrementCount(s, r) else s, r, Created(-1, generation))
      case _ => Finish(s, r, Created(-1, generation))
  }

  function StepInsert(s: State, r: RequestId, o: Outcome): (t: State)
    requires r in s.requests && r in s.messages && s.requests[r].phase.Insert?
    ensures OnlyTouches(s, t, r) && LeavesStore(s, t, r)
  {
    var Insert(generation, count) := s.requests[r].phase;
    if s.lock.Some? then s
    else if (o.Ok? || o == Fail(true)) && count > 0 then
      Finish(InsertTurn(s, r, count - 1), r, Created(count, generation))
    else Finish(s, r, Created(count, generation))
  }

  function StepDeleteBegin(s: State, r: RequestId, o: Outcome): (t: State)
    requires r in s.requests && s.requests[r].phase.DeleteBegin?
    ensures OnlyTouches(s, t, r) && LeavesStore(s, t, r)
  {
    if o.Fail? then Finish(s, r, Unavailable)
    else if s.row.None? || s.row.value.owner != s.requests[r].phase.caller then Finish(s, r, NotFound)
    else if o.Refused? then Finish(s, r, Ticketed)
    else Goto(s, r, DeleteRow)
  }

  function StepDeleteRow(s: State, r: RequestId, o: Outcome): (t: State)
    requires r in s.requests && s.requests[r].phase.DeleteRow?
    ensures OnlyTouches(s, t, r) && LeavesStore(s, t, r)
  {
    if s.lock.Some? then s
    else if !o.Ok? then Finish(s, r, Unavailable)
    else Goto(if s.row.Some? then s.(lock := Some(r)) else s, r, DeleteObject)
  }

  function StepDeleteObject(s: State, r: RequestId, o: Outcome): (t: State)
    requires r in s.requests && s.requests[r].phase.DeleteObject?
    ensures OnlyTouches(s, t, r)
  {
    match o
    case Ok(_) => Goto(DropObject(s, r), r, DeleteCommit)
    case Fail(true) => Finish(ReleaseLock(DropObject(s, r), r), r, Unavailable)
    case _ => Finish(ReleaseLock(s, r), r, Unavailable)
  }

  function StepDeleteCommit(s: State, r: RequestId, o: Outcome): (t: State)
    requires r in s.requests && s.requests[r].phase.DeleteCommit?
    ensures OnlyTouches(s, t, r) && LeavesStore(s, t, r)
  {
    match o
    case Ok(_) => Finish(ReleaseLock(CommitDelete(s, r), r), r, Deleted)
    case Fail(true) => Finish(ReleaseLock(CommitDelete(s, r), r), r, Unavailable)
    case _ => Finish(ReleaseLock(s, r), r, Unavailable)
  }

  function StepRequest(s: State, r: RequestId, o: Outcome): (t: State)
    requires r in s.requests
    requires IsPostPhase(s.requests[r].phase) ==> r in s.messages
    ensures OnlyTouches(s, t, r)
  {
    match s.requests[r].phase
    case CreateRow => StepCreateRow(s, r, o)
    case CreateObject => StepCreateObject(s, r, o)
    case CreateReload => StepCreateReload(s, r, o)
    case Read(_) => StepRead(s, r, o)
    case Write(_, _, _) => StepWrite(s, r, o)
    case WriteReload => StepWriteReload(s, r, o)
    case Heal => StepHeal(s, r, o)
    case HealReload => StepCreateReload(s, r, o)
    case Increment(_) => StepIncrement(s, r, o)
    case Insert(_, _) => StepInsert(s, r, o)
    case DeleteBegin(_) => StepDeleteBegin(s, r, o)
    case DeleteRow => StepDeleteRow(s, r, o)
    case DeleteObject => StepDeleteObject(s, r, o)
    case DeleteCommit => StepDeleteCommit(s, r, o)
    case Done(_) => s
  }

  /******* Runs *******/

  const EPOCH := Instant(0, "")

  function Fresh(p: Phase): Request {
    Request(p, EPOCH, false, false, 0)
  }

  /** Every post phase has its message; this is what makes a step well defined. */
  ghost predicate Typed(s: State) {
    forall r :: r in s.requests && IsPostPhase(s.requests[r].phase) ==> r in s.messages
  }

  /** An event that does not apply (unknown request, identifier already used) changes nothing. */
  ghost function Apply(s: State, e: Event): State
    requires Typed(s)
  {
    match e
    case StartPost(r, m) =>
      if r in s.requests || r in s.messages then s
      else s.(requests := s.requests[r := Fresh(CreateRow)], messages := s.messages[r := m])
    case StartDelete(r, caller) =>
      if r in s.requests || r in s.messages then s
      else s.(requests := s.requests[r := Fresh(DeleteBegin(caller))])
    case Step(r, o) => if r in s.requests then StepRequest(s, r, o) else s
    case Crash(r) =>
      if r in s.requests && !s.requests[r].phase.Done? then Finish(ReleaseLock(s, r), r, Crashed) else s
  }

  lemma ApplyTyped(s: State, e: Event)
    requires Typed(s)
    ensures Typed(Apply(s, e))
  {
  }

  function Initial(id: string): State {
    State(id, None, [], None, 1, None, map[], map[], Origin(EPOCH, ""), [], [], [])
  }

  /** The state after a finite run; its length is the number of events. */
  ghost function Run(id: string, events: seq<Event>): (s: State)
    ensures Typed(s)
  {
    if events == [] then Initial(id)
    else
      var s := Run(id, events[..|events| - 1]);
      ApplyTyped(s, events[|events| - 1]);
      Apply(s, events[|events| - 1])
  }
}
