/**
 Requests that neither overlap nor fail: the per-turn table is the Markdown, turn
 by turn, so the bounded tail read returns the newest blocks first.
 */
module ConversationTranscript {
  import opened Wrappers
  import opened ConversationLog
  import opened ConversationSafety
  import opened ConversationSerial

  /** Every operation succeeded; a message rejected for its timestamp is not a failure. */
  ghost predicate AllOk(events: seq<Event>) {
    forall i :: 0 <= i < |events| ==> !events[i].Crash? && (events[i].Step? ==> events[i].outcome.Ok?)
  }

  /** Turn k is the k-th of the given requests. */
  ghost predicate TurnsFollow(s: State, authors: seq<RequestId>) {
    && |s.turns| == |authors|
    && forall k :: 0 <= k < |authors| ==>
         && authors[k] in s.messages
         && s.turns[k] == Turn(k, s.messages[authors[k]].role, s.messages[authors[k]].content, authors[k])
  }

  ghost predicate AlignedRequest(s: State, r: RequestId, q: Request) {
    match q.phase
    case WriteReload => TurnsFollow(s, s.increments) && s.committed == s.increments + [r]
    case Increment(_) => TurnsFollow(s, s.increments) && s.committed == s.increments + [r]
    case Insert(_, count) =>
      && s.committed == s.increments && 0 < count == |s.increments| && s.increments[count - 1] == r
      && TurnsFollow(s, s.increments[..count - 1])
    case DeleteCommit => true
    case _ => TurnsFollow(s, s.increments) && s.committed == s.increments
  }

  /** With nobody active, or for the one active request, tables and object agree. */
  ghost predicate Aligned(s: State) {
    && Inv(s) && SerialInv(s)
    && (s.row.None? ==> s.increments == [] && s.turns == [])
    && (s.row.Some? ==> s.row.value.count == |s.increments|)
    && (Quiet(s) ==> TurnsFollow(s, s.increments) && s.committed == s.increments)
    && (forall r :: r in s.requests && !s.requests[r].phase.Done? ==> AlignedRequest(s, r, s.requests[r]))
  }

  /** What a step of the only live request has to re-establish. */
  ghost predicate AlignedAlone(s: State, r: RequestId) {
    && r in s.requests
    && (s.row.None? ==> s.increments == [] && s.turns == [])
    && (s.row.Some? ==> s.row.value.count == |s.increments|)
    && AlignedRequest(s, r, s.requests[r])
  }

  lemma HeaderStepKeepsAligned(s: State, r: RequestId, o: Outcome)
    requires Typed(s) && AloneInv(s, r) && AlignedAlone(s, r) && ObjectInv(s) && RequestInv(s, r, s.requests[r])
    requires o.Ok? && var p := s.requests[r].phase; p.CreateObject? || p.Heal?
    ensures AlignedAlone(StepRequest(s, r, o), r)
  {
  }

  lemma ReadStepKeepsAligned(s: State, r: RequestId, o: Outcome)
    requires Typed(s) && AloneInv(s, r) && AlignedAlone(s, r) && ObjectInv(s) && RequestInv(s, r, s.requests[r])
    requires o.Ok? && var p := s.requests[r].phase; p.CreateReload? || p.HealReload? || p.Read?
    ensures AlignedAlone(StepRequest(s, r, o), r)
  {
  }

  lemma WriteStepKeepsAligned(s: State, r: RequestId, o: Outcome)
    requires Typed(s) && AloneInv(s, r) && AlignedAlone(s, r) && ObjectInv(s) && RequestInv(s, r, s.requests[r])
    requires o.Ok? && var p := s.requests[r].phase; p.Write?
    ensures AlignedAlone(StepRequest(s, r, o), r)
  {
  }

  lemma WriteReloadStepKeepsAligned(s: State, r: RequestId, o: Outcome)
    requires Typed(s) && AloneInv(s, r) && AlignedAlone(s, r) && ObjectInv(s) && RequestInv(s, r, s.requests[r])
    requires o.Ok? && var p := s.requests[r].phase; p.WriteReload?
    ensures AlignedAlone(StepRequest(s, r, o), r)
  {
  }

  lemma CreateRowStepKeepsAligned(s: State, r: RequestId, o: Outcome)
    requires Typed(s) && AloneInv(s, r) && AlignedAlone(s, r) && ObjectInv(s) && RequestInv(s, r, s.requests[r])
    requires o.Ok? && var p := s.requests[r].phase; p.CreateRow?
    ensures AlignedAlone(StepRequest(s, r, o), r)
  {
  }

  lemma IncrementStepKeepsAligned(s: State, r: RequestId, o: Outcome)
    requires Typed(s) && AloneInv(s, r) && AlignedAlone(s, r) && ObjectInv(s) && RequestInv(s, r, s.requests[r])
    requires o.Ok? && var p := s.requests[r].phase; p.Increment?
    ensures AlignedAlone(StepRequest(s, r, o), r)
  {
    assert (s.increments + [r])[..|s.increments|] == s.increments;
  }

  lemma InsertStepKeepsAligned(s: State, r: RequestId, o: Outcome)
    requires Typed(s) && AloneInv(s, r) && AlignedAlone(s, r) && ObjectInv(s) && RequestInv(s, r, s.requests[r])
    requires o.Ok? && var p := s.requests[r].phase; p.Insert?
    ensures AlignedAlone(StepRequest(s, r, o), r)
  {
  }

  lemma DeleteStepKeepsAligned(s: State, r: RequestId, o: Outcome)
    requires Typed(s) && AloneInv(s, r) && AlignedAlone(s, r) && ObjectInv(s) && RequestInv(s, r, s.requests[r])
    requires o.Ok? && var p := s.requests[r].phase; p.DeleteBegin? || p.DeleteRow?
    ensures AlignedAlone(StepRequest(s, r, o), r)
  {
    hide Typed, ObjectInv, RequestInv, Header, Block, Blocks, StepDeleteObject, StepDeleteCommit;
  }

  lemma DropStepKeepsAligned(s: State, r: RequestId, o: Outcome)
    requires Typed(s) && AloneInv(s, r) && AlignedAlone(s, r) && ObjectInv(s) && RequestInv(s, r, s.requests[r])
    requires o.Ok? && var p := s.requests[r].phase; p.DeleteObject? || p.DeleteCommit?
    ensures AlignedAlone(StepRequest(s, r, o), r)
  {
  }

  lemma StepKeepsAligned(s: State, r: RequestId, o: Outcome)
    requires Aligned(s) && r in s.requests && !s.requests[r].phase.Done? && o.Ok?
    ensures AlignedAlone(StepRequest(s, r, o), r)
  {
    assert RequestInv(s, r, s.requests[r]) && SerialRequestInv(s, r, s.requests[r]);
    assert AlignedRequest(s, r, s.requests[r]);
    match s.requests[r].phase
    case CreateRow => CreateRowStepKeepsAligned(s, r, o);
    case CreateObject => HeaderStepKeepsAligned(s, r, o);
    case CreateReload => ReadStepKeepsAligned(s, r, o);
    case Read(_) => ReadStepKeepsAligned(s, r, o);
    case Write(_, _, _) => WriteStepKeepsAligned(s, r, o);
    case WriteReload => WriteReloadStepKeepsAligned(s, r, o);
    case Heal => HeaderStepKeepsAligned(s, r, o);
    case HealReload => ReadStepKeepsAligned(s, r, o);
    case Increment(_) => IncrementStepKeepsAligned(s, r, o);
    case Insert(_, _) => InsertStepKeepsAligned(s, r, o);
    case DeleteBegin(_) => DeleteStepKeepsAligned(s, r, o);
    case DeleteRow => DeleteStepKeepsAligned(s, r, o);
    case DeleteObject => DropStepKeepsAligned(s, r, o);
    case DeleteCommit => DropStepKeepsAligned(s, r, o);
  }

  lemma AlignedAloneSuffices(s: State, t: State, r: RequestId)
    requires Aligned(s) && r in s.requests && !s.requests[r].phase.Done?
    requires OnlyTouches(s, t, r) && Inv(t) && SerialInv(t) && AlignedAlone(t, r)
    ensures Aligned(t)
  {
    forall x | x in t.requests && x != r ensures t.requests[x].phase.Done? {
      assert t.requests[x] == s.requests[x];
    }
  }

  lemma StartKeepsAligned(s: State, e: Event)
    requires Aligned(s) && Quiet(s) && (e.StartPost? || e.StartDelete?)
    requires Inv(Apply(s, e)) && SerialInv(Apply(s, e))
    ensures Aligned(Apply(s, e))
  {
    hide ObjectInv, RequestInv, Header, Block, Blocks;
  }

  lemma ApplyKeepsAligned(s: State, e: Event)
    requires Aligned(s) && !e.Crash? && (e.Step? ==> e.outcome.Ok?)
    requires e.StartPost? || e.StartDelete? ==> Quiet(s)
    ensures Aligned(Apply(s, e))
  {
    ApplyKeepsInv(s, e);
    ApplyKeepsSerial(s, e);
    if !e.Step? {
      StartKeepsAligned(s, e);
    } else if e.request in s.requests && !s.requests[e.request].phase.Done? {
      StepKeepsAligned(s, e.request, e.outcome);
      AlignedAloneSuffices(s, StepRequest(s, e.request, e.outcome), e.request);
    }
  }

  lemma {:induction false} RunKeepsAligned(id: string, events: seq<Event>)
    requires Serial(id, events) && AllOk(events)
    ensures Aligned(Run(id, events))
  {
    if events != [] {
      RunKeepsAligned(id, events[..|events| - 1]);
      ApplyKeepsAligned(Run(id, events[..|events| - 1]), events[|events| - 1]);
    }
  }

  /******* The tail read *******/

  /** Insertion into a list ordered by descending ordinal. */
  function InsertNewest(t: Turn, sorted: seq<Turn>): seq<Turn> {
    if sorted == [] || sorted[0].ordinal <= t.ordinal then [t] + sorted
    else [sorted[0]] + InsertNewest(t, sorted[1..])
  }

  /** ORDER BY ordinal DESC. */
  function NewestFirst(turns: seq<Turn>): seq<Turn> {
    if turns == [] then [] else InsertNewest(turns[|turns| - 1], NewestFirst(turns[..|turns| - 1]))
  }

  /** ORDER BY ordinal DESC LIMIT limit. */
  function FetchTail(turns: seq<Turn>, limit: nat): seq<Turn> {
    var sorted := NewestFirst(turns);
    if limit < |sorted| then sorted[..limit] else sorted
  }

  lemma {:induction false} AscendingReverses(turns: seq<Turn>)
    requires forall k :: 0 <= k < |turns| ==> turns[k].ordinal == k
    ensures |NewestFirst(turns)| == |turns|
    ensures forall k :: 0 <= k < |turns| ==> NewestFirst(turns)[k] == turns[|turns| - 1 - k]
  {
    if turns != [] {
      var n := |turns| - 1;
      var rest := NewestFirst(turns[..n]);
      AscendingReverses(turns[..n]);
      assert n > 0 ==> rest[0] == turns[n - 1];
      assert NewestFirst(turns) == [turns[n]] + rest;
    }
  }

  /** Entry i of the tail carries the role and content of the i-th newest block. */
  ghost predicate TailFollows(s: State, tail: seq<Turn>)
    requires AllKnown(s.messages, s.committed) && |tail| <= |s.committed|
  {
    var n := |s.committed|;
    forall i :: 0 <= i < |tail| ==>
      && tail[i].ordinal == n - 1 - i
      && tail[i].role == s.messages[s.committed[n - 1 - i]].role
      && tail[i].content == s.messages[s.committed[n - 1 - i]].content
  }

  lemma AlignedTail(s: State, limit: nat)
    requires TurnsFollow(s, s.committed)
    ensures |FetchTail(s.turns, limit)| == if limit < |s.committed| then limit else |s.committed|
    ensures TailFollows(s, FetchTail(s.turns, limit))
  {
    AscendingReverses(s.turns);
  }

  /**
   Between requests, message_count is the number of blocks, and the tail read is
   the reversed tail of the Markdown.
   */
  lemma TailIsReversedMarkdown(id: string, events: seq<Event>, limit: nat)
    requires Serial(id, events) && AllOk(events) && Quiet(Run(id, events))
    ensures var s := Run(id, events);
            var tail := FetchTail(s.turns, limit);
            && AllKnown(s.messages, s.committed)
            && (s.blob.Some? ==> s.blob.value.text == Header(id, s.origin) + Blocks(s.messages, s.committed))
            && (s.row.Some? ==> s.row.value.count == |s.committed|)
            && |tail| == (if limit < |s.committed| then limit else |s.committed|)
            && TailFollows(s, tail)
  {
    RunKeepsAligned(id, events);
    RunKeepsId(id, events);
    AlignedTail(Run(id, events), limit);
  }
}
