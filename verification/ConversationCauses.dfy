/** Why a request gets the answer it gets: each status has its causes, and no other. */
module ConversationCauses {
  import opened Wrappers
  import opened ConversationLog
  import opened ConversationOverlap
  import opened ConversationOwners

  /** The message is dated before the conversation or more than 300 s ahead of the clock. */
  predicate Misdated(s: State, m: Message, now: int) {
    m.sent.at > now + 300 || (s.row.Some? && m.sent.at < s.row.value.created.at)
  }

  /** The step with this outcome, in this state, ends the request with this status. */
  ghost predicate Causes(s: State, r: RequestId, o: Outcome, status: Status)
    requires r in s.requests
  {
    var p := s.requests[r].phase;
    match status
    case Created(count, generation) =>
      && s.lock.None?
      && ((p == Increment(generation) && !o.Ok? && count == -1)
          || (p.Insert? && p.generation == generation && p.count == count))
    case Deleted => p.DeleteCommit? && o.Ok?
    case AlreadyExists => p.CreateObject? && o.Ok? && s.blob.Some?
    case Contended(since, until) =>
      && p.Write? && o.Ok? && p.attempt >= 3 && since == s.requests[r].since && until == |s.changes|
      && (s.blob.None? || s.blob.value.generation != p.seen.generation)
    case Ticketed => p.DeleteBegin? && o.Refused? && Owns(s, p.caller)
    case NotFound => p.DeleteBegin? && !o.Fail? && !Owns(s, p.caller)
    case Rejected =>
      && p.CreateRow? && s.lock.None? && r in s.messages
      && (o.Refused? || (o.Ok? && Misdated(s, s.messages[r], o.now)))
    case ServerError =>
      // The database failed at first, a reload failed, the healed object is gone again, or the row is.
      || (p.CreateRow? && s.lock.None? && o.Fail?)
      || ((p.CreateReload? || p.HealReload? || p.WriteReload?) && !(o.Ok? && s.blob.Some?))
      || (p.Read? && o.Ok? && s.blob.None? && s.requests[r].healed)
      || (p.Increment? && s.lock.None? && o.Ok? && s.row.None?)
    case Unavailable =>
      // The object store failed, or, in a DELETE, anything did.
      || ((p.CreateObject? || p.Heal? || p.Read? || p.Write?) && !o.Ok?)
      || (p.DeleteBegin? && o.Fail?)
      || (p.DeleteRow? && s.lock.None? && !o.Ok?)
      || ((p.DeleteObject? || p.DeleteCommit?) && !o.Ok?)
    case Crashed => false
  }

  lemma CreateEndsIff(s: State, r: RequestId, o: Outcome, status: Status)
    requires Typed(s) && r in s.requests
    requires var p := s.requests[r].phase; p.CreateRow? || p.CreateObject? || p.CreateReload? || p.Heal? || p.HealReload?
    ensures StepRequest(s, r, o).requests[r].phase == Done(status) <==> Causes(s, r, o, status)
  {
    hide Header, Block, StepRead, StepWrite, StepWriteReload, StepIncrement, StepInsert, StepDeleteBegin, StepDeleteRow,
      StepDeleteObject, StepDeleteCommit;
    match s.requests[r].phase
    case CreateRow =>
    case CreateObject =>
    case CreateReload =>
    case Heal =>
    case HealReload =>
  }

  lemma AppendEndsIff(s: State, r: RequestId, o: Outcome, status: Status)
    requires Typed(s) && r in s.requests
    requires var p := s.requests[r].phase; p.Read? || p.Write?
    ensures StepRequest(s, r, o).requests[r].phase == Done(status) <==> Causes(s, r, o, status)
  {
    hide Header, Block, StepCreateRow, StepCreateObject, StepCreateReload, StepWriteReload, StepHeal, StepIncrement,
      StepInsert, StepDeleteBegin, StepDeleteRow, StepDeleteObject, StepDeleteCommit;
    match s.requests[r].phase
    case Read(_) =>
    case Write(_, _, _) =>
  }

  lemma CountEndsIff(s: State, r: RequestId, o: Outcome, status: Status)
    requires Typed(s) && r in s.requests
    requires var p := s.requests[r].phase; p.WriteReload? || p.Increment? || p.Insert?
    ensures StepRequest(s, r, o).requests[r].phase == Done(status) <==> Causes(s, r, o, status)
  {
    hide Header, Block, StepCreateRow, StepCreateObject, StepCreateReload, StepRead, StepWrite, StepHeal,
      StepDeleteBegin, StepDeleteRow, StepDeleteObject, StepDeleteCommit;
    match s.requests[r].phase
    case WriteReload =>
    case Increment(_) =>
    case Insert(_, _) =>
  }

  lemma DeleteStartEndsIff(s: State, r: RequestId, o: Outcome, status: Status)
    requires Typed(s) && r in s.requests
    requires var p := s.requests[r].phase; p.DeleteBegin? || p.DeleteRow?
    ensures StepRequest(s, r, o).requests[r].phase == Done(status) <==> Causes(s, r, o, status)
  {
    hide Header, Block, StepCreateRow, StepCreateObject, StepCreateReload, StepRead, StepWrite, StepWriteReload,
      StepHeal, StepIncrement, StepInsert, StepDeleteObject, StepDeleteCommit;
    match s.requests[r].phase
    case DeleteBegin(_) =>
    case DeleteRow =>
  }

  lemma DeleteEndsIff(s: State, r: RequestId, o: Outcome, status: Status)
    requires Typed(s) && r in s.requests
    requires var p := s.requests[r].phase; p.DeleteObject? || p.DeleteCommit?
    ensures StepRequest(s, r, o).requests[r].phase == Done(status) <==> Causes(s, r, o, status)
  {
    hide Header, Block, StepCreateRow, StepCreateObject, StepCreateReload, StepRead, StepWrite, StepWriteReload,
      StepHeal, StepIncrement, StepInsert, StepDeleteBegin, StepDeleteRow;
    match s.requests[r].phase
    case DeleteObject =>
    case DeleteCommit =>
  }

  /** A step ends a request with a status exactly when one of the causes of that status holds. */
  lemma StepEndsIff(s: State, r: RequestId, o: Outcome, status: Status)
    requires Typed(s) && r in s.requests && !s.requests[r].phase.Done?
    ensures StepRequest(s, r, o).requests[r].phase == Done(status) <==> Causes(s, r, o, status)
  {
    hide Causes, StepRequest;
    var p := s.requests[r].phase;
    if p.DeleteBegin? || p.DeleteRow? {
      DeleteStartEndsIff(s, r, o, status);
    } else if p.DeleteObject? || p.DeleteCommit? {
      DeleteEndsIff(s, r, o, status);
    } else if p.Read? || p.Write? {
      AppendEndsIff(s, r, o, status);
    } else if p.WriteReload? || p.Increment? || p.Insert? {
      CountEndsIff(s, r, o, status);
    } else {
      CreateEndsIff(s, r, o, status);
    }
  }

  /** The event ends the request with this status, and rightly so. */
  ghost predicate EndsRightly(s: State, e: Event, r: RequestId, status: Status) {
    && r in s.requests && !s.requests[r].phase.Done? && e.request == r
    && ((e.Step? && Causes(s, r, e.outcome, status)) || (e.Crash? && status == Crashed))
  }

  ghost predicate Ended(s: State, r: RequestId, status: Status) {
    r in s.requests && s.requests[r].phase == Done(status)
  }

  lemma EventEndsRightly(s: State, e: Event, r: RequestId, status: Status)
    requires Typed(s) && Ended(Apply(s, e), r, status)
    ensures Ended(s, r, status) || EndsRightly(s, e, r, status)
  {
    hide StepRequest, Causes;
    if e.request != r {
      OthersLeaveRequest(s, e, r);
    } else if r in s.requests && s.requests[r].phase.Done? {
      DoneIsFinal(s, e, r);
    } else if e.Step? && r in s.requests {
      StepEndsIff(s, r, e.outcome, status);
    }
  }

  /** However requests overlap: every answer was given by one event, for a cause of that answer. */
  lemma {:induction false} AnswerHasItsCause(id: string, events: seq<Event>, n: nat, r: RequestId, status: Status)
    returns (k: nat)
    requires n <= |events| && Ended(At(id, events, n), r, status)
    ensures k < n && EndsRightly(At(id, events, k), events[k], r, status)
  {
    hide Run, Apply, Ended, EndsRightly;
    if n == 0 {
      assert events[..0] == [];
      NothingEnded(id, r, status);
      assert false;
    }
    AtNext(id, events, n - 1);
    EventEndsRightly(At(id, events, n - 1), events[n - 1], r, status);
    if Ended(At(id, events, n - 1), r, status) {
      k := AnswerHasItsCause(id, events, n - 1, r, status);
    } else {
      k := n - 1;
    }
  }

  lemma NothingEnded(id: string, r: RequestId, status: Status)
    ensures !Ended(Run(id, []), r, status)
  {}
}
