/**
 What a 201 says, over all runs, and that a POST which meets no failure gets one.
 */
module ConversationAnswers {
  import opened Wrappers
  import opened ConversationLog
  import opened ConversationSafety
  import opened ConversationSerial
  import opened ConversationOverlap
  import opened ConversationOwners

  /******* Count and generation of a 201 *******/

  ghost predicate InPhase(s: State, r: RequestId, p: Phase) {
    r in s.requests && s.requests[r].phase == p
  }

  ghost predicate StepsOf(e: Event, r: RequestId) {
    e.Step? && e.request == r
  }

  /** Phases after the reload, with the generation they carry. */
  predicate Carries(p: Phase, generation: nat) {
    || p == Increment(generation)
    || (p.Insert? && p.generation == generation)
    || (p.Done? && p.status.Created? && p.status.generation == generation)
  }

  /** Phases after the increment, with the count they carry. */
  predicate Counts(p: Phase, count: int) {
    (p.Insert? && p.count == count) || (p.Done? && p.status.Created? && p.status.count == count)
  }

  /** The reload of the object reads its generation. */
  ghost predicate ReloadSees(s: State, e: Event, r: RequestId, generation: nat) {
    && StepsOf(e, r) && e.outcome.Ok? && InPhase(s, r, WriteReload)
    && s.blob.Some? && s.blob.value.generation == generation
  }

  /** The increment returns the new count, or fails and leaves -1. */
  ghost predicate IncrementGives(s: State, e: Event, t: State, r: RequestId, count: int) {
    && StepsOf(e, r) && r in s.requests && s.requests[r].phase.Increment?
    && if e.outcome.Ok?
       then s.row.Some? && t.row == Some(s.row.value.(count := s.row.value.count + 1)) && count == t.row.value.count
       else count == -1
  }

  lemma EarlyPostTells(s: State, r: RequestId, o: Outcome)
    requires Typed(s) && r in s.requests
    requires var p := s.requests[r].phase;
             p.CreateRow? || p.CreateObject? || p.CreateReload? || p.Read? || p.Heal? || p.HealReload? || p.Write?
    ensures var p := StepRequest(s, r, o).requests[r].phase; !p.Increment? && !p.Insert? && !(p.Done? && p.status.Created?)
  {
    hide Header, Block, StepWriteReload, StepIncrement, StepInsert, StepDeleteBegin, StepDeleteRow, StepDeleteObject,
      StepDeleteCommit;
    match s.requests[r].phase
    case CreateRow =>
    case CreateObject =>
    case CreateReload =>
    case Read(_) =>
    case Heal =>
    case HealReload =>
    case Write(_, _, _) =>
  }

  lemma LateStepTells(s: State, r: RequestId, o: Outcome, generation: nat, count: int)
    requires Typed(s) && r in s.requests
    requires var p := s.requests[r].phase; p.WriteReload? || p.Increment? || p.Insert?
    ensures var t := StepRequest(s, r, o);
            && (Carries(t.requests[r].phase, generation) ==>
                  Carries(s.requests[r].phase, generation) || ReloadSees(s, Step(r, o), r, generation))
            && (Counts(t.requests[r].phase, count) ==>
                  Counts(s.requests[r].phase, count) || IncrementGives(s, Step(r, o), t, r, count))
  {
    hide StepCreateRow, StepCreateObject, StepCreateReload, StepRead, StepWrite, StepHeal, StepDeleteBegin,
      StepDeleteRow, StepDeleteObject, StepDeleteCommit;
    match s.requests[r].phase
    case WriteReload =>
    case Increment(_) =>
    case Insert(_, _) =>
  }

  lemma DeleteStepTells(s: State, r: RequestId, o: Outcome, generation: nat, count: int)
    requires Typed(s) && r in s.requests && !IsPostPhase(s.requests[r].phase)
    ensures var p := StepRequest(s, r, o).requests[r].phase;
            && (Carries(p, generation) ==> Carries(s.requests[r].phase, generation))
            && (Counts(p, count) ==> Counts(s.requests[r].phase, count))
  {
    hide StepCreateRow, StepCreateObject, StepCreateReload, StepRead, StepWrite, StepWriteReload, StepHeal,
      StepIncrement, StepInsert;
    match s.requests[r].phase
    case DeleteBegin(_) =>
    case DeleteRow =>
    case DeleteObject =>
    case DeleteCommit =>
    case Done(_) =>
  }

  ghost predicate Answering(s: State, r: RequestId, generation: nat) {
    r in s.requests && Carries(s.requests[r].phase, generation)
  }

  ghost predicate Counted(s: State, r: RequestId, count: int) {
    r in s.requests && Counts(s.requests[r].phase, count)
  }

  lemma EventTellsAnswer(s: State, e: Event, r: RequestId, generation: nat, count: int)
    requires Typed(s)
    ensures Answering(Apply(s, e), r, generation) ==> Answering(s, r, generation) || ReloadSees(s, e, r, generation)
    ensures Counted(Apply(s, e), r, count) ==> Counted(s, r, count) || IncrementGives(s, e, Apply(s, e), r, count)
  {
    hide StepRequest;
    if e.request != r {
      OthersLeaveRequest(s, e, r);
    } else if e.Step? && r in s.requests {
      var p := s.requests[r].phase;
      if p.CreateRow? || p.CreateObject? || p.CreateReload? || p.Read? || p.Heal? || p.HealReload? || p.Write? {
        EarlyPostTells(s, r, e.outcome);
      } else if !IsPostPhase(p) {
        DeleteStepTells(s, r, e.outcome, generation, count);
      } else {
        LateStepTells(s, r, e.outcome, generation, count);
      }
    }
  }

  lemma {:induction false} GenerationWasSeen(id: string, events: seq<Event>, n: nat, r: RequestId, generation: nat)
    returns (g: nat)
    requires n <= |events| && Answering(At(id, events, n), r, generation)
    ensures g < n && ReloadSees(At(id, events, g), events[g], r, generation)
  {
    hide Run, Apply, Answering, ReloadSees;
    if n == 0 {
      assert events[..0] == [];
      InitialAnswersNothing(id, r, generation, 0);
      assert false;
    }
    AtNext(id, events, n - 1);
    EventTellsAnswer(At(id, events, n - 1), events[n - 1], r, generation, 0);
    if Answering(At(id, events, n - 1), r, generation) {
      g := GenerationWasSeen(id, events, n - 1, r, generation);
    } else {
      g := n - 1;
    }
  }

  lemma {:induction false} CountWasGiven(id: string, events: seq<Event>, n: nat, r: RequestId, count: int)
    returns (c: nat)
    requires n <= |events| && Counted(At(id, events, n), r, count)
    ensures c < n && IncrementGives(At(id, events, c), events[c], At(id, events, c + 1), r, count)
  {
    hide Run, Apply, Counted, IncrementGives;
    if n == 0 {
      assert events[..0] == [];
      InitialAnswersNothing(id, r, 0, count);
      assert false;
    }
    AtNext(id, events, n - 1);
    EventTellsAnswer(At(id, events, n - 1), events[n - 1], r, 0, count);
    if Counted(At(id, events, n - 1), r, count) {
      c := CountWasGiven(id, events, n - 1, r, count);
    } else {
      c := n - 1;
    }
  }

  lemma InitialAnswersNothing(id: string, r: RequestId, generation: nat, count: int)
    ensures !Answering(Run(id, []), r, generation) && !Counted(Run(id, []), r, count)
  {}

  /**
   However requests overlap: the generation in a 201 is the one its reload saw, and its
   count is the row's counter after its own increment, or -1 when that failed.
   */
  lemma CreatedTells(id: string, events: seq<Event>, n: nat, r: RequestId, generation: nat, count: int)
    returns (g: nat, c: nat)
    requires n <= |events| && InPhase(At(id, events, n), r, Done(Created(count, generation)))
    ensures g < n && ReloadSees(At(id, events, g), events[g], r, generation)
    ensures c < n && IncrementGives(At(id, events, c), events[c], At(id, events, c + 1), r, count)
  {
    hide Run;
    g := GenerationWasSeen(id, events, n, r, generation);
    c := CountWasGiven(id, events, n, r, count);
  }

  /******* Dates *******/

  /** The request has got past its first step. */
  ghost predicate Admitted(s: State, r: RequestId) {
    && r in s.requests && var p := s.requests[r].phase;
    (IsPostPhase(p) && !p.CreateRow?) || (p.Done? && (p.status.Created? || p.status.Contended?)) || s.requests[r].wrote
  }

  /** The first step finds the message dated neither before the conversation nor more than 300 s ahead of the clock. */
  ghost predicate Admits(s: State, e: Event, t: State, r: RequestId) {
    && StepsOf(e, r) && e.outcome.Ok? && InPhase(s, r, CreateRow) && r in s.messages && t.row.Some?
    && t.row.value.created.at <= s.messages[r].sent.at <= e.outcome.now + 300
  }

  lemma FirstStepAdmits(s: State, r: RequestId, o: Outcome)
    requires Typed(s) && InPhase(s, r, CreateRow)
    ensures var t := StepRequest(s, r, o); Admitted(t, r) ==> Admitted(s, r) || Admits(s, Step(r, o), t, r)
  {
    hide Header, Block;
  }

  lemma DeleteIsNotAdmitted(s: State, r: RequestId, o: Outcome)
    requires Typed(s) && r in s.requests && !IsPostPhase(s.requests[r].phase)
    ensures Admitted(StepRequest(s, r, o), r) ==> Admitted(s, r)
  {
    hide StepCreateRow, StepCreateObject, StepCreateReload, StepRead, StepWrite, StepWriteReload, StepHeal,
      StepIncrement, StepInsert;
    match s.requests[r].phase
    case DeleteBegin(_) =>
    case DeleteRow =>
    case DeleteObject =>
    case DeleteCommit =>
    case Done(_) =>
  }

  lemma BeforeAdmission(s: State, e: Event, r: RequestId)
    requires Typed(s) && Admitted(Apply(s, e), r)
    ensures Admitted(s, r) || Admits(s, e, Apply(s, e), r)
  {
    hide StepRequest;
    if e.request != r {
      OthersLeaveRequest(s, e, r);
    } else if e.Step? && r in s.requests {
      if s.requests[r].phase.CreateRow? {
        FirstStepAdmits(s, r, e.outcome);
      } else if !IsPostPhase(s.requests[r].phase) {
        DeleteIsNotAdmitted(s, r, e.outcome);
      }
    }
  }

  /** However requests overlap: whoever gets past the first step, and so every 201, had a message dated in bounds. */
  lemma {:induction false} AdmittedWasTimely(id: string, events: seq<Event>, n: nat, r: RequestId) returns (k: nat)
    requires n <= |events| && Admitted(At(id, events, n), r)
    ensures k < n && Admits(At(id, events, k), events[k], At(id, events, k + 1), r)
  {
    hide Run, Apply, Admitted, Admits;
    if n == 0 {
      assert events[..0] == [];
      InitialAdmitsNothing(id, r);
      assert false;
    }
    AtNext(id, events, n - 1);
    BeforeAdmission(At(id, events, n - 1), events[n - 1], r);
    if Admitted(At(id, events, n - 1), r) {
      k := AdmittedWasTimely(id, events, n - 1, r);
    } else {
      k := n - 1;
    }
  }

  lemma InitialAdmitsNothing(id: string, r: RequestId)
    ensures !Admitted(Run(id, []), r)
  {}

  /******* Ordinals *******/

  ghost predicate DistinctOrdinals(turns: seq<Turn>) {
    forall i, j :: 0 <= i < j < |turns| ==> turns[i].ordinal != turns[j].ordinal
  }

  lemma StepKeepsOrdinals(s: State, r: RequestId, o: Outcome)
    requires Typed(s) && r in s.requests && DistinctOrdinals(s.turns)
    ensures DistinctOrdinals(StepRequest(s, r, o).turns)
  {
    hide Header, Block, StepCreateObject, StepCreateReload, StepRead, StepWrite, StepWriteReload, StepHeal;
    match s.requests[r].phase
    case CreateRow =>
    case Increment(_) =>
    case Insert(_, _) =>
    case DeleteBegin(_) =>
    case DeleteRow =>
    case DeleteObject =>
    case DeleteCommit =>
    case _ =>
  }

  /** However requests overlap: no two turns share an ordinal. */
  lemma {:induction false} OrdinalsStayDistinct(id: string, events: seq<Event>)
    ensures DistinctOrdinals(Run(id, events).turns)
  {
    hide DistinctOrdinals, StepRequest;
    if events == [] {
      NoTurns();
    } else {
      var n, e := |events| - 1, events[|events| - 1];
      OrdinalsStayDistinct(id, events[..n]);
      if e.Step? && e.request in Run(id, events[..n]).requests {
        StepKeepsOrdinals(Run(id, events[..n]), e.request, e.outcome);
      }
    }
  }

  lemma NoTurns()
    ensures DistinctOrdinals([])
  {}

  /******* A POST that meets no failure *******/

  /** Ordinals stay below the counter; a row that is gone has no turns. */
  ghost predicate TurnsBelow(s: State) {
    && (s.row.None? ==> s.turns == [])
    && (s.row.Some? ==> forall i :: 0 <= i < |s.turns| ==> s.turns[i].ordinal < s.row.value.count)
  }

  ghost predicate InsertBelow(s: State, r: RequestId) {
    r in s.requests && s.requests[r].phase.Insert? ==> s.row.Some? && s.requests[r].phase.count <= s.row.value.count
  }

  lemma StoreStepKeepsBelow(s: State, r: RequestId, o: Outcome)
    requires Typed(s) && r in s.requests && TurnsBelow(s)
    requires var p := s.requests[r].phase;
             p.CreateObject? || p.CreateReload? || p.Read? || p.Write? || p.WriteReload? || p.Heal? || p.HealReload?
    ensures TurnsBelow(StepRequest(s, r, o)) && InsertBelow(StepRequest(s, r, o), r)
  {
    hide Header, Block, StepCreateRow, StepIncrement, StepInsert, StepDeleteBegin, StepDeleteRow, StepDeleteObject,
      StepDeleteCommit;
    match s.requests[r].phase
    case CreateObject =>
    case CreateReload =>
    case Read(_) =>
    case Write(_, _, _) =>
    case WriteReload =>
    case Heal =>
    case HealReload =>
  }

  lemma PostKeepsBelow(s: State, r: RequestId, o: Outcome)
    requires Typed(s) && r in s.requests && IsPostPhase(s.requests[r].phase) && TurnsBelow(s) && InsertBelow(s, r)
    ensures TurnsBelow(StepRequest(s, r, o)) && InsertBelow(StepRequest(s, r, o), r)
  {
    hide Header, Block, StepCreateObject, StepCreateReload, StepRead, StepWrite, StepWriteReload, StepHeal,
      StepDeleteBegin, StepDeleteRow, StepDeleteObject, StepDeleteCommit;
    match s.requests[r].phase
    case CreateRow =>
    case Increment(_) =>
    case Insert(_, _) =>
    case _ => StoreStepKeepsBelow(s, r, o);
  }

  lemma DeleteKeepsBelow(s: State, r: RequestId, o: Outcome)
    requires r in s.requests && !IsPostPhase(s.requests[r].phase) && TurnsBelow(s)
    ensures TurnsBelow(StepRequest(s, r, o)) && InsertBelow(StepRequest(s, r, o), r)
  {
    hide StepCreateRow, StepCreateObject, StepCreateReload, StepRead, StepWrite, StepWriteReload, StepHeal,
      StepIncrement, StepInsert;
    match s.requests[r].phase
    case DeleteBegin(_) =>
    case DeleteRow =>
    case DeleteObject =>
    case DeleteCommit =>
    case Done(_) =>
  }

  ghost predicate AllBelow(s: State) {
    TurnsBelow(s) && forall r :: r in s.requests ==> InsertBelow(s, r)
  }

  lemma EventKeepsBelow(s: State, e: Event)
    requires Typed(s) && SerialInv(s) && AllBelow(s)
    requires e.StartPost? || e.StartDelete? ==> Quiet(s)
    ensures AllBelow(Apply(s, e))
  {
    hide StepRequest, TurnsBelow, SerialRequestInv;
    var r, t := e.request, Apply(s, e);
    if e.Step? && r in s.requests && !s.requests[r].phase.Done? {
      assert InsertBelow(s, r);
      if IsPostPhase(s.requests[r].phase) {
        PostKeepsBelow(s, r, e.outcome);
      } else {
        DeleteKeepsBelow(s, r, e.outcome);
      }
      forall x | x in t.requests && x != r ensures InsertBelow(t, x) {
        assert t.requests[x] == s.requests[x] && s.requests[x].phase.Done?;
      }
    } else {
      QuietEventKeepsBelow(s, e);
    }
  }

  /** An event other than a step of a live request leaves rows and turns alone. */
  lemma QuietEventKeepsBelow(s: State, e: Event)
    requires Typed(s) && AllBelow(s) && (e.Step? && e.request in s.requests ==> s.requests[e.request].phase.Done?)
    ensures AllBelow(Apply(s, e))
  {
    hide StepCreateRow, StepCreateObject, StepCreateReload, StepRead, StepWrite, StepWriteReload, StepHeal,
      StepIncrement, StepInsert, StepDeleteBegin, StepDeleteRow, StepDeleteObject, StepDeleteCommit;
    var t := Apply(s, e);
    forall x | x in t.requests ensures InsertBelow(t, x) {
      assert x in s.requests ==> InsertBelow(s, x);
    }
  }

  lemma {:induction false} RunKeepsBelow(id: string, events: seq<Event>)
    requires Serial(id, events)
    ensures AllBelow(Run(id, events))
  {
    hide AllBelow, SerialInv, Quiet;
    if events == [] {
      InitialBelow(id);
    } else {
      var n := |events| - 1;
      RunKeepsBelow(id, events[..n]);
      RunKeepsSerial(id, events[..n]);
      EventKeepsBelow(Run(id, events[..n]), events[n]);
    }
  }

  lemma InitialBelow(id: string)
    ensures AllBelow(Initial(id))
  {}

  /** A POST may start, and its message is dated neither before the conversation nor more than 300 s ahead. */
  ghost predicate Welcome(s: State, r: RequestId, m: Message, now: int) {
    && Quiet(s) && r !in s.requests && r !in s.messages
    && m.sent.at <= now + 300
    && (s.row.Some? ==> s.row.value.created.at <= m.sent.at)
  }

  /** What a successful POST adds: one block, one count, one turn, and it answers with them. */
  ghost predicate Adds(s: State, t: State, r: RequestId, m: Message, row: Row, text: string) {
    && t.blob.Some? && t.blob.value.text == text + Block(m)
    && t.row == Some(row.(count := row.count + 1))
    && t.turns == s.turns + [Turn(row.count, m.role, m.content, r)]
    && InPhase(t, r, Done(Created(row.count + 1, t.blob.value.generation)))
  }

  /** The run goes on with `n` steps of the request that all go well. */
  function Steps(r: RequestId, now: int, n: nat): seq<Event> {
    if n == 0 then [] else Steps(r, now, n - 1) + [Step(r, Ok(now))]
  }

  lemma StepOn(id: string, events: seq<Event>, r: RequestId, now: int, n: nat)
    requires n > 0
    ensures Run(id, events + Steps(r, now, n)) == Apply(Run(id, events + Steps(r, now, n - 1)), Step(r, Ok(now)))
  {
    hide Run;
    assert events + Steps(r, now, n) == events + Steps(r, now, n - 1) + [Step(r, Ok(now))];
    RunSnoc(id, events + Steps(r, now, n - 1), Step(r, Ok(now)));
  }

  /** From its first read on an object nobody else touches, five good steps end the POST. */
  lemma AppendPlays(id: string, events: seq<Event>, r: RequestId, now: int)
    requires var s := Run(id, events);
             && r in s.requests && r in s.messages && s.requests[r].phase.Read?
             && s.row.Some? && s.blob.Some? && s.lock.None? && !HasOrdinal(s.turns, s.row.value.count)
    ensures var s, t := Run(id, events), Run(id, events + Steps(r, now, 5));
            Adds(s, t, r, s.messages[r], s.row.value, s.blob.value.text)
  {
    hide Run, Apply, Block, HasOrdinal;
    assert events + Steps(r, now, 0) == events;
    StepOn(id, events, r, now, 1);
    StepOn(id, events, r, now, 2);
    WriteLands(Run(id, events), r, now);
    StepOn(id, events, r, now, 3);
    StepOn(id, events, r, now, 4);
    StepOn(id, events, r, now, 5);
    CountLands(Run(id, events + Steps(r, now, 2)), r, now);
  }

  /** One read and one write. */
  lemma WriteLands(s: State, r: RequestId, now: int)
    requires Typed(s) && r in s.requests && r in s.messages && s.requests[r].phase.Read? && s.blob.Some?
    ensures var t := Apply(Apply(s, Step(r, Ok(now))), Step(r, Ok(now)));
            && InPhase(t, r, WriteReload) && SameTables(s, t) && t.messages == s.messages
            && t.blob.Some? && t.blob.value.text == s.blob.value.text + Block(s.messages[r])
  {
    hide Block, Header;
    var u := Apply(s, Step(r, Ok(now)));
    assert u.requests[r].phase.Write? && u.requests[r].phase.seen == s.blob.value && u.blob == s.blob;
  }

  /** Reload and increment. */
  lemma CountGoesUp(s: State, r: RequestId, now: int)
    requires Typed(s) && r in s.messages && InPhase(s, r, WriteReload) && s.lock.None? && s.row.Some? && s.blob.Some?
    ensures var t := Apply(Apply(s, Step(r, Ok(now))), Step(r, Ok(now)));
            && InPhase(t, r, Insert(s.blob.value.generation, s.row.value.count + 1))
            && t.row == Some(s.row.value.(count := s.row.value.count + 1))
            && t.turns == s.turns && t.lock.None? && t.blob == s.blob && t.messages == s.messages
  {
    hide HasOrdinal;
    var u := Apply(s, Step(r, Ok(now)));
    assert u.requests[r].phase == Increment(s.blob.value.generation) && u.row == s.row && u.turns == s.turns;
  }

  lemma TurnLands(s: State, r: RequestId, now: int, generation: nat, count: nat)
    requires Typed(s) && r in s.messages && InPhase(s, r, Insert(generation, count)) && s.lock.None? && s.row.Some?
    requires count > 0 && !HasOrdinal(s.turns, count - 1)
    ensures var t := Apply(s, Step(r, Ok(now)));
            && t.blob == s.blob && t.row == s.row && InPhase(t, r, Done(Created(count, generation)))
            && t.turns == s.turns + [Turn(count - 1, s.messages[r].role, s.messages[r].content, r)]
  {
    hide HasOrdinal;
  }

  /** Reload, increment, insert. */
  lemma CountLands(s: State, r: RequestId, now: int)
    requires Typed(s) && r in s.messages && InPhase(s, r, WriteReload) && s.lock.None? && s.row.Some? && s.blob.Some?
    requires !HasOrdinal(s.turns, s.row.value.count)
    ensures var t := Apply(Apply(Apply(s, Step(r, Ok(now))), Step(r, Ok(now))), Step(r, Ok(now)));
            && t.blob == s.blob && t.row == Some(s.row.value.(count := s.row.value.count + 1))
            && t.turns == s.turns + [Turn(s.row.value.count, s.messages[r].role, s.messages[r].content, r)]
            && InPhase(t, r, Done(Created(s.row.value.count + 1, t.blob.value.generation)))
  {
    hide Apply, HasOrdinal, InPhase;
    ApplyTyped(s, Step(r, Ok(now)));
    ApplyTyped(Apply(s, Step(r, Ok(now))), Step(r, Ok(now)));
    CountGoesUp(s, r, now);
    var u := Apply(Apply(s, Step(r, Ok(now))), Step(r, Ok(now)));
    TurnLands(u, r, now, s.blob.value.generation, s.row.value.count + 1);
  }

  /** A further message: one step, then the append. */
  lemma ReachesRead(s: State, r: RequestId, m: Message, now: int)
    requires Typed(s) && SerialInv(s) && Welcome(s, r, m, now) && s.row.Some?
    ensures var t := Apply(Apply(s, StartPost(r, m)), Step(r, Ok(now)));
            && r in t.requests && t.requests[r].phase.Read? && r in t.messages && t.messages[r] == m
            && SameTables(s, t) && t.blob == s.blob && t.lock.None?
  {
    hide SerialRequestInv;
  }

  /** A first message: row, header and reload, then the append. */
  lemma ReachesFirstRead(s: State, r: RequestId, m: Message, now: int)
    requires Typed(s) && SerialInv(s) && Welcome(s, r, m, now) && s.row.None?
    ensures var t := Apply(Apply(Apply(Apply(s, StartPost(r, m)), Step(r, Ok(now))), Step(r, Ok(now))), Step(r, Ok(now)));
            && r in t.requests && t.requests[r].phase.Read? && r in t.messages && t.messages[r] == m
            && t.row == Some(Row(m.user, m.sent, 0)) && t.turns == s.turns && t.lock.None?
            && t.blob.Some? && t.blob.value.text == Header(s.id, Origin(m.sent, m.user))
  {
    hide SerialRequestInv, Header;
    var u := Apply(Apply(s, StartPost(r, m)), Step(r, Ok(now)));
    assert u.requests[r].phase == CreateObject && u.blob.None? && u.requests[r].created == m.sent;
  }

  lemma {:induction false} StepsAdd(r: RequestId, now: int, a: nat, b: nat)
    ensures Steps(r, now, a) + Steps(r, now, b) == Steps(r, now, a + b)
  {
    if b > 0 {
      StepsAdd(r, now, a, b - 1);
    }
  }

  /**
   After a serial run at rest, the first message of a conversation, if nothing fails,
   makes the row with its user as owner, the header, its block and turn 0, and answers
   201 with count 1.
   */
  lemma FirstPostSucceeds(id: string, events: seq<Event>, r: RequestId, m: Message, now: int)
    requires Serial(id, events) && Welcome(Run(id, events), r, m, now) && Run(id, events).row.None?
    ensures var s, t := Run(id, events), Run(id, events + [StartPost(r, m)] + Steps(r, now, 8));
            s.turns == [] && Adds(s, t, r, m, Row(m.user, m.sent, 0), Header(id, Origin(m.sent, m.user)))
  {
    hide Run, Apply, Serial, Welcome, SerialInv, Block, Header;
    var e := events + [StartPost(r, m)];
    RunKeepsSerial(id, events);
    RunKeepsBelow(id, events);
    RunKeepsId(id, events);
    RunSnoc(id, events, StartPost(r, m));
    assert e + Steps(r, now, 0) == e;
    StepOn(id, e, r, now, 1);
    StepOn(id, e, r, now, 2);
    StepOn(id, e, r, now, 3);
    ReachesFirstRead(Run(id, events), r, m, now);
    AppendPlays(id, e + Steps(r, now, 3), r, now);
    StepsAdd(r, now, 3, 5);
    assert e + Steps(r, now, 3) + Steps(r, now, 5) == e + Steps(r, now, 8);
  }

  /**
   After a serial run at rest, a further message, if nothing fails, adds its block, one
   to the counter and the next turn, and answers 201 with the new count.
   */
  lemma NextPostSucceeds(id: string, events: seq<Event>, r: RequestId, m: Message, now: int)
    requires Serial(id, events) && Welcome(Run(id, events), r, m, now)
    requires Run(id, events).row.Some? && Run(id, events).blob.Some?
    ensures var s, t := Run(id, events), Run(id, events + [StartPost(r, m)] + Steps(r, now, 6));
            Adds(s, t, r, m, s.row.value, s.blob.value.text)
  {
    hide Run, Apply, Serial, Welcome, SerialInv, Block;
    var e := events + [StartPost(r, m)];
    RunKeepsSerial(id, events);
    RunKeepsBelow(id, events);
    RunSnoc(id, events, StartPost(r, m));
    assert e + Steps(r, now, 0) == e;
    StepOn(id, e, r, now, 1);
    ReachesRead(Run(id, events), r, m, now);
    AppendPlays(id, e + Steps(r, now, 1), r, now);
    StepsAdd(r, now, 1, 5);
    assert e + Steps(r, now, 1) + Steps(r, now, 5) == e + Steps(r, now, 6);
  }

  /******* What the object says *******/

  lemma FirstSeparator(a: string, x: string, b: string, y: string, c: char)
    requires c !in a && c !in b && a + [c] + x == b + [c] + y
    ensures a == b && x == y
  {
    var s, t := a + [c] + x, b + [c] + y;
    assert s[|a|] == c && t[|b|] == c;
    assert forall i :: 0 <= i < |a| ==> s[i] == a[i] != c;
    assert forall i :: 0 <= i < |b| ==> t[i] == b[i] != c;
    assert |a| == |b|;
    assert s[..|a|] == a && t[..|b|] == b && s[|a| + 1..] == x && t[|b| + 1..] == y;
  }

  /** A block says when, who and what: equal blocks have equal time, role and content. */
  lemma BlockTells(m: Message, n: Message)
    requires ']' !in m.sent.iso && ']' !in n.sent.iso && '\n' !in m.role && '\n' !in n.role
    requires Block(m) == Block(n)
    ensures m.sent.iso == n.sent.iso && m.role == n.role && m.content == n.content
  {
    BlockShape(m);
    BlockShape(n);
    assert Block(m)[4..] == Block(n)[4..];
    FirstSeparator(m.sent.iso, BlockRest(m), n.sent.iso, BlockRest(n), ']');
    assert BlockRest(m)[1..] == BlockRest(n)[1..];
    FirstSeparator(m.role, m.content + "\n\n", n.role, n.content + "\n\n", '\n');
    assert (m.content + "\n\n")[..|m.content|] == m.content && (n.content + "\n\n")[..|n.content|] == n.content;
  }

  function BlockRest(m: Message): string {
    " " + (m.role + ['\n'] + (m.content + "\n\n"))
  }

  lemma BlockShape(m: Message)
    ensures |Block(m)| >= 4 && Block(m)[4..] == m.sent.iso + [']'] + BlockRest(m)
    ensures BlockRest(m)[1..] == m.role + ['\n'] + (m.content + "\n\n")
  {
    assert Block(m) == "## [" + (m.sent.iso + [']'] + BlockRest(m));
  }

  /** A header says which conversation, since when and whose. */
  lemma HeaderTells(id: string, o: Origin, other: string, p: Origin)
    requires '\n' !in id && '\n' !in other && '\n' !in o.created.iso && '\n' !in p.created.iso
    requires '\n' !in o.user && '\n' !in p.user && Header(id, o) == Header(other, p)
    ensures id == other && o.created.iso == p.created.iso && o.user == p.user
  {
    HeaderShape(id, o);
    HeaderShape(other, p);
    assert Header(id, o)[15..] == Header(other, p)[15..];
    FirstSeparator(id, DateRest(o), other, DateRest(p), '\n');
    assert DateRest(o)[10..] == DateRest(p)[10..];
    FirstSeparator(o.created.iso, UserRest(o), p.created.iso, UserRest(p), '\n');
    assert UserRest(o)[6..] == UserRest(p)[6..];
    FirstSeparator(o.user, "\n---\n", p.user, "\n---\n", '\n');
  }

  function DateRest(o: Origin): string {
    "\nCreated: " + (o.created.iso + ['\n'] + UserRest(o))
  }

  function UserRest(o: Origin): string {
    "User: " + (o.user + ['\n'] + "\n---\n")
  }

  lemma HeaderShape(id: string, o: Origin)
    ensures |Header(id, o)| >= 15 && Header(id, o)[15..] == id + ['\n'] + DateRest(o)
    ensures DateRest(o)[10..] == o.created.iso + ['\n'] + UserRest(o)
    ensures UserRest(o)[6..] == o.user + ['\n'] + "\n---\n"
  {
    assert Header(id, o) == "# Conversation " + (id + ['\n'] + DateRest(o));
  }
}
