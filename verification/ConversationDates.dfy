/**
 Dates in deletion-free runs: the header carries the row's creation time, and the
 timestamp check keeps every block from being dated before it.
 */
module ConversationDates {
  import opened Wrappers
  import opened ConversationLog
  import opened ConversationSafety
  import opened ConversationTurns

  /** Past the check of its timestamp. */
  predicate PastCheck(q: Request) {
    q.wrote || (IsPostPhase(q.phase) && !q.phase.CreateRow?)
  }

  /** A request past the check read the row's creation time and is not dated before it. */
  ghost predicate RequestDates(s: State, r: RequestId, q: Request) {
    PastCheck(q) ==>
      && s.row.Some? && r in s.messages
      && s.messages[r].sent.at >= s.row.value.created.at
      && q.created == s.row.value.created
  }

  ghost predicate HeaderDate(s: State) {
    s.blob.Some? ==> s.row.Some? && s.origin.created == s.row.value.created
  }

  ghost predicate DateInv(s: State) {
    HeaderDate(s) && forall r :: r in s.requests ==> RequestDates(s, r, s.requests[r])
  }

  /** A row that is there keeps its creation time. */
  ghost predicate KeepsCreation(s: State, t: State) {
    s.row.Some? ==> t.row.Some? && t.row.value.created == s.row.value.created
  }

  lemma StepDates(s: State, t: State, r: RequestId)
    requires DateInv(s) && OnlyTouches(s, t, r) && KeepsCreation(s, t)
    requires HeaderDate(t) && RequestDates(t, r, t.requests[r])
    ensures DateInv(t)
  {
    forall x | x in t.requests && x != r ensures RequestDates(t, x, t.requests[x]) {
      assert RequestDates(s, x, s.requests[x]);
    }
  }

  lemma CreateRowDates(s: State, r: RequestId, o: Outcome)
    requires DateInv(s) && r in s.requests && r in s.messages && s.requests[r].phase.CreateRow? && !s.requests[r].wrote
    ensures DateInv(StepCreateRow(s, r, o))
  {
    StepDates(s, StepCreateRow(s, r, o), r);
  }

  lemma HeaderDates(s: State, r: RequestId, o: Outcome)
    requires DateInv(s) && r in s.requests && r in s.messages
    requires s.requests[r].phase.CreateObject? || s.requests[r].phase.Heal?
    ensures DateInv(StepCreateObject(s, r, o)) && DateInv(StepHeal(s, r, o))
  {
    hide Header;
    assert RequestDates(s, r, s.requests[r]);
    StepDates(s, StepCreateObject(s, r, o), r);
    StepDates(s, StepHeal(s, r, o), r);
  }

  lemma AppendDates(s: State, r: RequestId, o: Outcome)
    requires DateInv(s) && r in s.requests && r in s.messages
    ensures s.requests[r].phase.CreateReload? || s.requests[r].phase.HealReload? ==> DateInv(StepCreateReload(s, r, o))
    ensures s.requests[r].phase.Read? ==> DateInv(StepRead(s, r, o))
    ensures s.requests[r].phase.WriteReload? ==> DateInv(StepWriteReload(s, r, o))
  {
    assert RequestDates(s, r, s.requests[r]);
    match s.requests[r].phase
    case CreateReload => StepDates(s, StepCreateReload(s, r, o), r);
    case HealReload => StepDates(s, StepCreateReload(s, r, o), r);
    case Read(_) => StepDates(s, StepRead(s, r, o), r);
    case WriteReload => StepDates(s, StepWriteReload(s, r, o), r);
    case _ =>
  }

  lemma WriteDates(s: State, r: RequestId, o: Outcome)
    requires DateInv(s) && r in s.requests && r in s.messages && s.requests[r].phase.Write?
    ensures DateInv(StepWrite(s, r, o))
  {
    hide Block;
    assert RequestDates(s, r, s.requests[r]);
    StepDates(s, StepWrite(s, r, o), r);
  }

  lemma CountDates(s: State, r: RequestId, o: Outcome)
    requires DateInv(s) && r in s.requests && r in s.messages
    ensures s.requests[r].phase.Increment? ==> DateInv(StepIncrement(s, r, o))
    ensures s.requests[r].phase.Insert? ==> DateInv(StepInsert(s, r, o))
  {
    assert RequestDates(s, r, s.requests[r]);
    if s.requests[r].phase.Increment? {
      StepDates(s, StepIncrement(s, r, o), r);
    } else if s.requests[r].phase.Insert? {
      StepDates(s, StepInsert(s, r, o), r);
    }
  }

  lemma RequestKeepsDates(s: State, r: RequestId, o: Outcome)
    requires TurnInv(s) && DateInv(s) && r in s.requests
    ensures DateInv(StepRequest(s, r, o))
  {
    hide DateInv, ObjectInv, AppendInv, Header, Block, StepCreateRow, StepCreateObject, StepCreateReload, StepRead,
      StepWrite, StepWriteReload, StepHeal, StepIncrement, StepInsert;
    assert TurnRequestInv(s, r, s.requests[r]) && RequestInv(s, r, s.requests[r]);
    match s.requests[r].phase
    case CreateRow => CreateRowDates(s, r, o);
    case CreateObject => HeaderDates(s, r, o);
    case CreateReload => AppendDates(s, r, o);
    case Read(_) => AppendDates(s, r, o);
    case Write(_, _, _) => WriteDates(s, r, o);
    case WriteReload => AppendDates(s, r, o);
    case Heal => HeaderDates(s, r, o);
    case HealReload => AppendDates(s, r, o);
    case Increment(_) => CountDates(s, r, o);
    case Insert(_, _) => CountDates(s, r, o);
    case Done(_) =>
  }

  lemma ApplyKeepsDates(s: State, e: Event)
    requires TurnInv(s) && DateInv(s) && !e.StartDelete?
    ensures DateInv(Apply(s, e))
  {
    hide ObjectInv, AppendInv, Header, Block, StepCreateRow, StepCreateObject, StepCreateReload, StepRead,
      StepWrite, StepWriteReload, StepHeal, StepIncrement, StepInsert;
    var r, t := e.request, Apply(s, e);
    match e
    case Step(_, o) =>
      if r in s.requests { RequestKeepsDates(s, r, o); }
    case Crash(_) =>
      if r in s.requests && !s.requests[r].phase.Done? {
        assert RequestDates(s, r, s.requests[r]);
        StepDates(s, t, r);
      }
    case StartPost(_, m) =>
      forall x | x in t.requests ensures RequestDates(t, x, t.requests[x]) {
        assert x in s.requests ==> RequestDates(s, x, s.requests[x]);
      }
  }

  lemma {:induction false} RunKeepsDates(id: string, events: seq<Event>)
    requires DeletionFree(events)
    ensures DateInv(Run(id, events))
  {
    hide DateInv, TurnInv, Apply;
    if events == [] {
      assert DateInv(Initial(id)) by { InitialDates(id); }
    } else {
      var before := events[..|events| - 1];
      RunKeepsTurns(id, before);
      RunKeepsDates(id, before);
      ApplyKeepsDates(Run(id, before), events[|events| - 1]);
    }
  }

  lemma InitialDates(id: string)
    ensures DateInv(Initial(id))
  {}

  /** In deletion-free runs the header is dated as the row, and no block is dated before it. */
  lemma BlocksFollowHeaderDate(id: string, events: seq<Event>, i: nat)
    requires DeletionFree(events) && i < |Run(id, events).committed|
    ensures var s := Run(id, events);
            && s.row.Some? && s.blob.Some? && s.committed[i] in s.messages
            && s.origin.created == s.row.value.created
            && s.messages[s.committed[i]].sent.at >= s.origin.created.at
  {
    hide Run, Header, Block, Blocks;
    RunKeepsTurns(id, events);
    RunKeepsDates(id, events);
    var s := Run(id, events);
    var r := s.committed[i];
    assert r in s.requests && s.requests[r].wrote;
    assert RequestDates(s, r, s.requests[r]);
  }
}
