/**
 The database side of deletion-free runs: the counter and the per-turn table
 against the blocks of the object, under any database failures.
 */
module ConversationTurns {
  import opened Wrappers
  import opened ConversationLog
  import opened ConversationSafety

  predicate IsDeletePhase(p: Phase) {
    p.DeleteBegin? || p.DeleteRow? || p.DeleteObject? || p.DeleteCommit?
  }

  /** Phases in which the request cannot have incremented the counter yet. */
  predicate BeforeIncrement(p: Phase) {
    !p.Insert? && !p.Done?
  }

  ghost predicate IsAuthor(turns: seq<Turn>, r: RequestId) {
    exists i :: 0 <= i < |turns| && turns[i].author == r
  }

  ghost predicate TurnRequestInv(s: State, r: RequestId, q: Request) {
    && !IsDeletePhase(q.phase)
    && (q.wrote ==> r in s.committed)
    && (BeforeIncrement(q.phase) ==> r !in s.increments)
    && (q.phase.Insert? ==> 0 < q.phase.count <= |s.increments| && s.increments[q.phase.count - 1] == r)
    && (!q.phase.Done? ==> !IsAuthor(s.turns, r))
  }

  /** Turn by turn: its ordinal is the position of its author among the increments. */
  ghost predicate TableInv(s: State) {
    && (s.row.None? ==> s.increments == [] && s.turns == [])
    && (s.row.Some? ==> s.row.value.count == |s.increments|)
    && Distinct(s.increments)
    && (forall i :: 0 <= i < |s.increments| ==> s.increments[i] in s.requests && s.requests[s.increments[i]].wrote)
    && (forall i :: 0 <= i < |s.turns| ==>
          var t := s.turns[i];
          && t.ordinal < |s.increments| && s.increments[t.ordinal] == t.author
          && t.author in s.messages && t.role == s.messages[t.author].role && t.content == s.messages[t.author].content)
    && (forall i, j :: 0 <= i < j < |s.turns| ==> s.turns[i].author != s.turns[j].author)
  }

  ghost predicate TurnInv(s: State) {
    && Inv(s)
    && s.lock.None?
    && TableInv(s)
    && (forall r :: r in s.requests ==> TurnRequestInv(s, r, s.requests[r]))
  }

  /** Steps on the object store: the table facts only need `wrote` to match `committed`. */
  lemma StoreStepKeepsTurns(s: State, t: State, r: RequestId)
    requires TurnInv(s) && Inv(t) && OnlyTouches(s, t, r) && SameTables(s, t)
    requires s.requests[r].wrote ==> t.requests[r].wrote
    requires s.committed <= t.committed
    requires TurnRequestInv(t, r, t.requests[r])
    ensures TurnInv(t)
  {
    forall x | x in t.requests && x != r ensures TurnRequestInv(t, x, t.requests[x]) {
      assert TurnRequestInv(s, x, s.requests[x]);
    }
  }

  lemma InsertRowKeepsTurns(s: State, t: State, r: RequestId, m: Message)
    requires TurnInv(s) && Inv(t) && OnlyTouches(s, t, r) && LeavesStore(s, t, r)
    requires SameTables(InsertRow(s, m), t)
    requires TurnRequestInv(t, r, t.requests[r])
    ensures TurnInv(t)
  {
    hide ObjectInv, AppendInv, Header, Block;
    forall x | x in t.requests && x != r ensures TurnRequestInv(t, x, t.requests[x]) {
      assert TurnRequestInv(s, x, s.requests[x]);
    }
  }

  lemma IncrementKeepsTurns(s: State, t: State, r: RequestId)
    requires TurnInv(s) && Inv(t) && OnlyTouches(s, t, r) && LeavesStore(s, t, r)
    requires s.row.Some? && SameTables(IncrementCount(s, r), t)
    requires s.requests[r].phase.Increment?
    requires TurnRequestInv(t, r, t.requests[r])
    ensures TurnInv(t)
  {
    assert TurnRequestInv(s, r, s.requests[r]) && RequestInv(s, r, s.requests[r]);
    forall x | x in t.requests && x != r ensures TurnRequestInv(t, x, t.requests[x]) {
      assert TurnRequestInv(s, x, s.requests[x]);
    }
  }

  /** The unique constraint on the ordinal never stands in the way. */
  lemma OrdinalIsFree(s: State, r: RequestId)
    requires TurnInv(s) && r in s.requests && s.requests[r].phase.Insert?
    ensures s.row.Some? && !HasOrdinal(s.turns, s.requests[r].phase.count - 1)
  {
    assert TurnRequestInv(s, r, s.requests[r]);
  }

  lemma InsertTurnKeepsTurns(s: State, t: State, r: RequestId)
    requires TurnInv(s) && Inv(t) && OnlyTouches(s, t, r) && LeavesStore(s, t, r) && r in s.messages
    requires s.requests[r].phase.Insert? && 0 < s.requests[r].phase.count
    requires SameTables(InsertTurn(s, r, s.requests[r].phase.count - 1), t)
    requires t.requests[r].phase.Done?
    ensures TurnInv(t)
  {
    hide ObjectInv, AppendInv, Header, Block;
    assert TurnRequestInv(s, r, s.requests[r]);
    OrdinalIsFree(s, r);
    forall x | x in t.requests && x != r ensures TurnRequestInv(t, x, t.requests[x]) {
      assert TurnRequestInv(s, x, s.requests[x]);
    }
  }

  lemma StepIncrementKeepsTurns(s: State, r: RequestId, o: Outcome)
    requires TurnInv(s) && r in s.requests && s.requests[r].phase.Increment?
    requires Inv(StepRequest(s, r, o))
    ensures TurnInv(StepRequest(s, r, o))
  {
    hide ObjectInv, AppendInv, Header, Block, StepCreateRow, StepCreateObject, StepCreateReload, StepRead, StepWrite, StepWriteReload, StepHeal, StepInsert, StepDeleteBegin, StepDeleteRow, StepDeleteObject, StepDeleteCommit;
    assert TurnRequestInv(s, r, s.requests[r]) && RequestInv(s, r, s.requests[r]);
    var t := StepIncrement(s, r, o);
    if s.row.Some? && (o.Ok? || o == Fail(true)) {
      IncrementKeepsTurns(s, t, r);
    } else {
      StoreStepKeepsTurns(s, t, r);
    }
  }

  lemma StepInsertKeepsTurns(s: State, r: RequestId, o: Outcome)
    requires TurnInv(s) && r in s.requests && s.requests[r].phase.Insert?
    requires Inv(StepRequest(s, r, o))
    ensures TurnInv(StepRequest(s, r, o))
  {
    hide ObjectInv, AppendInv, Header, Block, StepCreateRow, StepCreateObject, StepCreateReload, StepRead, StepWrite, StepWriteReload, StepHeal, StepIncrement, StepDeleteBegin, StepDeleteRow, StepDeleteObject, StepDeleteCommit;
    assert TurnRequestInv(s, r, s.requests[r]);
    var t := StepInsert(s, r, o);
    if o.Ok? || o == Fail(true) {
      InsertTurnKeepsTurns(s, t, r);
    } else {
      StoreStepKeepsTurns(s, t, r);
    }
  }

  lemma StepCreateRowKeepsTurns(s: State, r: RequestId, o: Outcome)
    requires TurnInv(s) && r in s.requests && s.requests[r].phase.CreateRow?
    requires Inv(StepRequest(s, r, o))
    ensures TurnInv(StepRequest(s, r, o))
  {
    hide ObjectInv, AppendInv, Header, Block, StepCreateObject, StepCreateReload, StepRead, StepWrite, StepWriteReload, StepHeal, StepIncrement, StepInsert, StepDeleteBegin, StepDeleteRow, StepDeleteObject, StepDeleteCommit;
    assert TurnRequestInv(s, r, s.requests[r]);
    var t := StepCreateRow(s, r, o);
    if o.Ok? || o == Fail(true) {
      InsertRowKeepsTurns(s, t, r, s.messages[r]);
    } else {
      StoreStepKeepsTurns(s, t, r);
    }
  }

  /** A header is only ever uploaded onto an absent object, so nothing committed is lost. */
  lemma StepHeaderKeepsTurns(s: State, r: RequestId, o: Outcome)
    requires TurnInv(s) && r in s.requests && (s.requests[r].phase.CreateObject? || s.requests[r].phase.Heal?)
    requires Inv(StepRequest(s, r, o))
    ensures TurnInv(StepRequest(s, r, o))
  {
    hide AppendInv, Header, Block, StepCreateRow, StepCreateObject, StepCreateReload, StepRead, StepWrite, StepWriteReload, StepHeal, StepIncrement, StepInsert, StepDeleteBegin, StepDeleteRow, StepDeleteObject, StepDeleteCommit;
    assert TurnRequestInv(s, r, s.requests[r]);
    StoreStepKeepsTurns(s, StepRequest(s, r, o), r);
  }

  lemma StepWriteKeepsTurns(s: State, r: RequestId, o: Outcome)
    requires TurnInv(s) && r in s.requests && s.requests[r].phase.Write?
    requires Inv(StepRequest(s, r, o))
    ensures TurnInv(StepRequest(s, r, o))
  {
    hide ObjectInv, AppendInv, Header, Block, StepCreateRow, StepCreateObject, StepCreateReload, StepRead, StepWrite, StepWriteReload, StepHeal, StepIncrement, StepInsert, StepDeleteBegin, StepDeleteRow, StepDeleteObject, StepDeleteCommit;
    assert TurnRequestInv(s, r, s.requests[r]);
    StoreStepKeepsTurns(s, StepWrite(s, r, o), r);
  }

  lemma StepReadKeepsTurns(s: State, r: RequestId, o: Outcome)
    requires TurnInv(s) && r in s.requests
    requires var p := s.requests[r].phase; p.CreateReload? || p.HealReload? || p.WriteReload? || p.Read?
    requires Inv(StepRequest(s, r, o))
    ensures TurnInv(StepRequest(s, r, o))
  {
    hide ObjectInv, AppendInv, Header, Block, StepCreateRow, StepCreateObject, StepWrite, StepHeal, StepIncrement, StepInsert, StepDeleteBegin, StepDeleteRow, StepDeleteObject, StepDeleteCommit;
    assert TurnRequestInv(s, r, s.requests[r]);
    StoreStepKeepsTurns(s, StepRequest(s, r, o), r);
  }

  lemma StepKeepsTurns(s: State, r: RequestId, o: Outcome)
    requires TurnInv(s) && r in s.requests
    ensures TurnInv(StepRequest(s, r, o))
  {
    hide ObjectInv, AppendInv, Header, Block, StepCreateRow, StepCreateObject, StepCreateReload, StepRead, StepWrite, StepWriteReload, StepHeal, StepIncrement, StepInsert, StepDeleteBegin, StepDeleteRow, StepDeleteObject, StepDeleteCommit;
    StepKeepsInv(s, r, o);
    assert TurnRequestInv(s, r, s.requests[r]);
    match s.requests[r].phase
    case CreateRow => StepCreateRowKeepsTurns(s, r, o);
    case CreateObject => StepHeaderKeepsTurns(s, r, o);
    case CreateReload => StepReadKeepsTurns(s, r, o);
    case Read(_) => StepReadKeepsTurns(s, r, o);
    case Write(_, _, _) => StepWriteKeepsTurns(s, r, o);
    case WriteReload => StepReadKeepsTurns(s, r, o);
    case Heal => StepHeaderKeepsTurns(s, r, o);
    case HealReload => StepReadKeepsTurns(s, r, o);
    case Increment(_) => StepIncrementKeepsTurns(s, r, o);
    case Insert(_, _) => StepInsertKeepsTurns(s, r, o);
    case Done(_) =>
  }

  lemma ApplyKeepsTurns(s: State, e: Event)
    requires TurnInv(s) && !e.StartDelete?
    ensures TurnInv(Apply(s, e))
  {
    hide ObjectInv, AppendInv, Header, Block, StepRequest, StepCreateRow, StepCreateObject, StepCreateReload, StepRead, StepWrite, StepWriteReload, StepHeal, StepIncrement, StepInsert, StepDeleteBegin, StepDeleteRow, StepDeleteObject, StepDeleteCommit;
    ApplyKeepsInv(s, e);
    var r, t := e.request, Apply(s, e);
    match e
    case Step(_, o) =>
      if r in s.requests { StepKeepsTurns(s, r, o); }
    case Crash(_) =>
      if r in s.requests && !s.requests[r].phase.Done? {
        assert TurnRequestInv(s, r, s.requests[r]);
        StoreStepKeepsTurns(s, t, r);
      }
    case StartPost(_, m) =>
      forall x | x in s.requests ensures TurnRequestInv(t, x, t.requests[x]) {
        assert TurnRequestInv(s, x, s.requests[x]);
      }
  }

  lemma {:induction false} RunKeepsTurns(id: string, events: seq<Event>)
    requires DeletionFree(events)
    ensures TurnInv(Run(id, events))
  {
    if events != [] {
      RunKeepsTurns(id, events[..|events| - 1]);
      ApplyKeepsTurns(Run(id, events[..|events| - 1]), events[|events| - 1]);
    }
  }

  /******* Consequences *******/

  ghost function Elements(xs: seq<RequestId>): set<RequestId> {
    set x | x in xs
  }

  lemma SubsetIsNoLonger(xs: seq<RequestId>, ys: seq<RequestId>)
    requires Distinct(xs) && forall x :: x in xs ==> x in ys
    ensures |xs| <= |ys|
  {
    ElementsSize(xs);
    ElementsSize(ys);
    SubsetSize(Elements(xs), Elements(ys));
  }

  lemma {:induction false} ElementsSize(xs: seq<RequestId>)
    ensures |Elements(xs)| <= |xs|
    ensures Distinct(xs) ==> |Elements(xs)| == |xs|
  {
    if xs != [] {
      ElementsSize(xs[1..]);
      assert Elements(xs) == Elements(xs[1..]) + {xs[0]};
    }
  }

  lemma SubsetSize(a: set<RequestId>, b: set<RequestId>)
    requires a <= b
    ensures |a| <= |b|
  {
    assert b == a + (b - a);
  }

  /** Every 201 put exactly one block into the object, and it stays there. */
  lemma CreatedMeansExactlyOneBlock(id: string, events: seq<Event>, r: RequestId)
    requires DeletionFree(events) && r in Run(id, events).requests
    requires Run(id, events).requests[r].phase.Done? && Run(id, events).requests[r].phase.status.Created?
    ensures multiset(Run(id, events).committed)[r] == 1
  {
    RunKeepsTurns(id, events);
    var s := Run(id, events);
    assert RequestInv(s, r, s.requests[r]) && TurnRequestInv(s, r, s.requests[r]);
    DistinctCountsOnce(s.committed, r);
  }

  /** Ordinals are distinct and below the counter; turns <= message_count <= committed blocks. */
  lemma TurnsWithinCountWithinBlocks(id: string, events: seq<Event>)
    requires DeletionFree(events)
    ensures var s := Run(id, events);
            var count := if s.row.Some? then s.row.value.count else 0;
            && (forall i, j :: 0 <= i < j < |s.turns| ==> s.turns[i].ordinal != s.turns[j].ordinal)
            && (forall i :: 0 <= i < |s.turns| ==> s.turns[i].ordinal < count)
            && |s.turns| <= count <= |s.committed|
  {
    RunKeepsTurns(id, events);
    var s := Run(id, events);
    SubsetIsNoLonger(s.increments, s.committed);
    var authors := seq(|s.turns|, i requires 0 <= i < |s.turns| => s.turns[i].author);
    assert forall x :: x in authors ==> x in s.increments;
    SubsetIsNoLonger(authors, s.increments);
  }

  /** In deletion-free runs the insert of a turn is never refused: row and ordinal are always there for it. */
  lemma InsertAlwaysLands(id: string, events: seq<Event>, r: RequestId, o: Outcome)
    requires DeletionFree(events) && r in Run(id, events).requests && (o.Ok? || o == Fail(true))
    requires Run(id, events).requests[r].phase.Insert?
    ensures var s, t := Run(id, events), Apply(Run(id, events), Step(r, o));
            && r in s.messages && s.requests[r].phase.count > 0
            && t.turns == s.turns + [Turn(s.requests[r].phase.count - 1, s.messages[r].role, s.messages[r].content, r)]
  {
    hide Run, ObjectInv, AppendInv;
    RunKeepsTurns(id, events);
    var s := Run(id, events);
    assert TurnRequestInv(s, r, s.requests[r]);
    OrdinalIsFree(s, r);
  }
}
