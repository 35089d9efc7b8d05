/**
 Who may delete: over all runs, a DELETE that gets past its lookup was started by the
 owner of the row it found, and a stranger's DELETE touches nothing.
 */
module ConversationOwners {
  import opened Wrappers
  import opened ConversationLog
  import opened ConversationSafety
  import opened ConversationSerial
  import opened ConversationOverlap

  /** The state after the first `n` events. */
  ghost function At(id: string, events: seq<Event>, n: nat): (s: State)
    requires n <= |events|
    ensures Typed(s)
  {
    Run(id, events[..n])
  }

  lemma AtNext(id: string, events: seq<Event>, n: nat)
    requires n < |events|
    ensures At(id, events, n + 1) == Apply(At(id, events, n), events[n])
  {
    assert events[..n + 1] == events[..n] + [events[n]];
    RunSnoc(id, events[..n], events[n]);
  }

  ghost predicate SameContent(s: State, t: State) {
    t.row == s.row && t.turns == s.turns && t.blob == s.blob
  }

  ghost predicate SameRequest(s: State, t: State, r: RequestId) {
    (r in t.requests <==> r in s.requests) && (r in s.requests ==> t.requests[r] == s.requests[r])
  }

  lemma OthersLeaveRequest(s: State, e: Event, r: RequestId)
    requires Typed(s) && e.request != r
    ensures SameRequest(s, Apply(s, e), r)
  {
    hide StepRequest;
  }

  /******* The lookup *******/

  ghost predicate LooksUp(s: State, r: RequestId, caller: string) {
    r in s.requests && s.requests[r].phase == DeleteBegin(caller)
  }

  predicate Owns(s: State, caller: string) {
    s.row.Some? && s.row.value.owner == caller
  }

  /** The lookup changes nothing and passes exactly for the owner. */
  lemma LookupTells(s: State, r: RequestId, caller: string, o: Outcome)
    requires Typed(s) && LooksUp(s, r, caller)
    ensures var t := Apply(s, Step(r, o));
            && SameContent(s, t) && r in t.requests
            && (t.requests[r].phase == DeleteRow <==> o.Ok? && Owns(s, caller))
            && (t.requests[r].phase == Done(NotFound) <==> !o.Fail? && !Owns(s, caller))
            && (t.requests[r].phase == Done(Ticketed) <==> o.Refused? && Owns(s, caller))
            && (t.requests[r].phase == Done(Unavailable) <==> o.Fail?)
  {}

  /** No step leads back to the lookup. */
  lemma StepLeavesLookup(s: State, r: RequestId, o: Outcome)
    requires Typed(s) && r in s.requests
    ensures !StepRequest(s, r, o).requests[r].phase.DeleteBegin?
  {
    hide Header, Block, InsertRow, PutHeader, PutBlock, IncrementCount, InsertTurn, DropObject, CommitDelete;
    match s.requests[r].phase
    case CreateRow =>
    case CreateObject =>
    case CreateReload =>
    case Read(_) =>
    case Write(_, _, _) =>
    case WriteReload =>
    case Heal =>
    case HealReload =>
    case Increment(_) =>
    case Insert(_, _) =>
    case DeleteBegin(_) =>
    case DeleteRow =>
    case DeleteObject =>
    case DeleteCommit =>
    case Done(_) =>
  }

  lemma BeforeLookup(s: State, e: Event, r: RequestId, caller: string)
    requires Typed(s) && LooksUp(Apply(s, e), r, caller)
    ensures LooksUp(s, r, caller) || (r !in s.requests && e == StartDelete(r, caller))
    ensures e.request == r ==> SameContent(s, Apply(s, e))
  {
    hide StepRequest;
    if e.request != r {
      OthersLeaveRequest(s, e, r);
    } else if e.Step? && r in s.requests {
      StepLeavesLookup(s, r, e.outcome);
    }
  }

  /** A request at its lookup was started as a DELETE of its caller and has touched nothing since. */
  lemma {:induction false} LookupStarted(id: string, events: seq<Event>, n: nat, r: RequestId, caller: string)
    returns (i: nat)
    requires n <= |events| && LooksUp(At(id, events, n), r, caller)
    ensures i < n && events[i] == StartDelete(r, caller)
    ensures forall j :: 0 <= j < n && events[j].request == r ==> SameContent(At(id, events, j), At(id, events, j + 1))
  {
    hide Run, Apply;
    if n == 0 {
      assert events[..0] == [];
      InitialHasNoRequest(id);
      assert false;
    }
    var s := At(id, events, n - 1);
    AtNext(id, events, n - 1);
    BeforeLookup(s, events[n - 1], r, caller);
    if LooksUp(s, r, caller) {
      i := LookupStarted(id, events, n - 1, r, caller);
    } else {
      i := n - 1;
      UnknownTouchesNothing(id, events, n - 1, r);
    }
  }

  lemma RequestsStay(s: State, e: Event, r: RequestId)
    requires Typed(s) && r !in Apply(s, e).requests
    ensures r !in s.requests && (e.request == r ==> SameContent(s, Apply(s, e)))
  {
    hide StepRequest;
  }

  lemma {:induction false} UnknownTouchesNothing(id: string, events: seq<Event>, n: nat, r: RequestId)
    requires n <= |events| && r !in At(id, events, n).requests
    ensures forall j :: 0 <= j < n && events[j].request == r ==> SameContent(At(id, events, j), At(id, events, j + 1))
  {
    hide Run, Apply;
    if n > 0 {
      AtNext(id, events, n - 1);
      RequestsStay(At(id, events, n - 1), events[n - 1], r);
      UnknownTouchesNothing(id, events, n - 1, r);
    }
  }

  lemma InitialHasNoRequest(id: string)
    ensures Run(id, []).requests == map[]
  {}

  /******* A stranger's DELETE *******/

  lemma DoneIsFinal(s: State, e: Event, r: RequestId)
    requires Typed(s) && r in s.requests && s.requests[r].phase.Done?
    ensures SameRequest(s, Apply(s, e), r) && (e.request == r ==> Apply(s, e) == s)
  {
    hide StepCreateRow, StepCreateObject, StepCreateReload, StepRead, StepWrite, StepWriteReload, StepHeal,
      StepIncrement, StepInsert, StepDeleteBegin, StepDeleteRow, StepDeleteObject, StepDeleteCommit;
    if e.request != r {
      OthersLeaveRequest(s, e, r);
    }
  }

  lemma {:induction false} DoneStays(id: string, events: seq<Event>, k: nat, n: nat, r: RequestId)
    requires k <= n <= |events|
    requires r in At(id, events, k).requests && At(id, events, k).requests[r].phase.Done?
    ensures SameRequest(At(id, events, k), At(id, events, n), r)
    ensures forall j :: k <= j < n && events[j].request == r ==> At(id, events, j + 1) == At(id, events, j)
  {
    hide Run, Apply;
    if k < n {
      DoneStays(id, events, k, n - 1, r);
      AtNext(id, events, n - 1);
      DoneIsFinal(At(id, events, n - 1), events[n - 1], r);
    }
  }

  /**
   However requests overlap: a DELETE whose caller does not own the row when its lookup
   runs answers 404, or 503 if the lookup fails, and no event of that request, before or
   after, changes the row, the turns or the object.
   */
  lemma StrangerDeletesNothing(id: string, events: seq<Event>, k: nat, n: nat, r: RequestId, caller: string, o: Outcome)
    requires k < n <= |events| && events[k] == Step(r, o)
    requires LooksUp(At(id, events, k), r, caller) && !Owns(At(id, events, k), caller)
    ensures var t := At(id, events, n);
            r in t.requests && t.requests[r].phase == Done(if o.Fail? then Unavailable else NotFound)
    ensures forall j :: 0 <= j < n && events[j].request == r ==> SameContent(At(id, events, j), At(id, events, j + 1))
  {
    hide Run, Apply;
    var i := LookupStarted(id, events, k, r, caller);
    AtNext(id, events, k);
    LookupTells(At(id, events, k), r, caller, o);
    DoneStays(id, events, k + 1, n, r);
  }

  /******* A DELETE past its lookup *******/

  predicate IsPastLookup(p: Phase) {
    p.DeleteRow? || p.DeleteObject? || p.DeleteCommit? || p == Done(Deleted)
  }

  ghost predicate Passed(s: State, r: RequestId) {
    r in s.requests && IsPastLookup(s.requests[r].phase)
  }

  lemma FirstStepsNeverPass(s: State, r: RequestId, o: Outcome)
    requires Typed(s) && r in s.requests
    requires var p := s.requests[r].phase; p.CreateRow? || p.CreateObject? || p.CreateReload? || p.Heal? || p.HealReload?
    ensures !IsPastLookup(StepRequest(s, r, o).requests[r].phase)
  {
    hide Header, Block, StepRead, StepWrite, StepWriteReload, StepIncrement, StepInsert, StepDeleteBegin, StepDeleteRow,
      StepDeleteObject, StepDeleteCommit;
    match s.requests[r].phase
    case CreateRow =>
    case CreateObject =>
    case CreateReload =>
    case Heal =>
    case HealReload =>
  }

  lemma PostNeverPasses(s: State, r: RequestId, o: Outcome)
    requires Typed(s) && r in s.requests && IsPostPhase(s.requests[r].phase)
    ensures !IsPastLookup(StepRequest(s, r, o).requests[r].phase)
  {
    hide Header, Block, StepCreateRow, StepCreateObject, StepCreateReload, StepHeal, StepDeleteBegin, StepDeleteRow,
      StepDeleteObject, StepDeleteCommit;
    match s.requests[r].phase
    case Read(_) =>
    case Write(_, _, _) =>
    case WriteReload =>
    case Increment(_) =>
    case Insert(_, _) =>
    case _ => FirstStepsNeverPass(s, r, o);
  }

  /** Only the owner's lookup leads past the lookup. */
  lemma BeforePassing(s: State, e: Event, r: RequestId) returns (caller: string)
    requires Typed(s) && Passed(Apply(s, e), r)
    ensures Passed(s, r) || (LooksUp(s, r, caller) && Owns(s, caller) && e.Step? && e.request == r && e.outcome.Ok?)
  {
    hide StepRequest;
    caller := "";
    if e.request != r {
      OthersLeaveRequest(s, e, r);
    } else if e.Step? && r in s.requests && !Passed(s, r) {
      var p := s.requests[r].phase;
      if IsPostPhase(p) {
        PostNeverPasses(s, r, e.outcome);
      } else if p.DeleteBegin? {
        caller := p.caller;
        LookupTells(s, r, caller, e.outcome);
      } else {
        DoneIsFinal(s, e, r);
      }
    }
  }

  /** A DELETE past its lookup, and so every 204, was started by the owner of the row its lookup found. */
  lemma {:induction false} DeleterWasOwner(id: string, events: seq<Event>, n: nat, r: RequestId)
    returns (i: nat, k: nat, caller: string)
    requires n <= |events| && Passed(At(id, events, n), r)
    ensures i < k < n && events[i] == StartDelete(r, caller)
    ensures LooksUp(At(id, events, k), r, caller) && Owns(At(id, events, k), caller)
    ensures events[k].Step? && events[k].request == r && events[k].outcome.Ok?
  {
    hide Run, Apply, Passed, LooksUp, Owns;
    if n == 0 {
      assert events[..0] == [];
      InitialNotPassed(id, r);
      assert false;
    }
    AtNext(id, events, n - 1);
    caller := BeforePassing(At(id, events, n - 1), events[n - 1], r);
    if Passed(At(id, events, n - 1), r) {
      i, k, caller := DeleterWasOwner(id, events, n - 1, r);
    } else {
      k := n - 1;
      i := LookupStarted(id, events, k, r, caller);
    }
  }

  lemma InitialNotPassed(id: string, r: RequestId)
    ensures !Passed(Run(id, []), r)
  {}

  /******* Whose row a DELETE removes *******/

  /** What an event does to the row: a POST makes it, for its user; only the commit of a DELETE under its lock removes it. */
  ghost predicate RowTells(s: State, e: Event, t: State) {
    && (s.row.Some? && t.row.Some? ==> t.row.value.owner == s.row.value.owner)
    && (s.row.None? && t.row.Some? ==>
          e.Step? && e.request in s.messages && t.row.value.owner == s.messages[e.request].user)
    && (s.row.Some? && t.row.None? ==>
          e.Step? && e.request in s.requests && s.requests[e.request].phase.DeleteCommit? && s.lock == Some(e.request))
  }

  lemma PostTellsRow(s: State, r: RequestId, o: Outcome)
    requires Typed(s) && r in s.requests && IsPostPhase(s.requests[r].phase)
    ensures RowTells(s, Step(r, o), StepRequest(s, r, o))
  {
    hide Header, Block, StepDeleteBegin, StepDeleteRow, StepDeleteObject, StepDeleteCommit;
    match s.requests[r].phase
    case CreateRow =>
    case CreateObject =>
    case CreateReload =>
    case Read(_) =>
    case Write(_, _, _) =>
    case WriteReload =>
    case Heal =>
    case HealReload =>
    case Increment(_) =>
    case Insert(_, _) =>
  }

  lemma DeleteTellsRow(s: State, r: RequestId, o: Outcome)
    requires r in s.requests && !IsPostPhase(s.requests[r].phase)
    ensures RowTells(s, Step(r, o), StepRequest(s, r, o))
  {
    hide Header, Block;
    match s.requests[r].phase
    case DeleteBegin(_) =>
    case DeleteRow =>
    case DeleteObject =>
    case DeleteCommit =>
    case Done(_) =>
  }

  lemma EventTellsRow(s: State, e: Event)
    requires Typed(s)
    ensures RowTells(s, e, Apply(s, e))
    ensures forall x :: x in s.messages ==> x in Apply(s, e).messages && Apply(s, e).messages[x] == s.messages[x]
  {
    hide StepRequest;
    if e.Step? && e.request in s.requests {
      if IsPostPhase(s.requests[e.request].phase) {
        PostTellsRow(s, e.request, e.outcome);
      } else {
        DeleteTellsRow(s, e.request, e.outcome);
      }
    }
  }

  /** The row is there all the time. */
  ghost predicate RowStays(id: string, events: seq<Event>, k: nat, n: nat)
    requires n <= |events|
  {
    forall j :: k <= j <= n ==> At(id, events, j).row.Some?
  }

  /** The row at `n` was made by event `b` for the user of its POST, and has been there since. */
  ghost predicate MadeAt(id: string, events: seq<Event>, b: nat, n: nat)
    requires b < n <= |events|
  {
    && At(id, events, b).row.None? && RowStays(id, events, b + 1, n)
    && events[b].Step? && events[b].request in At(id, events, n).messages
    && Owns(At(id, events, n), At(id, events, n).messages[events[b].request].user)
  }

  /** Between two states with a row: it is the same one, or a POST made it anew after a DELETE removed it. */
  lemma {:induction false} RowBetween(id: string, events: seq<Event>, k: nat, n: nat) returns (b: nat)
    requires k <= n <= |events| && At(id, events, k).row.Some? && At(id, events, n).row.Some?
    ensures RowStays(id, events, k, n) ==>
              Owns(At(id, events, n), At(id, events, k).row.value.owner)
    ensures !RowStays(id, events, k, n) ==> k <= b < n && MadeAt(id, events, b, n)
  {
    hide Run, Apply;
    b := 0;
    if k < n {
      var s := At(id, events, n - 1);
      AtNext(id, events, n - 1);
      EventTellsRow(s, events[n - 1]);
      if s.row.None? {
        b := n - 1;
      } else {
        b := RowBetween(id, events, k, n - 1);
        if !RowStays(id, events, k, n - 1) {
          assert RowStays(id, events, b + 1, n);
        }
      }
    }
  }

  /**
   When a row goes, a DELETE commits whose caller owned the row at the lookup. The row
   that goes is the caller's exactly when it is still the one looked up, or a POST of
   the caller made it anew meanwhile.
   */
  lemma RemovedRowIsOwnersIff(id: string, events: seq<Event>, n: nat)
    returns (i: nat, k: nat, caller: string, b: nat)
    requires n < |events| && At(id, events, n).row.Some? && At(id, events, n + 1).row.None?
    ensures events[n].Step? && i < k < n && events[i] == StartDelete(events[n].request, caller)
    ensures LooksUp(At(id, events, k), events[n].request, caller) && Owns(At(id, events, k), caller)
    ensures !RowStays(id, events, k, n) ==> k <= b < n && MadeAt(id, events, b, n)
    ensures Owns(At(id, events, n), caller) <==>
            RowStays(id, events, k, n) || At(id, events, n).messages[events[b].request].user == caller
  {
    hide Run, Apply, RowStays;
    AtNext(id, events, n);
    EventTellsRow(At(id, events, n), events[n]);
    i, k, caller := DeleterWasOwner(id, events, n, events[n].request);
    b := RowBetween(id, events, k, n);
  }

  /** Two DELETEs by the owner pass their lookups; one ends, a stranger's POST makes the row anew, the other goes on. */
  function Relay(m: Message, w: Message): seq<Event> {
    [StartPost(0, m), Step(0, Ok(m.sent.at)), StartDelete(1, m.user), Step(1, Ok(0)),
     StartDelete(2, m.user), Step(2, Ok(0)), Step(2, Ok(0)), Step(2, Ok(0)), Step(2, Ok(0)),
     StartPost(3, w), Step(3, Ok(w.sent.at)), Step(1, Ok(0)), Step(1, Ok(0)), Step(1, Ok(0))]
  }

  lemma RelayUntilRemoved(id: string, m: Message, w: Message)
    ensures var s := Run(id, Relay(m, w)[..9]);
            && s.requests.Keys == {0, 1, 2} && s.requests[1].phase == DeleteRow && s.messages.Keys == {0}
            && s.row.None? && s.lock.None?
  {
    hide Run, Header, Block;
    var e := Relay(m, w);
    RelayUntilLookup(id, m, w);
    assert e[..7] == e[..6] + [e[6]] && e[..8] == e[..7] + [e[7]] && e[..9] == e[..8] + [e[8]];
    RunSnoc(id, e[..6], e[6]);
    assert Run(id, e[..7]).requests[2].phase == DeleteObject && Run(id, e[..7]).lock == Some(2);
    RunSnoc(id, e[..7], e[7]);
    assert Run(id, e[..8]).requests[2].phase == DeleteCommit;
    RunSnoc(id, e[..8], e[8]);
  }

  lemma RelayUntilLookup(id: string, m: Message, w: Message)
    ensures var s := Run(id, Relay(m, w)[..6]);
            && s.requests.Keys == {0, 1, 2} && s.requests[1].phase == s.requests[2].phase == DeleteRow
            && s.messages.Keys == {0} && s.row.Some? && s.lock.None?
  {
    hide Run;
    var e := Relay(m, w);
    RelayFirstLookup(id, m, w);
    assert e[..5] == e[..4] + [e[4]] && e[..6] == e[..5] + [e[5]];
    RunSnoc(id, e[..4], e[4]);
    RunSnoc(id, e[..5], e[5]);
  }

  lemma RelayFirstLookup(id: string, m: Message, w: Message)
    ensures var s := Run(id, Relay(m, w)[..4]);
            && s.requests.Keys == {0, 1} && s.requests[1].phase == DeleteRow
            && s.messages.Keys == {0} && Owns(s, m.user) && s.lock.None?
  {
    hide Header, Block;
    var e := Relay(m, w);
    assert e[..1] == [] + [e[0]] && e[..2] == e[..1] + [e[1]] && e[..3] == e[..2] + [e[2]] && e[..4] == e[..3] + [e[3]];
    RunSnoc(id, [], e[0]);
    RunSnoc(id, e[..1], e[1]);
    assert Owns(Run(id, e[..2]), m.user) && Run(id, e[..2]).lock.None?;
    RunSnoc(id, e[..2], e[2]);
    RunSnoc(id, e[..3], e[3]);
  }

  lemma RelayUntilRemade(id: string, m: Message, w: Message)
    ensures var s := Run(id, Relay(m, w)[..11]);
            1 in s.requests && s.requests[1].phase == DeleteRow && Owns(s, w.user) && s.lock.None?
  {
    hide Run, Header, Block;
    var e := Relay(m, w);
    RelayUntilRemoved(id, m, w);
    assert e[..10] == e[..9] + [e[9]] && e[..11] == e[..10] + [e[10]];
    RunSnoc(id, e[..9], e[9]);
    RunSnoc(id, e[..10], e[10]);
  }

  /** The ownership found at the lookup need not hold at the commit: the row removed may be a stranger's. */
  lemma StrangersRowCanGo(id: string, m: Message, w: Message)
    ensures var e := Relay(m, w);
            && Owns(Run(id, e[..13]), w.user) && Run(id, e).row.None?
            && 1 in Run(id, e).requests && Run(id, e).requests[1].phase == Done(Deleted)
  {
    hide Run;
    var e := Relay(m, w);
    RelayUntilRemade(id, m, w);
    assert e[..12] == e[..11] + [e[11]] && e[..13] == e[..12] + [e[12]] && e == e[..13] + [e[13]];
    RunSnoc(id, e[..11], e[11]);
    assert Run(id, e[..12]).requests[1].phase == DeleteObject && Run(id, e[..12]).lock == Some(1);
    RunSnoc(id, e[..12], e[12]);
    RunSnoc(id, e[..13], e[13]);
  }

  /******* Serial runs *******/

  lemma {:induction false} SerialPrefix(id: string, events: seq<Event>, n: nat)
    requires n <= |events| && Serial(id, events)
    ensures Serial(id, events[..n])
  {
    hide Run;
    if n == |events| {
      assert events[..n] == events;
    } else {
      var m := |events| - 1;
      SerialPrefix(id, events[..m], n);
      assert events[..m][..n] == events[..n];
    }
  }

  /** While a DELETE past its lookup has not ended, nothing else touches the row. */
  lemma {:induction false} SerialRowStays(id: string, events: seq<Event>, k: nat, n: nat, r: RequestId)
    requires Serial(id, events) && k <= n <= |events| && At(id, events, k).row.Some?
    requires r in At(id, events, k).requests && r in At(id, events, n).requests
    requires !At(id, events, n).requests[r].phase.Done?
    ensures RowStays(id, events, k, n)
  {
    hide Run, Apply, Serial;
    if k < n {
      RequestsRemain(id, events, k, n - 1, r);
      var s := At(id, events, n - 1);
      AtNext(id, events, n - 1);
      if s.requests[r].phase.Done? {
        DoneIsFinal(s, events[n - 1], r);
        assert false;
      }
      SerialRowStays(id, events, k, n - 1, r);
      SerialPrefix(id, events, n - 1);
      RunKeepsSerial(id, events[..n - 1]);
      EventTellsRow(s, events[n - 1]);
      if At(id, events, n).row.None? {
        assert events[n - 1].request == r;
        CommitEnds(s, r, events[n - 1].outcome);
        assert false;
      }
    }
  }

  lemma CommitEnds(s: State, r: RequestId, o: Outcome)
    requires Typed(s) && r in s.requests && s.requests[r].phase.DeleteCommit?
    ensures Apply(s, Step(r, o)).requests[r].phase.Done?
  {}

  lemma {:induction false} RequestsRemain(id: string, events: seq<Event>, k: nat, n: nat, r: RequestId)
    requires k <= n <= |events| && r in At(id, events, k).requests
    ensures r in At(id, events, n).requests
  {
    hide Run, Apply;
    if k < n {
      RequestsRemain(id, events, k, n - 1, r);
      AtNext(id, events, n - 1);
      if r !in At(id, events, n).requests {
        RequestsStay(At(id, events, n - 1), events[n - 1], r);
        assert false;
      }
    }
  }

  /** In a serial run a row that goes is removed by its owner. */
  lemma SerialDeleteIsOwners(id: string, events: seq<Event>, n: nat) returns (i: nat, caller: string)
    requires Serial(id, events) && n < |events| && At(id, events, n).row.Some? && At(id, events, n + 1).row.None?
    ensures i < n && events[i] == StartDelete(events[n].request, caller) && Owns(At(id, events, n), caller)
  {
    hide Run, Apply, Serial, RowStays, LooksUp, MadeAt;
    var k, b;
    i, k, caller, b := RemovedRowIsOwnersIff(id, events, n);
    LooksUpFacts(At(id, events, k), events[n].request, caller);
    AtNext(id, events, n);
    EventTellsRow(At(id, events, n), events[n]);
    SerialRowStays(id, events, k, n, events[n].request);
  }

  lemma LooksUpFacts(s: State, r: RequestId, caller: string)
    requires LooksUp(s, r, caller)
    ensures r in s.requests
  {}

  /** After a serial run at rest, the owner's DELETE that meets no failure and no ticket answers 204 and leaves nothing. */
  lemma OwnersDeleteSucceeds(id: string, events: seq<Event>, r: RequestId, caller: string, o: Outcome)
    requires Serial(id, events) && Quiet(Run(id, events)) && Owns(Run(id, events), caller) && o.Ok?
    requires r !in Run(id, events).requests && r !in Run(id, events).messages
    ensures var t := Run(id, events + [StartDelete(r, caller)] + [Step(r, o)] + [Step(r, o)] + [Step(r, o)] + [Step(r, o)]);
            && r in t.requests && t.requests[r].phase == Done(Deleted)
            && t.row.None? && t.turns == [] && t.blob.None?
  {
    hide Run, Serial;
    RunKeepsSerial(id, events);
    var e0 := events + [StartDelete(r, caller)];
    RunSnoc(id, events, StartDelete(r, caller));
    var e1 := e0 + [Step(r, o)];
    RunSnoc(id, e0, Step(r, o));
    assert Run(id, e1).requests[r].phase == DeleteRow && Run(id, e1).row.Some? && Run(id, e1).lock.None?;
    var e2 := e1 + [Step(r, o)];
    RunSnoc(id, e1, Step(r, o));
    assert Run(id, e2).requests[r].phase == DeleteObject && Run(id, e2).lock == Some(r);
    var e3 := e2 + [Step(r, o)];
    RunSnoc(id, e2, Step(r, o));
    assert Run(id, e3).requests[r].phase == DeleteCommit && Run(id, e3).blob.None?;
    RunSnoc(id, e3, Step(r, o));
  }
}
