/**
 Which overlaps of POST and DELETE can part the object from its row: the exact step, and
 what keeps it from happening.
 */
module ConversationOverlap {
  import opened Wrappers
  import opened ConversationLog
  import opened ConversationSafety
  import opened ConversationTurns

  /** An object that no row points to. */
  ghost predicate Orphan(s: State) {
    s.blob.Some? && s.row.None?
  }

  /******* The exact step *******/

  /** A header that lands while the row is gone, or a DELETE that commits over an object made since it dropped one. */
  ghost predicate Orphans(s: State, e: Event) {
    && e.Step? && e.request in s.requests && (e.outcome.Ok? || e.outcome == Fail(true))
    && var p := s.requests[e.request].phase;
       || ((p.CreateObject? || p.Heal?) && s.blob.None? && s.row.None?)
       || (p.DeleteCommit? && s.lock == Some(e.request) && s.blob.Some?)
  }

  lemma PostStepOrphansIff(s: State, r: RequestId, o: Outcome)
    requires Typed(s) && !Orphan(s) && r in s.requests && IsPostPhase(s.requests[r].phase)
    ensures Orphan(StepRequest(s, r, o)) <==> Orphans(s, Step(r, o))
  {
    hide Typed, Header, Block;
    match s.requests[r].phase
    case CreateRow =>
    case CreateObject =>
    case CreateReload =>
    case Read(_) =>
    case Write(_, _, _) =>
    case WriteReload =>
    case Heal =>
    case HealReload =>
    case Increment(_) =>
    case Insert(_, _) =>
  }

  lemma DeleteStepOrphansIff(s: State, r: RequestId, o: Outcome)
    requires !Orphan(s) && r in s.requests && !IsPostPhase(s.requests[r].phase)
    ensures Orphan(StepRequest(s, r, o)) <==> Orphans(s, Step(r, o))
  {
    match s.requests[r].phase
    case DeleteBegin(_) =>
    case DeleteRow =>
    case DeleteObject =>
    case DeleteCommit =>
    case Done(_) =>
  }

  /** One step, for the runs below: from a state without an orphaned object, exactly these steps make one. */
  lemma OrphansIff(s: State, e: Event)
    requires Typed(s) && !Orphan(s)
    ensures Orphan(Apply(s, e)) <==> Orphans(s, e)
  {
    hide StepRequest, Typed;
    if e.Step? && e.request in s.requests {
      if IsPostPhase(s.requests[e.request].phase) {
        PostStepOrphansIff(s, e.request, e.outcome);
      } else {
        DeleteStepOrphansIff(s, e.request, e.outcome);
      }
    }
  }

  ghost predicate OrphanAt(id: string, events: seq<Event>, i: nat) {
    i <= |events| && Orphan(Run(id, events[..i]))
  }

  ghost predicate OrphansAt(id: string, events: seq<Event>, i: nat) {
    i < |events| && !Orphan(Run(id, events[..i])) && Orphans(Run(id, events[..i]), events[i])
  }

  lemma RunNext(id: string, events: seq<Event>, i: nat)
    requires i < |events|
    ensures Run(id, events[..i + 1]) == Apply(Run(id, events[..i]), events[i])
  {
    assert events[..i + 1][..i] == events[..i];
  }

  lemma {:induction false} FirstOrphan(id: string, events: seq<Event>, i: nat)
    requires OrphanAt(id, events, i)
    ensures exists j: nat :: OrphansAt(id, events, j)
    decreases i
  {
    hide Orphans, Apply;
    assert i > 0 by { assert events[..0] == []; }
    if OrphanAt(id, events, i - 1) {
      FirstOrphan(id, events, i - 1);
    } else {
      RunNext(id, events, i - 1);
      OrphansIff(Run(id, events[..i - 1]), events[i - 1]);
      assert OrphansAt(id, events, i - 1);
    }
  }

  /** A run ever holds an orphaned object exactly when one of its events is such a step. */
  lemma EverOrphanedIff(id: string, events: seq<Event>)
    ensures (exists i: nat :: OrphanAt(id, events, i)) <==> (exists i: nat :: OrphansAt(id, events, i))
  {
    hide Orphan, Orphans;
    if i: nat :| OrphanAt(id, events, i) {
      FirstOrphan(id, events, i);
    }
    if i: nat :| OrphansAt(id, events, i) {
      RunNext(id, events, i);
      OrphansIff(Run(id, events[..i]), events[i]);
      assert OrphanAt(id, events, i + 1);
    }
  }

  /******* POSTs and DELETEs apart *******/

  ghost predicate PostInFlight(s: State) {
    exists r :: r in s.requests && IsPostPhase(s.requests[r].phase)
  }

  ghost predicate DeleteInFlight(s: State) {
    exists r :: r in s.requests && IsDeletePhase(s.requests[r].phase)
  }

  /** No POST is in flight while a DELETE is; POSTs overlap POSTs and DELETEs overlap DELETEs freely. */
  ghost predicate Apart(id: string, events: seq<Event>) {
    forall i :: 0 <= i < |events| ==>
      && (events[i].StartPost? ==> !DeleteInFlight(Run(id, events[..i])))
      && (events[i].StartDelete? ==> !PostInFlight(Run(id, events[..i])))
  }

  ghost predicate RequestApart(s: State, r: RequestId, q: Request) {
    && (IsPostPhase(q.phase) && !q.phase.CreateRow? ==> s.row.Some?)
    && (q.phase.DeleteCommit? ==> s.blob.None?)
    && (q.phase.DeleteBegin? || q.phase.DeleteRow? ==> s.lock != Some(r))
  }

  ghost predicate ApartInv(s: State) {
    && Typed(s) && !Orphan(s)
    && !(PostInFlight(s) && DeleteInFlight(s))
    && (s.lock.Some? ==> s.lock.value in s.requests && IsDeletePhase(s.requests[s.lock.value].phase))
    && (forall r :: r in s.requests ==> RequestApart(s, r, s.requests[r]))
  }

  /** What a step of a POST does to row, object and lock. */
  ghost predicate PostFacts(s: State, t: State, r: RequestId)
    requires r in t.requests
  {
    && (s.row.Some? ==> t.row.Some?) && t.lock == s.lock && !Orphan(t)
    && (IsPostPhase(t.requests[r].phase) || t.requests[r].phase.Done?)
    && RequestApart(t, r, t.requests[r])
  }

  lemma CreateStepFacts(s: State, r: RequestId, o: Outcome)
    requires Typed(s) && !Orphan(s) && r in s.requests && RequestApart(s, r, s.requests[r])
    requires var p := s.requests[r].phase; p.CreateRow? || p.CreateObject? || p.CreateReload? || p.Heal? || p.HealReload?
    ensures PostFacts(s, StepRequest(s, r, o), r)
  {
    hide Typed, Header, Block, StepRead, StepWrite, StepWriteReload, StepIncrement, StepInsert;
    match s.requests[r].phase
    case CreateRow =>
    case CreateObject =>
    case CreateReload =>
    case Heal =>
    case HealReload =>
  }

  lemma AppendStepFacts(s: State, r: RequestId, o: Outcome)
    requires Typed(s) && !Orphan(s) && r in s.requests && RequestApart(s, r, s.requests[r])
    requires var p := s.requests[r].phase; p.Read? || p.Write? || p.WriteReload? || p.Increment? || p.Insert?
    ensures PostFacts(s, StepRequest(s, r, o), r)
  {
    hide Typed, Header, Block, StepCreateRow, StepCreateObject, StepCreateReload, StepHeal;
    match s.requests[r].phase
    case Read(_) =>
    case Write(_, _, _) =>
    case WriteReload =>
    case Increment(_) =>
    case Insert(_, _) =>
  }

  lemma PostFactsKeep(s: State, t: State, r: RequestId)
    requires ApartInv(s) && Typed(t) && OnlyTouches(s, t, r) && IsPostPhase(s.requests[r].phase) && PostFacts(s, t, r)
    ensures ApartInv(t)
  {
    assert PostInFlight(s);
    forall x | x in t.requests ensures !IsDeletePhase(t.requests[x].phase) {
      assert x != r ==> t.requests[x] == s.requests[x];
    }
    forall x | x in t.requests && x != r ensures RequestApart(t, x, t.requests[x]) {
      assert RequestApart(s, x, s.requests[x]) && !IsDeletePhase(s.requests[x].phase);
    }
  }

  /** What a step of a DELETE does to row, object and lock. */
  ghost predicate DeleteFacts(s: State, t: State, r: RequestId)
    requires r in t.requests
  {
    && (s.blob.None? ==> t.blob.None?) && !Orphan(t)
    && (IsDeletePhase(t.requests[r].phase) || t.requests[r].phase.Done?)
    && (t.lock.Some? ==> if t.lock.value == r then IsDeletePhase(t.requests[r].phase) else t.lock == s.lock)
    && RequestApart(t, r, t.requests[r])
  }

  lemma DeleteStartFacts(s: State, r: RequestId, o: Outcome)
    requires !Orphan(s) && r in s.requests && RequestApart(s, r, s.requests[r])
    requires s.requests[r].phase.DeleteBegin? || s.requests[r].phase.DeleteRow?
    ensures DeleteFacts(s, StepRequest(s, r, o), r)
  {
    hide StepDeleteObject, StepDeleteCommit;
    match s.requests[r].phase
    case DeleteBegin(_) =>
    case DeleteRow =>
  }

  lemma DeleteEndFacts(s: State, r: RequestId, o: Outcome)
    requires !Orphan(s) && r in s.requests && RequestApart(s, r, s.requests[r])
    requires s.requests[r].phase.DeleteObject? || s.requests[r].phase.DeleteCommit?
    ensures DeleteFacts(s, StepRequest(s, r, o), r)
  {
    hide StepDeleteBegin, StepDeleteRow;
    match s.requests[r].phase
    case DeleteObject =>
    case DeleteCommit =>
  }

  lemma DeleteFactsKeep(s: State, t: State, r: RequestId)
    requires ApartInv(s) && Typed(t) && OnlyTouches(s, t, r) && IsDeletePhase(s.requests[r].phase) && DeleteFacts(s, t, r)
    ensures ApartInv(t)
  {
    assert DeleteInFlight(s);
    forall x | x in t.requests ensures !IsPostPhase(t.requests[x].phase) {
      assert x != r ==> t.requests[x] == s.requests[x];
    }
    forall x | x in t.requests && x != r ensures RequestApart(t, x, t.requests[x]) {
      assert RequestApart(s, x, s.requests[x]) && !IsPostPhase(s.requests[x].phase);
    }
  }

  lemma StepKeepsApart(s: State, r: RequestId, o: Outcome)
    requires ApartInv(s) && r in s.requests
    ensures ApartInv(StepRequest(s, r, o))
  {
    hide PostInFlight, DeleteInFlight, RequestApart, PostFacts, DeleteFacts, Orphan, StepCreateRow, StepCreateObject,
      StepCreateReload, StepRead, StepWrite, StepWriteReload, StepHeal, StepIncrement, StepInsert, StepDeleteBegin,
      StepDeleteRow, StepDeleteObject, StepDeleteCommit;
    ApplyTyped(s, Step(r, o));
    var t, p := StepRequest(s, r, o), s.requests[r].phase;
    if p.CreateRow? || p.CreateObject? || p.CreateReload? || p.Heal? || p.HealReload? {
      CreateStepFacts(s, r, o);
      PostFactsKeep(s, t, r);
    } else if IsPostPhase(p) {
      AppendStepFacts(s, r, o);
      PostFactsKeep(s, t, r);
    } else if IsDeletePhase(p) {
      if p.DeleteBegin? || p.DeleteRow? {
        DeleteStartFacts(s, r, o);
      } else {
        DeleteEndFacts(s, r, o);
      }
      DeleteFactsKeep(s, t, r);
    }
  }

  /** A request starts or dies. */
  lemma OtherEventKeepsApart(s: State, e: Event)
    requires ApartInv(s) && !e.Step?
    requires e.StartPost? ==> !DeleteInFlight(s)
    requires e.StartDelete? ==> !PostInFlight(s)
    ensures ApartInv(Apply(s, e))
  {
    var t, r := Apply(s, e), e.request;
    ApplyTyped(s, e);
    forall x | x in t.requests && x != r ensures x in s.requests && t.requests[x] == s.requests[x] {
    }
    forall x | x in t.requests ensures RequestApart(t, x, t.requests[x]) {
      assert x in s.requests ==> RequestApart(s, x, s.requests[x]);
    }
    assert e.StartPost? ==> (DeleteInFlight(t) ==> DeleteInFlight(s));
    assert e.StartDelete? ==> (PostInFlight(t) ==> PostInFlight(s));
    assert e.Crash? ==> (PostInFlight(t) ==> PostInFlight(s)) && (DeleteInFlight(t) ==> DeleteInFlight(s));
  }

  lemma {:induction false} RunKeepsApart(id: string, events: seq<Event>)
    requires Apart(id, events)
    ensures ApartInv(Run(id, events))
  {
    hide PostInFlight, DeleteInFlight, RequestApart;
    if events == [] {
      InitialApart(id);
    } else {
      var n, e := |events| - 1, events[|events| - 1];
      assert Apart(id, events[..n]) by {
        assert forall i :: 0 <= i < n ==> events[..n][..i] == events[..i] && events[..n][i] == events[i];
      }
      RunKeepsApart(id, events[..n]);
      var s := Run(id, events[..n]);
      if e.Step? {
        if e.request in s.requests {
          StepKeepsApart(s, e.request, e.outcome);
        }
      } else {
        OtherEventKeepsApart(s, e);
      }
    }
  }

  lemma InitialApart(id: string)
    ensures ApartInv(Initial(id))
  {}

  /** Whatever fails, and however POSTs overlap, an object always has its row as long as POSTs and DELETEs keep apart. */
  lemma ApartNeverOrphans(id: string, events: seq<Event>)
    requires Apart(id, events)
    ensures !Orphan(Run(id, events))
  {
    RunKeepsApart(id, events);
  }

  lemma {:induction false} DeletionFreeIsApart(id: string, events: seq<Event>)
    requires DeletionFree(events)
    ensures Apart(id, events)
  {
    hide Run;
    forall i | 0 <= i < |events| ensures !DeleteInFlight(Run(id, events[..i])) && !events[i].StartDelete? {
      RunKeepsTurns(id, events[..i]);
      var s := Run(id, events[..i]);
      forall r | r in s.requests ensures !IsDeletePhase(s.requests[r].phase) {
        assert TurnRequestInv(s, r, s.requests[r]);
      }
    }
  }

  /******* Two runs *******/

  lemma RunSnoc(id: string, events: seq<Event>, e: Event)
    ensures Run(id, events + [e]) == Apply(Run(id, events), e)
  {
    assert (events + [e])[..|events|] == events;
  }

  /** A POST inserts the row, a DELETE by its owner runs to its 204, and only then is the header uploaded. */
  function Race(m: Message): seq<Event> {
    [StartPost(0, m), Step(0, Ok(m.sent.at)), StartDelete(1, m.user),
     Step(1, Ok(0)), Step(1, Ok(0)), Step(1, Ok(0)), Step(1, Ok(0)), Step(0, Ok(0))]
  }

  lemma RaceUntilLock(id: string, m: Message)
    ensures var s := Run(id, Race(m)[..5]);
            && s.requests.Keys == {0, 1} && s.requests[0].phase == CreateObject && s.requests[1].phase == DeleteObject
            && s.row.Some? && s.blob.None? && s.lock == Some(1) && 0 in s.messages
  {
    hide Header, Block;
    var e := Race(m);
    assert e[..1] == [] + [e[0]] && e[..2] == e[..1] + [e[1]] && e[..3] == e[..2] + [e[2]];
    assert e[..4] == e[..3] + [e[3]] && e[..5] == e[..4] + [e[4]];
    RunSnoc(id, [], e[0]);
    RunSnoc(id, e[..1], e[1]);
    assert Run(id, e[..2]).requests[0].phase == CreateObject;
    RunSnoc(id, e[..2], e[2]);
    RunSnoc(id, e[..3], e[3]);
    assert Run(id, e[..4]).requests[1].phase == DeleteRow;
    RunSnoc(id, e[..4], e[4]);
  }

  /** Overlapping requests can leave an object without a row: the serial guarantee needs its hypothesis. */
  lemma OverlapCanOrphanTheObject(id: string, m: Message)
    ensures Run(id, Race(m)).blob.Some? && Run(id, Race(m)).row.None?
  {
    hide Header, Block;
    var e := Race(m);
    RaceUntilLock(id, m);
    assert e[..6] == e[..5] + [e[5]] && e[..7] == e[..6] + [e[6]] && e == e[..7] + [e[7]];
    RunSnoc(id, e[..5], e[5]);
    assert Run(id, e[..6]).requests[1].phase == DeleteCommit;
    RunSnoc(id, e[..6], e[6]);
    assert Run(id, e[..7]).row.None?;
    RunSnoc(id, e[..7], e[7]);
  }

  /** One POST inserts the row, another heals the missing object, and the first finds it there. */
  function TwoPosts(m: Message): seq<Event> {
    [StartPost(0, m), Step(0, Ok(m.sent.at)), StartPost(1, m), Step(1, Ok(m.sent.at)),
     Step(1, Ok(0)), Step(1, Ok(0)), Step(0, Ok(0))]
  }

  /** POSTs that overlap keep the object with its row, but one of them may answer "already exists". */
  lemma OverlappingPostsMeet(id: string, m: Message)
    ensures Apart(id, TwoPosts(m))
    ensures var s := Run(id, TwoPosts(m)); 0 in s.requests && s.requests[0].phase == Done(AlreadyExists)
  {
    hide Header, Block;
    var e := TwoPosts(m);
    DeletionFreeIsApart(id, e);
    TwoPostsHealing(id, m);
    assert e[..5] == e[..4] + [e[4]] && e[..6] == e[..5] + [e[5]] && e == e[..6] + [e[6]];
    RunSnoc(id, e[..4], e[4]);
    assert Run(id, e[..5]).requests[1].phase == Heal;
    RunSnoc(id, e[..5], e[5]);
    assert Run(id, e[..6]).blob.Some? && Run(id, e[..6]).requests[0].phase == CreateObject;
    RunSnoc(id, e[..6], e[6]);
  }

  lemma TwoPostsHealing(id: string, m: Message)
    ensures var s := Run(id, TwoPosts(m)[..4]);
            && s.requests.Keys == {0, 1} && s.messages.Keys == {0, 1} && s.blob.None? && s.lock.None?
            && s.requests[0].phase == CreateObject
            && s.requests[1].phase.Read? && !s.requests[1].healed
  {
    hide Header, Block;
    var e := TwoPosts(m);
    assert e[..1] == [] + [e[0]] && e[..2] == e[..1] + [e[1]] && e[..3] == e[..2] + [e[2]] && e[..4] == e[..3] + [e[3]];
    RunSnoc(id, [], e[0]);
    RunSnoc(id, e[..1], e[1]);
    assert Run(id, e[..2]).requests[0].phase == CreateObject;
    RunSnoc(id, e[..2], e[2]);
    RunSnoc(id, e[..3], e[3]);
  }
}
