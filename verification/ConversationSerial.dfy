/**
 Requests that do not overlap: creation, self-heal and deletion together, whatever
 step of whichever request fails.
 */
module ConversationSerial {
  import opened Wrappers
  import opened ConversationLog
  import opened ConversationSafety

  ghost predicate Quiet(s: State) {
    forall r :: r in s.requests ==> s.requests[r].phase.Done?
  }

  /** A request starts only when every earlier one has ended. */
  ghost predicate Serial(id: string, events: seq<Event>) {
    events == [] ||
    var n := |events| - 1;
    && Serial(id, events[..n])
    && (events[n].StartPost? || events[n].StartDelete? ==> Quiet(Run(id, events[..n])))
  }

  ghost predicate SerialRequestInv(s: State, r: RequestId, q: Request) {
    match q.phase
    case CreateRow => s.lock.None?
    case CreateObject => s.row.Some? && s.lock.None? && s.blob.None?
    case Heal => s.row.Some? && s.lock.None? && s.blob.None?
    case DeleteBegin(_) => s.lock.None?
    case DeleteObject => s.row.Some? && s.lock == Some(r)
    case DeleteCommit => s.row.Some? && s.lock == Some(r) && s.blob.None?
    case Done(status) => !status.AlreadyExists?
    case _ => s.row.Some? && s.lock.None?
  }

  ghost predicate SerialInv(s: State) {
    && Typed(s)
    && (s.blob.Some? ==> s.row.Some?)
    && (s.lock.Some? ==> s.lock.value in s.requests && !s.requests[s.lock.value].phase.Done?)
    && (forall r :: r in s.requests ==> SerialRequestInv(s, r, s.requests[r]))
    && (forall r, x | r in s.requests && x in s.requests ::
          s.requests[r].phase.Done? || s.requests[x].phase.Done? || r == x)
  }

  /** r is the only request that can move. */
  ghost predicate Alone(s: State, r: RequestId) {
    r in s.requests && forall x :: x in s.requests && x != r ==> s.requests[x].phase.Done?
  }

  /** What a step of the only live request has to re-establish. */
  ghost predicate AloneInv(s: State, r: RequestId) {
    && r in s.requests
    && (s.blob.Some? ==> s.row.Some?)
    && (s.lock.Some? ==> s.lock.value == r && !s.requests[r].phase.Done?)
    && SerialRequestInv(s, r, s.requests[r])
  }

  lemma AloneSuffices(s: State, t: State, r: RequestId)
    requires SerialInv(s) && Alone(s, r) && OnlyTouches(s, t, r) && AloneInv(t, r)
    ensures SerialInv(t)
  {
    forall x | x in t.requests ensures SerialRequestInv(t, x, t.requests[x]) {
      assert SerialRequestInv(s, x, s.requests[x]);
    }
  }

  lemma CreateStepKeepsAlone(s: State, r: RequestId, o: Outcome)
    requires Typed(s) && AloneInv(s, r)
    requires var p := s.requests[r].phase; p.CreateRow? || p.CreateObject? || p.CreateReload? || p.Heal? || p.HealReload?
    ensures AloneInv(StepRequest(s, r, o), r)
  {
    hide Header, Block, Typed, StepRead, StepWrite, StepWriteReload, StepIncrement, StepInsert;
    match s.requests[r].phase
    case CreateRow =>
    case CreateObject =>
    case CreateReload =>
    case Heal =>
    case HealReload =>
  }

  lemma AppendStepKeepsAlone(s: State, r: RequestId, o: Outcome)
    requires Typed(s) && AloneInv(s, r)
    requires var p := s.requests[r].phase; p.Read? || p.Write? || p.WriteReload? || p.Increment? || p.Insert?
    ensures AloneInv(StepRequest(s, r, o), r)
  {
    hide Header, Block, Typed, StepCreateRow, StepCreateObject, StepCreateReload, StepHeal;
    match s.requests[r].phase
    case Read(_) =>
    case Write(_, _, _) =>
    case WriteReload =>
    case Increment(_) =>
    case Insert(_, _) =>
  }

  lemma PostStepKeepsAlone(s: State, r: RequestId, o: Outcome)
    requires Typed(s) && AloneInv(s, r) && IsPostPhase(s.requests[r].phase)
    ensures AloneInv(StepRequest(s, r, o), r)
  {
    hide SerialRequestInv, Typed, StepCreateRow, StepCreateObject, StepCreateReload, StepRead, StepWrite,
      StepWriteReload, StepHeal, StepIncrement, StepInsert;
    var p := s.requests[r].phase;
    if p.CreateRow? || p.CreateObject? || p.CreateReload? || p.Heal? || p.HealReload? {
      CreateStepKeepsAlone(s, r, o);
    } else {
      AppendStepKeepsAlone(s, r, o);
    }
  }

  /** A step leaves no object, no row and no turn behind when it answers 204. */
  ghost predicate LeavesNothing(t: State, r: RequestId) {
    r in t.requests && t.requests[r].phase == Done(Deleted) ==> t.row.None? && t.turns == [] && t.blob.None?
  }

  lemma DeleteStartKeepsAlone(s: State, r: RequestId, o: Outcome)
    requires AloneInv(s, r) && (s.requests[r].phase.DeleteBegin? || s.requests[r].phase.DeleteRow?)
    ensures AloneInv(StepRequest(s, r, o), r) && LeavesNothing(StepRequest(s, r, o), r)
  {
    hide StepDeleteObject, StepDeleteCommit;
    match s.requests[r].phase
    case DeleteBegin(_) =>
    case DeleteRow =>
  }

  lemma DeleteEndKeepsAlone(s: State, r: RequestId, o: Outcome)
    requires AloneInv(s, r) && (s.requests[r].phase.DeleteObject? || s.requests[r].phase.DeleteCommit?)
    ensures AloneInv(StepRequest(s, r, o), r) && LeavesNothing(StepRequest(s, r, o), r)
  {
    hide StepDeleteBegin, StepDeleteRow;
    match s.requests[r].phase
    case DeleteObject =>
    case DeleteCommit =>
  }

  lemma DeleteStepKeepsAlone(s: State, r: RequestId, o: Outcome)
    requires AloneInv(s, r) && !IsPostPhase(s.requests[r].phase)
    ensures AloneInv(StepRequest(s, r, o), r)
    ensures !s.requests[r].phase.Done? ==> LeavesNothing(StepRequest(s, r, o), r)
  {
    hide StepDeleteBegin, StepDeleteRow, StepDeleteObject, StepDeleteCommit, LeavesNothing, SerialRequestInv;
    var p := s.requests[r].phase;
    if p.DeleteBegin? || p.DeleteRow? {
      DeleteStartKeepsAlone(s, r, o);
    } else if p.DeleteObject? || p.DeleteCommit? {
      DeleteEndKeepsAlone(s, r, o);
    }
  }

  lemma ApplyKeepsSerial(s: State, e: Event)
    requires SerialInv(s)
    requires e.StartPost? || e.StartDelete? ==> Quiet(s)
    ensures SerialInv(Apply(s, e))
  {
    hide Header, Block, StepCreateRow, StepCreateObject, StepCreateReload, StepRead, StepWrite, StepWriteReload, StepHeal, StepIncrement, StepInsert, StepDeleteBegin, StepDeleteRow, StepDeleteObject, StepDeleteCommit;
    var r, t := e.request, Apply(s, e);
    if (e.Step? || e.Crash?) && r in s.requests && !s.requests[r].phase.Done? {
      assert SerialRequestInv(s, r, s.requests[r]);
      if e.Step? {
        if IsPostPhase(s.requests[r].phase) { PostStepKeepsAlone(s, r, e.outcome); }
        else { DeleteStepKeepsAlone(s, r, e.outcome); }
      }
      AloneSuffices(s, t, r);
    } else if r !in s.requests && r !in s.messages {
      forall x | x in s.requests ensures SerialRequestInv(t, x, t.requests[x]) {
        assert SerialRequestInv(s, x, s.requests[x]);
      }
    }
  }

  lemma {:induction false} RunKeepsSerial(id: string, events: seq<Event>)
    requires Serial(id, events)
    ensures SerialInv(Run(id, events))
  {
    if events != [] {
      RunKeepsSerial(id, events[..|events| - 1]);
      ApplyKeepsSerial(Run(id, events[..|events| - 1]), events[|events| - 1]);
    }
  }

  /******* Consequences *******/

  /** No object without a row, and hence no "already exists" answer. */
  lemma ObjectNeverOutlivesRow(id: string, events: seq<Event>)
    requires Serial(id, events)
    ensures var s := Run(id, events);
            && (s.blob.Some? ==> s.row.Some?)
            && (forall r :: r in s.requests ==> s.requests[r].phase != Done(AlreadyExists))
  {
    RunKeepsSerial(id, events);
    var s := Run(id, events);
    forall r | r in s.requests ensures s.requests[r].phase != Done(AlreadyExists) {
      assert SerialRequestInv(s, r, s.requests[r]);
    }
  }

  /** The moment a DELETE answers 204, neither row nor turns nor object are left. */
  lemma NoContentLeavesNothing(id: string, events: seq<Event>, e: Event)
    requires Serial(id, events + [e])
    requires var s, t := Run(id, events), Run(id, events + [e]);
             && e.request in s.requests && !s.requests[e.request].phase.Done?
             && e.request in t.requests && t.requests[e.request].phase == Done(Deleted)
    ensures var t := Run(id, events + [e]); t.row.None? && t.turns == [] && t.blob.None?
  {
    var s, r := Run(id, events), e.request;
    assert (events + [e])[..|events|] == events;
    RunKeepsSerial(id, events);
    assert SerialRequestInv(s, r, s.requests[r]);
    if IsPostPhase(s.requests[r].phase) {
      PostNeverDeletes(s, r, e.outcome);
    } else {
      DeleteStepKeepsAlone(s, r, e.outcome);
    }
  }

  lemma PostNeverDeletes(s: State, r: RequestId, o: Outcome)
    requires Typed(s) && r in s.requests && IsPostPhase(s.requests[r].phase)
    ensures StepRequest(s, r, o).requests[r].phase != Done(Deleted)
  {
    hide Header, Block, StepDeleteBegin, StepDeleteRow, StepDeleteObject, StepDeleteCommit;
    match s.requests[r].phase
    case CreateRow =>
    case CreateObject =>
    case CreateReload =>
    case Read(_) =>
    case Write(_, _, _) =>
    case WriteReload =>
    case Heal =>
    case HealReload =>
    case Increment(_) =>
    case Insert(_, _) =>
  }

  /******* Self-heal *******/

  /** Request r takes one step per outcome, nobody else moving. */
  ghost function Play(s: State, r: RequestId, os: seq<Outcome>): (t: State)
    requires Typed(s) && r in s.requests
    ensures Typed(t) && r in t.requests && t.messages == s.messages && t.id == s.id
  {
    if os == [] then s
    else
      var p := Play(s, r, os[..|os| - 1]);
      ApplyTyped(p, Step(r, os[|os| - 1]));
      StepRequest(p, r, os[|os| - 1])
  }

  /** A POST has just started on a conversation whose row lost its object. */
  ghost predicate Orphaned(s: State, r: RequestId) {
    && Typed(s) && r in s.requests && r in s.messages
    && s.requests[r] == Fresh(CreateRow)
    && s.row.Some? && s.blob.None? && s.lock.None? && s.committed == []
  }

  /** No storage error and no timestamp error; the counter and the turn may still fail. */
  ghost predicate Favours(s: State, t: State, r: RequestId, o: Outcome)
    requires r in t.requests && r in s.messages && s.row.Some?
  {
    var p := t.requests[r].phase;
    && (o.Ok? || p.Increment? || p.Insert?)
    && (p.CreateRow? ==> s.row.value.created.at <= s.messages[r].sent.at <= o.now + FUTURE_TOLERANCE)
  }

  /** Every outcome favours the step it belongs to. */
  ghost predicate Undisturbed(s: State, r: RequestId, os: seq<Outcome>)
    requires Typed(s) && r in s.requests && r in s.messages && s.row.Some?
  {
    os == [] ||
    var n := |os| - 1;
    Undisturbed(s, r, os[..n]) && Favours(s, Play(s, r, os[..n]), r, os[n])
  }

  /** Steps still to be taken from each phase of the healing append. */
  function Remaining(q: Request): nat {
    match q.phase
    case CreateRow => 9
    case Read(_) => if q.healed then 5 else 8
    case Heal => 7
    case HealReload => 6
    case Write(_, _, _) => 4
    case WriteReload => 3
    case Increment(_) => 2
    case Insert(_, _) => 1
    case _ => 0
  }

  ghost predicate HoldsText(t: State, authors: seq<RequestId>, text: string) {
    t.committed == authors && t.blob.Some? && t.blob.value.text == text
  }

  ghost predicate HealInv(s: State, t: State, r: RequestId)
    requires Orphaned(s, r)
  {
    && r in t.requests && t.messages == s.messages && t.id == s.id
    && t.row.Some? && t.row.value.created == s.row.value.created && t.lock.None?
    && var q := t.requests[r];
       var header := Header(s.id, Origin(s.row.value.created, s.messages[r].user));
       && (!q.phase.CreateRow? ==> q.created == s.row.value.created)
       && match q.phase
          case CreateRow => t.blob.None? && !q.healed && t.committed == []
          case Heal => t.blob.None? && !q.healed && t.committed == []
          case Read(_) => if q.healed then HoldsText(t, [], header) else t.blob.None? && t.committed == []
          case HealReload => q.healed && HoldsText(t, [], header)
          case Write(_, seen, _) => HoldsText(t, [], header) && t.blob.value == seen
          case WriteReload => HoldsText(t, [r], header + Block(s.messages[r]))
          case Increment(_) => HoldsText(t, [r], header + Block(s.messages[r]))
          case Insert(_, _) => HoldsText(t, [r], header + Block(s.messages[r]))
          case Done(status) => status.Created? && HoldsText(t, [r], header + Block(s.messages[r]))
          case _ => false
  }

  lemma HealingStep(s: State, t: State, r: RequestId, o: Outcome)
    requires Orphaned(s, r) && Typed(t) && HealInv(s, t, r) && Favours(s, t, r, o)
    requires var p := t.requests[r].phase; p.CreateRow? || p.Read? || p.Heal? || p.HealReload?
    ensures var u := StepRequest(t, r, o);
            HealInv(s, u, r) && Remaining(u.requests[r]) < Remaining(t.requests[r])
  {
    hide Header, Block, Typed, StepCreateObject, StepWrite, StepWriteReload, StepIncrement, StepInsert;
    match t.requests[r].phase
    case CreateRow =>
    case Read(_) =>
    case Heal =>
    case HealReload =>
  }

  lemma AppendingStep(s: State, t: State, r: RequestId, o: Outcome)
    requires Orphaned(s, r) && Typed(t) && HealInv(s, t, r) && Favours(s, t, r, o)
    requires var p := t.requests[r].phase; p.Write? || p.WriteReload? || p.Increment? || p.Insert?
    ensures var u := StepRequest(t, r, o);
            HealInv(s, u, r) && Remaining(u.requests[r]) < Remaining(t.requests[r])
  {
    hide Header, Block, Typed, StepCreateRow, StepCreateObject, StepCreateReload, StepRead, StepHeal;
    match t.requests[r].phase
    case Write(_, _, _) =>
    case WriteReload =>
    case Increment(_) =>
    case Insert(_, _) =>
  }

  lemma HealStep(s: State, t: State, r: RequestId, o: Outcome)
    requires Orphaned(s, r) && Typed(t) && HealInv(s, t, r) && Favours(s, t, r, o)
    ensures var u := StepRequest(t, r, o);
            HealInv(s, u, r) && (Remaining(u.requests[r]) < Remaining(t.requests[r]) || t.requests[r].phase.Done?)
  {
    hide Typed, Remaining, Favours, Header, Block, StepCreateRow, StepCreateObject, StepCreateReload, StepRead,
      StepWrite, StepWriteReload, StepHeal, StepIncrement, StepInsert;
    var p := t.requests[r].phase;
    if p.CreateRow? || p.Read? || p.Heal? || p.HealReload? {
      HealingStep(s, t, r, o);
    } else if !p.Done? {
      AppendingStep(s, t, r, o);
    }
  }

  lemma HealStart(s: State, r: RequestId)
    requires Orphaned(s, r)
    ensures HealInv(s, s, r) && Remaining(s.requests[r]) == 9
  {
    hide Header, Block;
  }

  lemma {:induction false} PlayHeals(s: State, r: RequestId, os: seq<Outcome>)
    requires Orphaned(s, r) && Undisturbed(s, r, os)
    ensures var t := Play(s, r, os);
            HealInv(s, t, r) && Remaining(t.requests[r]) <= (if |os| <= 9 then 9 - |os| else 0)
  {
    hide HealInv, Favours, Typed, StepCreateRow, StepCreateObject, StepCreateReload, StepRead, StepWrite,
      StepWriteReload, StepHeal, StepIncrement, StepInsert;
    if os == [] {
      HealStart(s, r);
    } else {
      var n := |os| - 1;
      PlayHeals(s, r, os[..n]);
      HealStep(s, Play(s, r, os[..n]), r, os[n]);
    }
  }

  /**
   From the one half-state, a row without an object, the next append that meets no
   storage or timestamp error answers 201 within nine steps and leaves one header
   plus its block.
   */
  lemma NextAppendHeals(id: string, events: seq<Event>, r: RequestId, m: Message, os: seq<Outcome>)
    requires var s := Run(id, events);
             && Serial(id, events) && Quiet(s) && s.row.Some? && s.blob.None?
             && r !in s.requests && r !in s.messages
    requires Undisturbed(Apply(Run(id, events), StartPost(r, m)), r, os) && |os| >= 9
    ensures var s := Apply(Run(id, events), StartPost(r, m));
            var t := Play(s, r, os);
               && t.requests[r].phase.Done? && t.requests[r].phase.status.Created?
               && t.blob.Some?
               && t.blob.value.text == Header(id, Origin(s.row.value.created, m.user)) + Block(m)
  {
    hide Run, Serial, Undisturbed, Play, Favours, Header, Block;
    RunKeepsSerial(id, events);
    RunKeepsInv(id, events);
    RunKeepsId(id, events);
    var s := Apply(Run(id, events), StartPost(r, m));
    PlayHeals(s, r, os);
    HealEnds(s, Play(s, r, os), r);
  }

  /** With no step left, the append has answered and the object is one header and one block. */
  lemma HealEnds(s: State, t: State, r: RequestId)
    requires Orphaned(s, r) && HealInv(s, t, r) && Remaining(t.requests[r]) == 0
    ensures t.requests[r].phase.Done? && t.requests[r].phase.status.Created? && t.blob.Some?
    ensures t.blob.value.text == Header(s.id, Origin(s.row.value.created, s.messages[r].user)) + Block(s.messages[r])
  {
    hide Header, Block;
  }
}
