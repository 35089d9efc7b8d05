/**
 What every interleaving of the conversation log keeps: any number of writers,
 any failures, crashes and deletions.
 */
module ConversationSafety {
  import opened Wrappers
  import opened ConversationLog

  ghost predicate Distinct(xs: seq<RequestId>) {
    forall i, j :: 0 <= i < j < |xs| ==> xs[i] != xs[j]
  }

  /** Phases reached only through a successful append. */
  predicate AfterWrite(p: Phase) {
    p.WriteReload? || p.Increment? || p.Insert? || (p.Done? && p.status.Created?)
  }

  /** No generation change in [since, until) was made by r. */
  ghost predicate OthersOnly(changes: seq<RequestId>, since: nat, until: nat, r: RequestId) {
    && since <= until <= |changes|
    && forall i :: since <= i < until ==> changes[i] != r
  }

  ghost predicate AppendInv(s: State, r: RequestId, q: Request) {
    match q.phase
    case Read(attempt) =>
      && attempt < MAX_ATTEMPTS
      && OthersOnly(s.changes, q.since, |s.changes|, r)
      && q.since + attempt <= |s.changes|
    case Write(attempt, seen, at) =>
      && attempt < MAX_ATTEMPTS
      && OthersOnly(s.changes, q.since, |s.changes|, r)
      && q.since + attempt <= at <= |s.changes|
      && seen.generation < s.nextGeneration
      && (GenerationMatches(s, seen) <==> at == |s.changes|)
      && (GenerationMatches(s, seen) ==> s.blob.value == seen)
    case Done(Contended(since, until)) =>
      OthersOnly(s.changes, since, until, r) && since + MAX_ATTEMPTS <= until && !q.wrote
    case _ => true
  }

  ghost predicate RequestInv(s: State, r: RequestId, q: Request) {
    && (BeforeWrite(q.phase) ==> !q.wrote)
    && (AfterWrite(q.phase) ==> q.wrote)
    && AppendInv(s, r, q)
  }

  /** The object is absent, or one header followed by the blocks of `committed`, in order. */
  ghost predicate ObjectInv(s: State) {
    && AllKnown(s.messages, s.committed)
    && Distinct(s.committed)
    && (s.blob.None? ==> s.committed == [])
    && (s.blob.Some? ==>
        && s.blob.value.generation < s.nextGeneration
        && s.blob.value.text == Header(s.id, s.origin) + Blocks(s.messages, s.committed))
    && (forall i :: 0 <= i < |s.committed| ==> s.committed[i] in s.requests && s.requests[s.committed[i]].wrote)
  }

  ghost predicate Inv(s: State) {
    && Typed(s)
    && ObjectInv(s)
    && (forall r :: r in s.requests ==> RequestInv(s, r, s.requests[r]))
  }

  /** A step of r never undoes its write, and changes the object in one of four ways. */
  ghost predicate ObjectStep(s: State, t: State, r: RequestId) {
    && r in s.requests && r in t.requests
    && (s.requests[r].wrote ==> t.requests[r].wrote)
    && ObjectChange(s, t, r)
  }

  ghost predicate ObjectChange(s: State, t: State, r: RequestId)
    requires r in s.requests && r in t.requests
  {
    || t.blob == s.blob
    || (s.blob.None? && t.blob.Some? && t.blob.value.text == Header(s.id, t.origin))
    || (&& s.blob.Some? && t.blob.Some? && r in s.messages
        && t.blob.value.text == s.blob.value.text + Block(s.messages[r])
        && !s.requests[r].wrote && t.requests[r].wrote)
    || (s.blob.Some? && t.blob.None? && s.requests[r].phase.DeleteObject?)
  }

  /******* Preservation, one kind of effect at a time *******/

  lemma SameStoreKeepsInv(s: State, t: State, r: RequestId)
    requires Inv(s) && OnlyTouches(s, t, r) && LeavesStore(s, t, r)
    requires RequestInv(t, r, t.requests[r])
    ensures Inv(t)
  {
  }

  /** A header upload onto an absent object by r. */
  lemma HeaderKeepsInv(s: State, t: State, r: RequestId, origin: Origin)
    requires Inv(s) && s.blob.None? && OnlyTouches(s, t, r)
    requires t.requests[r].wrote == s.requests[r].wrote
    requires SameStore(PutHeader(s, r, origin), t)
    requires RequestInv(t, r, t.requests[r])
    ensures Inv(t)
  {
    forall x | x in t.requests && x != r ensures RequestInv(t, x, t.requests[x]) {
      assert RequestInv(s, x, s.requests[x]);
    }
    assert Header(t.id, t.origin) + "" == Header(t.id, t.origin);
  }

  /** A conditional append by r that matched the live generation. */
  lemma BlockKeepsInv(s: State, t: State, r: RequestId, seen: Blob)
    requires Inv(s) && OnlyTouches(s, t, r) && r in s.messages
    requires s.blob == Some(seen) && !s.requests[r].wrote && t.requests[r].wrote
    requires SameStore(PutBlock(s, r, seen), t)
    requires RequestInv(t, r, t.requests[r])
    ensures Inv(t)
  {
    forall x | x in t.requests && x != r ensures RequestInv(t, x, t.requests[x]) {
      assert RequestInv(s, x, s.requests[x]);
    }
    assert t.committed[..|t.committed| - 1] == s.committed;
    assert Header(s.id, s.origin) + Blocks(s.messages, s.committed) + Block(s.messages[r])
        == Header(s.id, s.origin) + (Blocks(s.messages, s.committed) + Block(s.messages[r]));
  }

  lemma DropKeepsInv(s: State, t: State, r: RequestId)
    requires Inv(s) && OnlyTouches(s, t, r)
    requires t.requests[r].wrote == s.requests[r].wrote
    requires SameStore(DropObject(s, r), t)
    requires RequestInv(t, r, t.requests[r])
    ensures Inv(t)
  {
    forall x | x in t.requests && x != r ensures RequestInv(t, x, t.requests[x]) {
      assert RequestInv(s, x, s.requests[x]);
    }
  }

  lemma CreateRowKeepsInv(s: State, r: RequestId, o: Outcome)
    requires Inv(s) && r in s.requests && s.requests[r].phase.CreateRow?
    ensures Inv(StepCreateRow(s, r, o)) && ObjectStep(s, StepCreateRow(s, r, o), r)
  {
    assert RequestInv(s, r, s.requests[r]);
    SameStoreKeepsInv(s, StepCreateRow(s, r, o), r);
  }

  lemma CreateReloadKeepsInv(s: State, r: RequestId, o: Outcome)
    requires Inv(s) && r in s.requests && s.requests[r].phase.CreateReload?
    ensures Inv(StepCreateReload(s, r, o)) && ObjectStep(s, StepCreateReload(s, r, o), r)
  {
    assert RequestInv(s, r, s.requests[r]);
    SameStoreKeepsInv(s, StepCreateReload(s, r, o), r);
  }

  lemma ReadKeepsInv(s: State, r: RequestId, o: Outcome)
    requires Inv(s) && r in s.requests && s.requests[r].phase.Read?
    ensures Inv(StepRead(s, r, o)) && ObjectStep(s, StepRead(s, r, o), r)
  {
    assert RequestInv(s, r, s.requests[r]);
    SameStoreKeepsInv(s, StepRead(s, r, o), r);
  }

  lemma WriteReloadKeepsInv(s: State, r: RequestId, o: Outcome)
    requires Inv(s) && r in s.requests && s.requests[r].phase.WriteReload?
    ensures Inv(StepWriteReload(s, r, o)) && ObjectStep(s, StepWriteReload(s, r, o), r)
  {
    assert RequestInv(s, r, s.requests[r]);
    SameStoreKeepsInv(s, StepWriteReload(s, r, o), r);
  }

  lemma HealReloadKeepsInv(s: State, r: RequestId, o: Outcome)
    requires Inv(s) && r in s.requests && s.requests[r].phase.HealReload?
    ensures Inv(StepCreateReload(s, r, o)) && ObjectStep(s, StepCreateReload(s, r, o), r)
  {
    assert RequestInv(s, r, s.requests[r]);
    SameStoreKeepsInv(s, StepCreateReload(s, r, o), r);
  }

  lemma IncrementKeepsInv(s: State, r: RequestId, o: Outcome)
    requires Inv(s) && r in s.requests && s.requests[r].phase.Increment?
    ensures Inv(StepIncrement(s, r, o)) && ObjectStep(s, StepIncrement(s, r, o), r)
  {
    assert RequestInv(s, r, s.requests[r]);
    SameStoreKeepsInv(s, StepIncrement(s, r, o), r);
  }

  lemma InsertKeepsInv(s: State, r: RequestId, o: Outcome)
    requires Inv(s) && r in s.requests && s.requests[r].phase.Insert?
    ensures Inv(StepInsert(s, r, o)) && ObjectStep(s, StepInsert(s, r, o), r)
  {
    assert RequestInv(s, r, s.requests[r]);
    SameStoreKeepsInv(s, StepInsert(s, r, o), r);
  }

  lemma DeleteBeginKeepsInv(s: State, r: RequestId, o: Outcome)
    requires Inv(s) && r in s.requests && s.requests[r].phase.DeleteBegin?
    ensures Inv(StepDeleteBegin(s, r, o)) && ObjectStep(s, StepDeleteBegin(s, r, o), r)
  {
    hide ObjectInv, Header, Block, Blocks;
    assert RequestInv(s, r, s.requests[r]);
    SameStoreKeepsInv(s, StepDeleteBegin(s, r, o), r);
  }

  lemma DeleteRowKeepsInv(s: State, r: RequestId, o: Outcome)
    requires Inv(s) && r in s.requests && s.requests[r].phase.DeleteRow?
    ensures Inv(StepDeleteRow(s, r, o)) && ObjectStep(s, StepDeleteRow(s, r, o), r)
  {
    assert RequestInv(s, r, s.requests[r]);
    SameStoreKeepsInv(s, StepDeleteRow(s, r, o), r);
  }

  lemma DeleteCommitKeepsInv(s: State, r: RequestId, o: Outcome)
    requires Inv(s) && r in s.requests && s.requests[r].phase.DeleteCommit?
    ensures Inv(StepDeleteCommit(s, r, o)) && ObjectStep(s, StepDeleteCommit(s, r, o), r)
  {
    assert RequestInv(s, r, s.requests[r]);
    SameStoreKeepsInv(s, StepDeleteCommit(s, r, o), r);
  }

  lemma CreateObjectKeepsInv(s: State, r: RequestId, o: Outcome)
    requires Inv(s) && r in s.requests && s.requests[r].phase.CreateObject?
    ensures Inv(StepCreateObject(s, r, o)) && ObjectStep(s, StepCreateObject(s, r, o), r)
  {
    assert RequestInv(s, r, s.requests[r]);
    if s.blob.None? && (o.Ok? || o == Fail(true)) {
      HeaderKeepsInv(s, StepCreateObject(s, r, o), r, Origin(s.requests[r].created, s.messages[r].user));
    } else {
      SameStoreKeepsInv(s, StepCreateObject(s, r, o), r);
    }
  }

  lemma HealKeepsInv(s: State, r: RequestId, o: Outcome)
    requires Inv(s) && r in s.requests && s.requests[r].phase.Heal?
    ensures Inv(StepHeal(s, r, o)) && ObjectStep(s, StepHeal(s, r, o), r)
  {
    assert RequestInv(s, r, s.requests[r]);
    if s.blob.None? && (o.Ok? || o == Fail(true)) {
      HeaderKeepsInv(s, StepHeal(s, r, o), r, Origin(s.requests[r].created, s.messages[r].user));
    } else {
      SameStoreKeepsInv(s, StepHeal(s, r, o), r);
    }
  }

  lemma WriteKeepsInv(s: State, r: RequestId, o: Outcome)
    requires Inv(s) && r in s.requests && s.requests[r].phase.Write?
    ensures Inv(StepWrite(s, r, o)) && ObjectStep(s, StepWrite(s, r, o), r)
  {
    hide ObjectInv, Header, Block, Blocks;
    assert RequestInv(s, r, s.requests[r]);
    var seen := s.requests[r].phase.seen;
    if GenerationMatches(s, seen) && (o.Ok? || o == Fail(true)) {
      BlockKeepsInv(s, StepWrite(s, r, o), r, seen);
    } else {
      SameStoreKeepsInv(s, StepWrite(s, r, o), r);
    }
  }

  lemma DeleteObjectKeepsInv(s: State, r: RequestId, o: Outcome)
    requires Inv(s) && r in s.requests && s.requests[r].phase.DeleteObject?
    ensures Inv(StepDeleteObject(s, r, o)) && ObjectStep(s, StepDeleteObject(s, r, o), r)
  {
    hide Header, Block, Blocks;
    assert RequestInv(s, r, s.requests[r]);
    if o.Ok? || o == Fail(true) {
      DropKeepsInv(s, StepDeleteObject(s, r, o), r);
    } else {
      SameStoreKeepsInv(s, StepDeleteObject(s, r, o), r);
    }
  }

  lemma StepKeepsInv(s: State, r: RequestId, o: Outcome)
    requires Inv(s) && r in s.requests
    ensures Inv(StepRequest(s, r, o)) && ObjectStep(s, StepRequest(s, r, o), r)
  {
    match s.requests[r].phase
    case CreateRow => CreateRowKeepsInv(s, r, o);
    case CreateObject => CreateObjectKeepsInv(s, r, o);
    case CreateReload => CreateReloadKeepsInv(s, r, o);
    case Read(_) => ReadKeepsInv(s, r, o);
    case Write(_, _, _) => WriteKeepsInv(s, r, o);
    case WriteReload => WriteReloadKeepsInv(s, r, o);
    case Heal => HealKeepsInv(s, r, o);
    case HealReload => HealReloadKeepsInv(s, r, o);
    case Increment(_) => IncrementKeepsInv(s, r, o);
    case Insert(_, _) => InsertKeepsInv(s, r, o);
    case DeleteBegin(_) => DeleteBeginKeepsInv(s, r, o);
    case DeleteRow => DeleteRowKeepsInv(s, r, o);
    case DeleteObject => DeleteObjectKeepsInv(s, r, o);
    case DeleteCommit => DeleteCommitKeepsInv(s, r, o);
    case Done(_) =>
  }

  lemma {:induction false} BlocksIgnoreNewMessages(s: map<RequestId, Message>, t: map<RequestId, Message>, xs: seq<RequestId>)
    requires AllKnown(s, xs) && AllKnown(t, xs)
    requires forall r :: r in s ==> r in t && t[r] == s[r]
    ensures Blocks(s, xs) == Blocks(t, xs)
  {
    if xs != [] {
      BlocksIgnoreNewMessages(s, t, xs[..|xs| - 1]);
    }
  }

  lemma StartKeepsInv(s: State, t: State, r: RequestId)
    requires Inv(s) && r !in s.requests && r !in s.messages
    requires SameStore(s, t.(messages := s.messages))
    requires r in t.requests && t.requests == s.requests[r := t.requests[r]] && RequestInv(t, r, t.requests[r])
    requires t.messages.Keys >= s.messages.Keys && forall x :: x in s.messages ==> t.messages[x] == s.messages[x]
    requires Typed(t)
    ensures Inv(t)
  {
    BlocksIgnoreNewMessages(s.messages, t.messages, s.committed);
    forall x | x in s.requests ensures RequestInv(t, x, t.requests[x]) {
      assert RequestInv(s, x, s.requests[x]);
    }
  }

  lemma ApplyKeepsInv(s: State, e: Event)
    requires Inv(s)
    ensures Inv(Apply(s, e))
  {
    hide ObjectInv, Header, Block, Blocks, StepCreateRow, StepCreateObject, StepCreateReload, StepRead, StepWrite, StepWriteReload, StepHeal, StepIncrement, StepInsert;
    var r := e.request;
    match e
    case Step(_, o) =>
      if r in s.requests { StepKeepsInv(s, r, o); }
    case Crash(_) =>
      if r in s.requests && !s.requests[r].phase.Done? {
        SameStoreKeepsInv(s, Finish(ReleaseLock(s, r), r, Crashed), r);
      }
    case StartPost(_, m) =>
      if r !in s.requests && r !in s.messages { StartKeepsInv(s, Apply(s, e), r); }
    case StartDelete(_, _) =>
      if r !in s.requests && r !in s.messages { StartKeepsInv(s, Apply(s, e), r); }
  }

  lemma {:induction false} RunKeepsInv(id: string, events: seq<Event>)
    ensures Inv(Run(id, events))
  {
    if events != [] {
      RunKeepsInv(id, events[..|events| - 1]);
      ApplyKeepsInv(Run(id, events[..|events| - 1]), events[|events| - 1]);
    }
  }

  /******* Consequences for every run *******/

  ghost predicate DeletionFree(events: seq<Event>) {
    forall i :: 0 <= i < |events| ==> !events[i].StartDelete?
  }

  /** The object is always one header followed by blocks, no request contributing twice. */
  lemma ObjectIsHeaderThenBlocks(id: string, events: seq<Event>)
    ensures var s := Run(id, events);
            && AllKnown(s.messages, s.committed)
            && (s.blob.Some? ==> s.blob.value.text == Header(id, s.origin) + Blocks(s.messages, s.committed))
            && (forall r :: multiset(s.committed)[r] <= 1)
  {
    RunKeepsInv(id, events);
    RunKeepsId(id, events);
    var s := Run(id, events);
    forall r ensures multiset(s.committed)[r] <= 1 {
      DistinctCountsOnce(s.committed, r);
    }
  }

  lemma {:induction false} RunKeepsId(id: string, events: seq<Event>)
    ensures Run(id, events).id == id
  {
    if events != [] {
      RunKeepsId(id, events[..|events| - 1]);
    }
  }

  lemma {:induction false} DistinctCountsOnce(xs: seq<RequestId>, r: RequestId)
    requires Distinct(xs)
    ensures multiset(xs)[r] == if r in xs then 1 else 0
  {
    if xs != [] {
      var n := |xs| - 1;
      DistinctCountsOnce(xs[..n], r);
      assert xs == xs[..n] + [xs[n]];
    }
  }

  /**
   One event leaves the object unchanged, creates it as a bare header, extends it
   by exactly the block of its request (which had not written before and never
   will again), or is the object deletion of a DELETE request.
   */
  lemma EventChangesObjectByOneBlock(id: string, events: seq<Event>, e: Event)
    ensures var s, t := Run(id, events), Run(id, events + [e]);
            || t.blob == s.blob
            || ObjectStep(s, t, e.request)
    ensures var s, t := Run(id, events), Run(id, events + [e]);
            forall r :: r in s.requests ==> r in t.requests && (s.requests[r].wrote ==> t.requests[r].wrote)
  {
    var s := Run(id, events);
    RunKeepsInv(id, events);
    assert (events + [e])[..|events|] == events;
    if e.Step? && e.request in s.requests {
      StepKeepsInv(s, e.request, e.outcome);
    }
  }

  /** A concurrent_write 409: no block of its own, and four changes by others during that append. */
  lemma ContendedMeansFourForeignWrites(id: string, events: seq<Event>, r: RequestId)
    requires r in Run(id, events).requests
    requires Run(id, events).requests[r].phase.Done? && Run(id, events).requests[r].phase.status.Contended?
    ensures var s := Run(id, events);
            var Contended(since, until) := s.requests[r].phase.status;
            && !s.requests[r].wrote && r !in s.committed
            && until - since >= 4
            && OthersOnly(s.changes, since, until, r)
  {
    RunKeepsInv(id, events);
    assert RequestInv(Run(id, events), r, Run(id, events).requests[r]);
  }
}
