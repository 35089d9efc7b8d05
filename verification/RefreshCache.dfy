/**
 * Refresh-ahead single-flight caches: the bearer-token providers and the health
 * snapshot. Callers interleave at every await; time only moves forward.
 */
module RefreshCache {
  import opened Wrappers

  const SECOND: int := 1_000_000_000
  const REFRESH_AHEAD := 60 * SECOND
  const SNAPSHOT_TTL := 10 * SECOND
  const FALLBACK_LIFETIME := 55 * 60 * SECOND

  /** Tokens carry their expiry; snapshots carry the start of their probe. */
  datatype Kind = Token | Snapshot

  /** `guarded`: the first look at the cache waits while a caller holds the lock. */
  datatype Config = Config(kind: Kind, guarded: bool)

  datatype Entry = Entry(value: string, stamp: int)

  /** The instant from which an entry is no longer served. */
  function Deadline(kind: Kind, stamp: int): int {
    match kind
    case Token => stamp - REFRESH_AHEAD
    case Snapshot => stamp + SNAPSHOT_TTL
  }

  /** A snapshot from the future is not fresh either. */
  predicate Fresh(kind: Kind, e: Entry, now: int) {
    now < Deadline(kind, e.stamp) && (kind.Snapshot? ==> e.stamp <= now)
  }

  predicate Served(kind: Kind, cache: Option<Entry>, now: int) {
    cache.Some? && Fresh(kind, cache.value, now)
  }

  /** What a fetched token says about its expiry. */
  datatype Expiry = Lifetime(duration: int) | Claim(at: int) | Unreadable

  /** The stamp of an entry whose fetch ran from `start` to `now`. */
  function StampOf(kind: Kind, expiry: Expiry, start: int, now: int): int {
    match kind
    case Snapshot => start
    case Token =>
      match expiry
      case Lifetime(duration) => now + duration
      case Claim(at) => at
      case Unreadable => now + FALLBACK_LIFETIME
  }

  datatype Phase = Resting | Waiting | Locked | Fetching(start: int)

  datatype Outcome =
    | Pending
    | Lost
    | Stored(value: string, stamp: int, expiry: Expiry, finish: int, evictions: nat)

  /** `evictions` counts the evictions before the fetch started. */
  datatype Fetch = Fetch(caller: nat, start: int, evictions: nat, outcome: Outcome)

  datatype Reply = Reply(caller: nat, entry: Entry, at: int, fromCache: bool)

  datatype State = State(
    now: int,
    cache: Option<Entry>,
    holder: Option<nat>,
    phases: map<nat, Phase>,
    evictions: nat,
    fetches: seq<Fetch>,
    replies: seq<Reply>)
  {
    function PhaseOf(c: nat): Phase {
      if c in phases then phases[c] else Resting
    }

    function Move(c: nat, p: Phase): State {
      this.(phases := phases[c := p])
    }

    function Answer(c: nat, e: Entry, fromCache: bool): State {
      Move(c, Resting).(replies := replies + [Reply(c, e, now, fromCache)])
    }

    /** The last fetch ends. */
    function Settle(o: Outcome): State
      requires fetches != []
    {
      var last := |fetches| - 1;
      this.(fetches := fetches[last := fetches[last].(outcome := o)])
    }
  }

  function Initial(now: int): State {
    State(now, None, None, map[], 0, [], [])
  }

  datatype Event =
    | Tick(duration: nat)
    | Look(caller: nat)
    | Lock(caller: nat)
    | Recheck(caller: nat)
    | Succeed(caller: nat, value: string, expiry: Expiry)
    | Fail(caller: nat)
    | Cancel(caller: nat)
    | Evict

  /** First look, under the read lock where there is one. */
  function Looked(g: Config, s: State, c: nat): State {
    if !s.PhaseOf(c).Resting? || (g.guarded && s.holder.Some?) then s
    else if Served(g.kind, s.cache, s.now) then s.Answer(c, s.cache.value, true)
    else s.Move(c, Waiting)
  }

  function TookLock(s: State, c: nat): State {
    if s.PhaseOf(c).Waiting? && s.holder.None? then s.Move(c, Locked).(holder := Some(c)) else s
  }

  /** Second look under the lock; a miss starts the fetch. */
  function Rechecked(g: Config, s: State, c: nat): State {
    if !s.PhaseOf(c).Locked? then s
    else if Served(g.kind, s.cache, s.now) then s.Answer(c, s.cache.value, true).(holder := None)
    else s.Move(c, Fetching(s.now)).(fetches := s.fetches + [Fetch(c, s.now, s.evictions, Pending)])
  }

  function Succeeded(g: Config, s: State, c: nat, value: string, expiry: Expiry): State {
    if !s.PhaseOf(c).Fetching? || s.fetches == [] then s
    else
      var stamp := StampOf(g.kind, expiry, s.PhaseOf(c).start, s.now);
      s.Settle(Stored(value, stamp, expiry, s.now, s.evictions))
      .Answer(c, Entry(value, stamp), false).(cache := Some(Entry(value, stamp)), holder := None)
  }

  /** A failed fetch, or a caller dropped while fetching, only releases the lock. */
  function GaveUp(s: State, c: nat): State {
    if !s.PhaseOf(c).Fetching? || s.fetches == [] then s
    else s.Settle(Lost).Move(c, Resting).(holder := None)
  }

  function Cancelled(s: State, c: nat): State {
    match s.PhaseOf(c)
    case Resting => s
    case Waiting => s.Move(c, Resting)
    case Locked => s.Move(c, Resting).(holder := None)
    case Fetching(_) => GaveUp(s, c)
  }

  function Evicted(s: State): State {
    if s.holder.None? then s.(cache := None, evictions := s.evictions + 1) else s
  }

  function Apply(g: Config, s: State, e: Event): State {
    match e
    case Tick(duration) => s.(now := s.now + duration)
    case Look(c) => Looked(g, s, c)
    case Lock(c) => TookLock(s, c)
    case Recheck(c) => Rechecked(g, s, c)
    case Succeed(c, value, expiry) => Succeeded(g, s, c, value, expiry)
    case Fail(c) => GaveUp(s, c)
    case Cancel(c) => Cancelled(s, c)
    case Evict => Evicted(s)
  }

  function Run(g: Config, s: State, events: seq<Event>): State {
    if events == [] then s else Apply(g, Run(g, s, events[..|events| - 1]), events[|events| - 1])
  }

  /******* Invariant *******/

  /** The lock holder is the one caller past the lock. */
  ghost predicate LockInv(s: State) {
    && (forall c: nat :: s.PhaseOf(c).Locked? || s.PhaseOf(c).Fetching? <==> s.holder == Some(c))
    && (s.holder.Some? && s.PhaseOf(s.holder.value).Fetching? ==>
          && s.fetches != []
          && s.fetches[|s.fetches| - 1].caller == s.holder.value
          && s.fetches[|s.fetches| - 1].start == s.PhaseOf(s.holder.value).start
          && s.fetches[|s.fetches| - 1].outcome.Pending?)
  }

  predicate InFlight(s: State) {
    s.holder.Some? && s.PhaseOf(s.holder.value).Fetching?
  }

  /** Every fetch but a running last one has ended. */
  ghost predicate PendingInv(s: State) {
    forall i :: 0 <= i < |s.fetches| && s.fetches[i].outcome.Pending? ==> i == |s.fetches| - 1 && InFlight(s)
  }

  /** Facts of one fetch at time `now`. */
  predicate FetchSane(kind: Kind, f: Fetch, now: int, evictions: nat) {
    && f.start <= now && f.evictions <= evictions
    && (f.outcome.Stored? ==>
          && f.start <= f.outcome.finish <= now
          && f.evictions <= f.outcome.evictions <= evictions
          && f.outcome.stamp == StampOf(kind, f.outcome.expiry, f.start, f.outcome.finish))
  }

  ghost predicate TimeInv(kind: Kind, s: State) {
    && (forall i :: 0 <= i < |s.fetches| ==> FetchSane(kind, s.fetches[i], s.now, s.evictions))
    && (forall i, j :: 0 <= i < j < |s.fetches| ==> s.fetches[i].start <= s.fetches[j].start)
  }

  /** At time `at`, after `evictions` evictions, a stored entry has expired or was evicted. */
  predicate Spent(kind: Kind, f: Fetch, at: int, evictions: nat) {
    f.outcome.Stored? ==> f.outcome.evictions < evictions || Deadline(kind, f.outcome.stamp) <= at
  }

  /** Every stored entry is spent, unless it is the cached one and nobody is fetching. */
  ghost predicate CacheInv(kind: Kind, s: State) {
    forall i :: 0 <= i < |s.fetches| ==>
      || Spent(kind, s.fetches[i], s.now, s.evictions)
      || (!InFlight(s) && s.fetches[i].outcome.Stored?
          && s.cache == Some(Entry(s.fetches[i].outcome.value, s.fetches[i].outcome.stamp)))
  }

  /** A fetch starts only when every entry stored before it is spent. */
  ghost predicate SpacingInv(kind: Kind, s: State) {
    forall i, j :: 0 <= i < j < |s.fetches| ==>
      Spent(kind, s.fetches[i], s.fetches[j].start, s.fetches[j].evictions)
  }

  /** Whatever is answered from the cache was fresh at that instant. */
  ghost predicate ReplyInv(kind: Kind, s: State) {
    forall i :: 0 <= i < |s.replies| && s.replies[i].fromCache ==> Fresh(kind, s.replies[i].entry, s.replies[i].at)
  }

  ghost predicate Inv(kind: Kind, s: State) {
    LockInv(s) && PendingInv(s) && TimeInv(kind, s) && CacheInv(kind, s) && SpacingInv(kind, s) && ReplyInv(kind, s)
  }

  lemma InitialInv(kind: Kind, now: int)
    ensures Inv(kind, Initial(now))
  {}

  lemma TickKeepsInv(g: Config, s: State, d: nat)
    requires Inv(g.kind, s)
    ensures Inv(g.kind, Apply(g, s, Tick(d)))
  {
    var t := Apply(g, s, Tick(d));
    assert forall i :: 0 <= i < |s.fetches| ==> FetchSane(g.kind, s.fetches[i], s.now, s.evictions);
    assert InFlight(s) == InFlight(t);
    assert forall c: nat :: s.PhaseOf(c) == t.PhaseOf(c);
  }

  lemma LookKeepsInv(g: Config, s: State, c: nat)
    requires Inv(g.kind, s)
    ensures Inv(g.kind, Looked(g, s, c))
  {
    var t := Looked(g, s, c);
    assert forall d: nat :: d != c ==> s.PhaseOf(d) == t.PhaseOf(d);
    assert InFlight(s) == InFlight(t);
  }

  lemma LockKeepsInv(g: Config, s: State, c: nat)
    requires Inv(g.kind, s)
    ensures Inv(g.kind, TookLock(s, c))
  {
    var t := TookLock(s, c);
    assert forall d: nat :: d != c ==> s.PhaseOf(d) == t.PhaseOf(d);
    assert InFlight(s) == InFlight(t);
  }

  lemma RecheckKeepsInv(g: Config, s: State, c: nat)
    requires Inv(g.kind, s)
    ensures Inv(g.kind, Rechecked(g, s, c))
  {
    var t := Rechecked(g, s, c);
    assert forall d: nat :: d != c ==> s.PhaseOf(d) == t.PhaseOf(d);
    if s.PhaseOf(c).Locked? {
      assert s.holder == Some(c) && !InFlight(s);
      forall i | 0 <= i < |s.fetches| && !Served(g.kind, s.cache, s.now)
        ensures Spent(g.kind, s.fetches[i], s.now, s.evictions)
      {
        assert FetchSane(g.kind, s.fetches[i], s.now, s.evictions);
      }
    }
  }

  lemma SucceedKeepsInv(g: Config, s: State, c: nat, value: string, expiry: Expiry)
    requires Inv(g.kind, s)
    ensures Inv(g.kind, Succeeded(g, s, c, value, expiry))
  {
    var t := Succeeded(g, s, c, value, expiry);
    assert forall d: nat :: d != c ==> s.PhaseOf(d) == t.PhaseOf(d);
    if s.PhaseOf(c).Fetching? {
      assert s.holder == Some(c) && InFlight(s) && !InFlight(t);
      var last := |s.fetches| - 1;
      assert FetchSane(g.kind, s.fetches[last], s.now, s.evictions);
      assert forall i :: 0 <= i < last ==> t.fetches[i] == s.fetches[i];
    }
  }

  lemma GiveUpKeepsInv(g: Config, s: State, c: nat)
    requires Inv(g.kind, s)
    ensures Inv(g.kind, GaveUp(s, c))
  {
    var t := GaveUp(s, c);
    assert forall d: nat :: d != c ==> s.PhaseOf(d) == t.PhaseOf(d);
    if s.PhaseOf(c).Fetching? {
      assert s.holder == Some(c) && InFlight(s) && !InFlight(t);
      var last := |s.fetches| - 1;
      assert FetchSane(g.kind, s.fetches[last], s.now, s.evictions);
      assert forall i :: 0 <= i < last ==> t.fetches[i] == s.fetches[i];
    }
  }

  lemma CancelKeepsInv(g: Config, s: State, c: nat)
    requires Inv(g.kind, s)
    ensures Inv(g.kind, Cancelled(s, c))
  {
    var t := Cancelled(s, c);
    if s.PhaseOf(c).Fetching? {
      GiveUpKeepsInv(g, s, c);
    } else {
      assert forall d: nat :: d != c ==> s.PhaseOf(d) == t.PhaseOf(d);
      assert InFlight(s) == InFlight(t);
    }
  }

  lemma EvictKeepsInv(g: Config, s: State)
    requires Inv(g.kind, s)
    ensures Inv(g.kind, Evicted(s))
  {
    var t := Evicted(s);
    assert forall d: nat :: s.PhaseOf(d) == t.PhaseOf(d);
    assert forall i :: 0 <= i < |s.fetches| ==> FetchSane(g.kind, s.fetches[i], s.now, s.evictions);
  }

  lemma ApplyKeepsInv(g: Config, s: State, e: Event)
    requires Inv(g.kind, s)
    ensures Inv(g.kind, Apply(g, s, e))
  {
    hide Inv;
    match e
    case Tick(duration) => TickKeepsInv(g, s, duration);
    case Look(c) => LookKeepsInv(g, s, c);
    case Lock(c) => LockKeepsInv(g, s, c);
    case Recheck(c) => RecheckKeepsInv(g, s, c);
    case Succeed(c, value, expiry) => SucceedKeepsInv(g, s, c, value, expiry);
    case Fail(c) => GiveUpKeepsInv(g, s, c);
    case Cancel(c) => CancelKeepsInv(g, s, c);
    case Evict => EvictKeepsInv(g, s);
  }

  /** Every reachable state is sane. */
  lemma {:induction false} RunKeepsInv(g: Config, s: State, events: seq<Event>)
    requires Inv(g.kind, s)
    ensures Inv(g.kind, Run(g, s, events))
  {
    hide Inv, Apply;
    if events != [] {
      RunKeepsInv(g, s, events[..|events| - 1]);
      ApplyKeepsInv(g, Run(g, s, events[..|events| - 1]), events[|events| - 1]);
    }
  }
}
