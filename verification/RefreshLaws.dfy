/** What every run of a refresh-ahead cache guarantees. */
module RefreshLaws {
  import opened Wrappers
  import opened RefreshCache

  /** The state after any events, from an empty cache. */
  function Reached(g: Config, now: int, events: seq<Event>): State {
    Run(g, Initial(now), events)
  }

  lemma ReachedInv(g: Config, now: int, events: seq<Event>)
    ensures Inv(g.kind, Reached(g, now, events))
  {
    InitialInv(g.kind, now);
    RunKeepsInv(g, Initial(now), events);
  }

  /** At most one fetch is in flight, whatever the interleaving of callers. */
  lemma SingleFlight(g: Config, now: int, events: seq<Event>, c: nat, d: nat, i: nat, j: nat)
    ensures var s := Reached(g, now, events);
            && (s.PhaseOf(c).Fetching? && s.PhaseOf(d).Fetching? ==> c == d)
            && (i < |s.fetches| && j < |s.fetches| && s.fetches[i].outcome.Pending? && s.fetches[j].outcome.Pending?
                ==> i == j && s.PhaseOf(s.fetches[i].caller).Fetching?)
  {
    hide Run, TimeInv, CacheInv, SpacingInv, ReplyInv;
    ReachedInv(g, now, events);
  }

  /** The entry of the last fetch that stored one. */
  function LastStored(fetches: seq<Fetch>): Option<Entry> {
    if fetches == [] then None
    else
      var last := fetches[|fetches| - 1].outcome;
      if last.Stored? then Some(Entry(last.value, last.stamp)) else LastStored(fetches[..|fetches| - 1])
  }

  /** What a step does to the cache: evictions empty it, and it follows the stored fetches otherwise. */
  lemma CacheStep(g: Config, s: State, e: Event)
    requires LockInv(s)
    ensures var t := Apply(g, s, e);
            || (e.Evict? && t.cache.None? && t.fetches == s.fetches)
            || (t.cache == s.cache && LastStored(t.fetches) == LastStored(s.fetches))
            || (!e.Evict? && t.cache == LastStored(t.fetches))
  {
    var t := Apply(g, s, e);
    if |t.fetches| > |s.fetches| {
      assert t.fetches[..|s.fetches|] == s.fetches;
    } else if s.fetches != [] {
      assert t.fetches[..|t.fetches| - 1] == s.fetches[..|s.fetches| - 1];
    }
  }

  /**
   For every interleaving the cache is empty or holds exactly what the last successful
   fetch stored; failed and dropped fetches leave no trace, and without invalidation it is
   never empty again.
   */
  lemma {:induction false} CacheIsLastStored(g: Config, now: int, events: seq<Event>)
    ensures var s := Reached(g, now, events);
            && (s.cache.None? || s.cache == LastStored(s.fetches))
            && ((forall e :: e in events ==> !e.Evict?) ==> s.cache == LastStored(s.fetches))
  {
    hide Apply, LastStored;
    if events == [] {
      NothingStored();
    } else {
      var before, e := events[..|events| - 1], events[|events| - 1];
      CacheIsLastStored(g, now, before);
      ReachedInv(g, now, before);
      CacheStep(g, Reached(g, now, before), e);
    }
  }

  lemma NothingStored()
    ensures LastStored([]) == None
  {}

  /** A token from the cache has more than 60 s left at the check; a snapshot is less than 10 s old. */
  lemma CachedRepliesAreFresh(g: Config, now: int, events: seq<Event>, i: nat)
    requires i < |Reached(g, now, events).replies|
    ensures var r := Reached(g, now, events).replies[i];
            r.fromCache ==>
              && (g.kind.Token? ==> r.entry.stamp - r.at > 60 * SECOND)
              && (g.kind.Snapshot? ==> 0 <= r.at - r.entry.stamp < 10 * SECOND)
  {
    hide Run, LockInv, TimeInv, CacheInv, SpacingInv;
    ReachedInv(g, now, events);
  }

  /** A fetch that starts before a stored entry was due follows an eviction of that entry. */
  lemma EarlyFetchFollowsEviction(g: Config, now: int, events: seq<Event>, i: nat, j: nat)
    requires i < j < |Reached(g, now, events).fetches|
    requires Reached(g, now, events).fetches[i].outcome.Stored?
    ensures var first, second := Reached(g, now, events).fetches[i], Reached(g, now, events).fetches[j];
            second.start < Deadline(g.kind, first.outcome.stamp) ==> first.outcome.evictions < second.evictions
  {
    hide Run, LockInv, TimeInv, CacheInv, ReplyInv;
    ReachedInv(g, now, events);
    var s := Reached(g, now, events);
    assert Spent(g.kind, s.fetches[i], s.fetches[j].start, s.fetches[j].evictions);
  }

  lemma {:induction false} EvictionsCounted(g: Config, s: State, events: seq<Event>)
    requires forall e :: e in events ==> !e.Evict?
    ensures Run(g, s, events).evictions == s.evictions
  {
    if events != [] {
      EvictionsCounted(g, s, events[..|events| - 1]);
      assert events[|events| - 1] in events;
    }
  }

  /**
   * Without invalidation, a fetch after a stored token of lifetime L starts at least
   * L - 60 s after that token's fetch started, and a probe at least 10 s after the
   * start of any completed probe.
   */
  lemma FetchesAreSpaced(g: Config, now: int, events: seq<Event>, i: nat, j: nat)
    requires forall e :: e in events ==> !e.Evict?
    requires i < j < |Reached(g, now, events).fetches|
    requires Reached(g, now, events).fetches[i].outcome.Stored?
    ensures var first, second := Reached(g, now, events).fetches[i], Reached(g, now, events).fetches[j];
            && (g.kind.Snapshot? ==> second.start >= first.start + 10 * SECOND)
            && (g.kind.Token? && first.outcome.expiry.Lifetime? ==>
                  second.start >= first.start + first.outcome.expiry.duration - 60 * SECOND)
            && (g.kind.Token? && first.outcome.expiry.Claim? ==>
                  second.start >= first.outcome.expiry.at - 60 * SECOND)
            && (g.kind.Token? && first.outcome.expiry.Unreadable? ==>
                  second.start >= first.start + 54 * 60 * SECOND)
  {
    hide Run, LockInv, CacheInv, ReplyInv;
    ReachedInv(g, now, events);
    var s := Reached(g, now, events);
    EvictionsCounted(g, Initial(now), events);
    EarlyFetchFollowsEviction(g, now, events, i, j);
    assert FetchSane(g.kind, s.fetches[i], s.now, s.evictions);
    assert FetchSane(g.kind, s.fetches[j], s.now, s.evictions);
  }

  /** A caller that is dropped, wherever it stands, waits for nothing, holds nothing and takes nothing from the cache. */
  lemma CancelReleases(g: Config, s: State, c: nat)
    requires Inv(g.kind, s)
    ensures var t := Apply(g, s, Cancel(c));
            t.PhaseOf(c).Resting? && t.holder != Some(c) && t.cache == s.cache && t.replies == s.replies
  {
    hide TimeInv, CacheInv, SpacingInv, ReplyInv;
    assert LockInv(s);
  }
}
