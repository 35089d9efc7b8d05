/**
 * One caller's walk through a token provider, and the signing call built on it.
 * Between its own steps any other callers run: `gaps` says what they do.
 */
module TokenProvider {
  import opened Wrappers
  import opened RefreshCache

  datatype FetchEnd = Delivers(value: string, expiry: Expiry) | Breaks

  /** Blocked: the call is still waiting for the lock. */
  datatype Got = Got(entry: Entry, at: int, fromCache: bool) | Failed | Blocked

  /** Steps of everybody but `c`. */
  predicate Foreign(c: nat, events: seq<Event>) {
    forall i :: 0 <= i < |events| ==> events[i].Tick? || events[i].Evict? || events[i].caller != c
  }

  function FetchesBy(c: nat, fetches: seq<Fetch>): nat {
    if fetches == [] then 0
    else FetchesBy(c, fetches[..|fetches| - 1]) + if fetches[|fetches| - 1].caller == c then 1 else 0
  }

  /** What other callers cannot touch. */
  ghost predicate Undisturbed(c: nat, s: State, t: State) {
    && t.now >= s.now
    && t.PhaseOf(c) == s.PhaseOf(c)
    && FetchesBy(c, t.fetches) == FetchesBy(c, s.fetches)
    && (s.holder == Some(c) ==> t.holder == Some(c) && t.cache == s.cache && t.fetches == s.fetches)
  }

  lemma ForeignStep(g: Config, s: State, e: Event, c: nat)
    requires Inv(g.kind, s) && Foreign(c, [e])
    ensures Undisturbed(c, s, Apply(g, s, e))
  {
    hide TimeInv, CacheInv, SpacingInv, ReplyInv;
    assert [e][0] == e;
    var t := Apply(g, s, e);
    assert LockInv(s);
    if |t.fetches| == |s.fetches| + 1 {
      assert t.fetches[..|s.fetches|] == s.fetches;
    } else if s.fetches != [] {
      assert t.fetches[..|t.fetches| - 1] == s.fetches[..|s.fetches| - 1];
    }
  }

  /** Tokens are served until 60 s before they end, snapshots for 10 s from the start of their probe. */
  predicate Lasts(kind: Kind, e: Entry, now: int) {
    if kind.Token? then now < e.stamp - 60 * SECOND else e.stamp <= now < e.stamp + 10 * SECOND
  }

  lemma RestingHoldsNothing(kind: Kind, s: State, c: nat)
    requires Inv(kind, s) && (s.PhaseOf(c).Resting? || s.PhaseOf(c).Waiting?)
    ensures s.holder != Some(c)
  {
    hide TimeInv, CacheInv, SpacingInv, ReplyInv;
    assert LockInv(s);
  }

  class Provider {
    const config: Config
    var state: State

    ghost predicate Valid()
      reads this
    {
      Inv(config.kind, state)
    }

    constructor (config: Config, now: int)
      ensures Valid() && this.config == config && state == Initial(now)
    {
      this.config := config;
      state := Initial(now);
      InitialInv(config.kind, now);
    }

    /** One atomic step. */
    method Do(e: Event)
      requires Valid()
      modifies this
      ensures Valid() && state == Apply(config, old(state), e)
    {
      ApplyKeepsInv(config, state, e);
      state := Apply(config, state, e);
    }

    /** Other callers run. */
    method Others(c: nat, events: seq<Event>)
      requires Valid() && Foreign(c, events)
      modifies this
      ensures Valid() && Undisturbed(c, old(state), state)
      ensures events == [] ==> state == old(state)
    {
      hide Inv, Apply;
      for i := 0 to |events|
        invariant Valid() && Undisturbed(c, old(state), state)
        invariant i == 0 ==> state == old(state)
      {
        assert Foreign(c, [events[i]]);
        ForeignStep(config, state, events[i], c);
        Do(events[i]);
      }
    }

    /** Evict the cached token; waits for the lock like every writer. */
    method Invalidate(c: nat, gap: seq<Event>) returns (done: bool)
      requires Valid() && Foreign(c, gap) && state.PhaseOf(c).Resting?
      modifies this
      ensures Valid() && state.PhaseOf(c).Resting?
      ensures done ==> state.cache.None? && state.holder.None?
      ensures !done ==> state.holder.Some? && state.holder != Some(c)
      ensures gap == [] && old(state).holder.None? ==> done
      ensures FetchesBy(c, state.fetches) == FetchesBy(c, old(state).fetches)
    {
      hide Inv, Undisturbed;
      Others(c, gap);
      UndisturbedFacts(c, old(state), state);
      RestingHoldsNothing(config.kind, state, c);
      done := state.holder.None?;
      if done {
        Do(Evict);
      }
    }

    /** First look at the cache. */
    method TryCache(c: nat) returns (r: Option<Got>)
      requires Valid() && state.PhaseOf(c).Resting? && !(config.guarded && state.holder.Some?)
      modifies this
      ensures Valid() && state.now == old(state).now && state.fetches == old(state).fetches
      ensures state.holder == old(state).holder && state.cache == old(state).cache
      // A cached entry is served exactly while it is fresh.
      ensures r.Some? <==> old(state).cache.Some? && Lasts(config.kind, old(state).cache.value, old(state).now)
      ensures r.Some? ==> state.PhaseOf(c).Resting? && IsCacheHit(config, state, r.value)
      ensures r.None? ==> state.PhaseOf(c).Waiting?
    {
      hide Inv;
      Do(Look(c));
      if state.PhaseOf(c).Resting? {
        return Some(Got(state.cache.value, state.now, true));
      }
      return None;
    }

    /** Take the free lock and look again; a miss starts our fetch. */
    method LockAndRecheck(c: nat) returns (r: Option<Got>)
      requires Valid() && state.PhaseOf(c).Waiting? && state.holder.None?
      modifies this
      ensures Valid() && state.now == old(state).now
      ensures r.Some? <==> old(state).cache.Some? && Lasts(config.kind, old(state).cache.value, old(state).now)
      ensures r.Some? ==>
                && state.PhaseOf(c).Resting? && state.fetches == old(state).fetches
                && IsCacheHit(config, state, r.value)
      ensures r.None? ==>
                && state.holder == Some(c) && state.PhaseOf(c).Fetching?
                && FetchesBy(c, state.fetches) == FetchesBy(c, old(state).fetches) + 1
    {
      hide Inv;
      Do(Lock(c));
      ghost var locked := state;
      Do(Recheck(c));
      if state.PhaseOf(c).Resting? {
        return Some(Got(state.cache.value, state.now, true));
      }
      OneMoreFetch(config, locked, c);
      return None;
    }

    /** Our fetch ends; only a delivered token is stored. */
    method FinishFetch(c: nat, end: FetchEnd) returns (r: Got)
      requires Valid() && state.holder == Some(c) && state.PhaseOf(c).Fetching?
      modifies this
      ensures Valid() && state.now == old(state).now && state.PhaseOf(c).Resting? && state.holder.None?
      ensures FetchesBy(c, state.fetches) == FetchesBy(c, old(state).fetches)
      ensures end.Breaks? ==> r.Failed? && state.cache == old(state).cache
      ensures end.Delivers? ==> IsFetched(state, r, end)
      // An access token lasts from now, an identity token as claimed or 55 minutes, a snapshot from the start of its probe.
      ensures end.Delivers? ==>
                r.entry.stamp == (if config.kind.Snapshot? then old(state).PhaseOf(c).start
                                  else if end.expiry.Lifetime? then state.now + end.expiry.duration
                                  else if end.expiry.Claim? then end.expiry.at
                                  else state.now + 55 * 60 * SECOND)
    {
      assert LockInv(state);
      SettleKeepsCount(c, state.fetches, Lost);
      if end.Breaks? {
        Do(Fail(c));
        return Failed;
      }
      var stamp := StampOf(config.kind, end.expiry, state.PhaseOf(c).start, state.now);
      SettleKeepsCount(c, state.fetches, Stored(end.value, stamp, end.expiry, state.now, state.evictions));
      Do(Succeed(c, end.value, end.expiry));
      r := Got(state.cache.value, state.now, false);
    }

    /** Return a token, from the cache or by one fetch of our own. */
    method GetOrRefresh(c: nat, gaps: seq<seq<Event>>, end: FetchEnd) returns (r: Got)
      requires Valid() && |gaps| == 3 && forall i :: 0 <= i < 3 ==> Foreign(c, gaps[i])
      requires state.PhaseOf(c).Resting?
      modifies this
      ensures Valid() && (!r.Blocked? ==> state.PhaseOf(c).Resting?)
      // A cached token was fresh when it was looked at, during this call.
      ensures r.Got? && r.fromCache ==> IsCacheHit(config, state, r) && r.at >= old(state).now
      // Exactly one fetch of our own, unless the answer came from the cache or the call still waits.
      ensures FetchesBy(c, state.fetches) - FetchesBy(c, old(state).fetches) ==
              if r.Failed? || (r.Got? && !r.fromCache) then 1 else 0
      // A fetched token is now the cached one, stamped as the server said.
      ensures r.Got? && !r.fromCache ==> end.Delivers? && IsFetched(state, r, end)
      ensures r.Failed? ==> end.Breaks?
      // A call waits only for a lock that somebody else holds.
      ensures r.Blocked? ==> state.holder.Some? && state.holder != Some(c)
      ensures !r.Blocked? && gaps[0] == gaps[1] == gaps[2] == [] && old(state).holder.None? ==> state.holder.None?
      ensures gaps[0] == gaps[1] == [] && old(state).holder.None? ==> !r.Blocked?
      // Left alone, a fresh cached token is returned and any other is fetched.
      ensures gaps[0] == gaps[1] == [] && old(state).holder.None? && !r.Failed? ==>
                (r.fromCache <==> old(state).cache.Some? && Lasts(config.kind, old(state).cache.value, old(state).now))
      ensures gaps[0] == gaps[1] == [] && old(state).holder.None? && r.Got? && r.fromCache ==>
                Some(r.entry) == old(state).cache
    {
      hide Inv, Undisturbed, IsCacheHit, IsFetched, Lasts;
      Others(c, gaps[0]);
      UndisturbedFacts(c, old(state), state);
      RestingHoldsNothing(config.kind, state, c);
      if config.guarded && state.holder.Some? {
        return Blocked;
      }
      var hit := TryCache(c);
      if hit.Some? {
        IsHitFacts(config, state, hit.value);
        return hit.value;
      }
      ghost var waiting := state;
      Others(c, gaps[1]);
      UndisturbedFacts(c, waiting, state);
      RestingHoldsNothing(config.kind, state, c);
      if state.holder.Some? {
        return Blocked;
      }
      hit := LockAndRecheck(c);
      if hit.Some? {
        IsHitFacts(config, state, hit.value);
        return hit.value;
      }
      ghost var fetching := state;
      Others(c, gaps[2]);
      UndisturbedFacts(c, fetching, state);
      r := FinishFetch(c, end);
      FetchedFacts(state, r, end);
    }
  }

  /** The reply is the cached entry, fresh now. */
  predicate IsCacheHit(g: Config, s: State, r: Got) {
    && r.Got? && r.fromCache && r.at == s.now
    && s.cache == Some(r.entry) && Fresh(g.kind, r.entry, r.at)
  }

  lemma IsHitFacts(g: Config, s: State, r: Got)
    requires IsCacheHit(g, s, r)
    ensures r.Got? && r.fromCache && r.at == s.now && s.cache == Some(r.entry)
  {}

  /** The reply is what the server delivered, and it is cached. */
  predicate IsFetched(s: State, r: Got, end: FetchEnd) {
    && r.Got? && !r.fromCache && end.Delivers? && r.entry.value == end.value && r.at == s.now
    && s.cache == Some(r.entry) && s.fetches != []
    && s.fetches[|s.fetches| - 1].outcome == Stored(end.value, r.entry.stamp, end.expiry, r.at, s.evictions)
  }

  lemma FetchedFacts(s: State, r: Got, end: FetchEnd)
    requires end.Delivers? ==> IsFetched(s, r, end)
    ensures end.Delivers? ==> r.Got? && !r.fromCache
  {}

  lemma UndisturbedFacts(c: nat, s: State, t: State)
    requires Undisturbed(c, s, t)
    ensures t.now >= s.now && t.PhaseOf(c) == s.PhaseOf(c) && FetchesBy(c, t.fetches) == FetchesBy(c, s.fetches)
    ensures s.holder == Some(c) ==> t.holder == Some(c) && t.cache == s.cache && t.fetches == s.fetches
  {}

  lemma OneMoreFetch(g: Config, s: State, c: nat)
    requires s.PhaseOf(c).Locked? && !Served(g.kind, s.cache, s.now)
    ensures FetchesBy(c, Rechecked(g, s, c).fetches) == FetchesBy(c, s.fetches) + 1
  {
    assert Rechecked(g, s, c).fetches[..|s.fetches|] == s.fetches;
  }

  lemma SettleKeepsCount(c: nat, fetches: seq<Fetch>, o: Outcome)
    requires fetches != []
    ensures FetchesBy(c, fetches[|fetches| - 1 := fetches[|fetches| - 1].(outcome := o)]) == FetchesBy(c, fetches)
  {
    var n := |fetches| - 1;
    assert fetches[n := fetches[n].(outcome := o)][..n] == fetches[..n];
  }

  /******* Signing *******/

  datatype Response = Response(status: nat, signature: Option<string>) | NoResponse

  datatype Signed =
    | Signature(hex: string)
    | TokenUnavailable
    | Unreachable
    | Refused403
    | Throttled429
    | Upstream
    | StillWaiting

  /** A signature only for status 200 with a readable body. */
  function ParseResponse(r: Response): Signed {
    if r.NoResponse? then Unreachable
    else if r.status == 200 then (if r.signature.Some? then Signature(r.signature.value) else Upstream)
    else if r.status == 403 then Refused403
    else if r.status == 429 then Throttled429
    else Upstream
  }

  /** What the last response makes of the call. */
  ghost predicate Answers(r: Signed, last: Response) {
    && (forall x :: r == Signature(x) <==> last.Response? && last.status == 200 && last.signature == Some(x))
    && (r.Unreachable? <==> last.NoResponse?)
    && (r.Refused403? <==> last.Response? && last.status == 403)
    && (r.Throttled429? <==> last.Response? && last.status == 429)
    && !r.TokenUnavailable? && !r.StillWaiting?
  }

  lemma ParsedAnswers(last: Response)
    ensures Answers(ParseResponse(last), last)
  {}

  /** Nobody else does anything. */
  predicate AllEmpty(gaps: seq<seq<seq<Event>>>) {
    forall i, j :: 0 <= i < |gaps| && 0 <= j < |gaps[i]| ==> gaps[i][j] == []
  }

  /**
   * The signing call: a second POST only after a 401 for a token that came from the
   * cache, so at most two POSTs and at most one metadata fetch.
   */
  method CallSignBlob(p: Provider, c: nat, gaps: seq<seq<seq<Event>>>, ends: seq<FetchEnd>, responses: seq<Response>)
    returns (r: Signed, posts: nat, fromCache: bool)
    requires p.Valid() && p.state.PhaseOf(c).Resting?
    requires |gaps| == 3 && |ends| == 2 && |responses| == 2
    requires forall i :: 0 <= i < 3 ==> |gaps[i]| == 3 && forall j :: 0 <= j < 3 ==> Foreign(c, gaps[i][j])
    modifies p
    ensures p.Valid()
    ensures posts <= 2
    ensures FetchesBy(c, p.state.fetches) - FetchesBy(c, old(p.state).fetches) <= 1
    // Never a second try for a token this call fetched itself.
    ensures posts == 2 ==> fromCache && responses[0].Response? && responses[0].status == 401
    // The last response decides, unless it is a 401 for a cached token or there was none.
    ensures posts == 2 || (posts == 1 && !(fromCache && responses[0].Response? && responses[0].status == 401)) ==>
              Answers(r, responses[posts - 1])
    ensures posts == 0 || (posts == 1 && fromCache && responses[0].Response? && responses[0].status == 401) ==>
              r.TokenUnavailable? || r.StillWaiting?
    ensures r.TokenUnavailable? ==> posts < 2 && ends[posts].Breaks?
    // The call waits only for a lock that somebody else holds.
    ensures r.StillWaiting? ==> p.state.holder.Some? && p.state.holder != Some(c)
    ensures AllEmpty(gaps) && old(p.state).holder.None? ==> !r.StillWaiting?
  {
    hide Inv, Fresh, Lasts, ParseResponse, Answers;
    ParsedAnswers(responses[0]);
    ParsedAnswers(responses[1]);
    posts, fromCache := 0, false;
    var first := p.GetOrRefresh(c, gaps[0], ends[0]);
    if first.Failed? {
      return TokenUnavailable, posts, fromCache;
    }
    if first.Blocked? {
      return StillWaiting, posts, fromCache;
    }
    posts, fromCache := 1, first.fromCache;
    if responses[0].Response? && responses[0].status == 401 && first.fromCache {
      var gone := p.Invalidate(c, gaps[1][0]);
      if !gone {
        return StillWaiting, posts, fromCache;
      }
      var second := p.GetOrRefresh(c, gaps[2], ends[1]);
      if second.Failed? {
        return TokenUnavailable, posts, fromCache;
      }
      if second.Blocked? {
        return StillWaiting, posts, fromCache;
      }
      posts := 2;
      return ParseResponse(responses[1]), posts, fromCache;
    }
    return ParseResponse(responses[0]), posts, fromCache;
  }
}
