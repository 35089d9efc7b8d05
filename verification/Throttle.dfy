/**
 * The login throttle: a three-field record per e-mail key stands for the whole history
 * of failures. Time is in nanoseconds of a monotone clock and is a parameter.
 */
module Throttle {
  import opened Wrappers

  const SECOND: nat := 1_000_000_000
  const WINDOW: nat := 900 * SECOND
  const MAX_FAILURES: nat := 5

  type Key = string

  datatype Event =
    | Failure(key: Key, time: nat)
    | Success(key: Key, time: nat)
    | Check(key: Key, time: nat)

  predicate Ordered(log: seq<Event>) {
    forall i, j :: 0 <= i < j < |log| ==> log[i].time <= log[j].time
  }

  /******* The reference: positions of the failures since the last reset *******/

  /** Five failures, and the fifth a full window ago. */
  predicate LockIsOver(fifth: nat, now: nat) {
    now >= fifth + WINDOW
  }

  predicate WindowIsOver(first: nat, now: nat) {
    now > first + WINDOW
  }

  /** Event `m` on the list of failures that count before it. */
  function NextLive(log: seq<Event>, key: Key, w: seq<nat>, m: nat): seq<nat>
    requires m < |log| && forall i :: 0 <= i < |w| ==> w[i] < m
  {
    var now := log[m].time;
    if log[m].key != key then w
    else
      match log[m]
      case Success(_, _) => []
      case Failure(_, _) => if w != [] && WindowIsOver(log[w[0]].time, now) then [m] else w + [m]
      case Check(_, _) =>
        if w == [] || WindowIsOver(log[w[0]].time, now) then []
        else if |w| >= MAX_FAILURES && LockIsOver(log[w[4]].time, now) then []
        else w
  }

  /** Which failures of `key` still count after the log. */
  function Live(log: seq<Event>, key: Key): (w: seq<nat>)
    ensures forall i :: 0 <= i < |w| ==> w[i] < |log| && log[w[i]].Failure? && log[w[i]].key == key
  {
    if log == [] then []
    else
      var n := |log| - 1;
      var w := Live(log[..n], key);
      NextLive(log, key, w, n)
  }

  /** Does a check at `now` find the key locked? */
  predicate IsLocked(log: seq<Event>, w: seq<nat>, now: nat)
    requires forall i :: 0 <= i < |w| ==> w[i] < |log|
  {
    |w| >= MAX_FAILURES && !WindowIsOver(log[w[0]].time, now) && !LockIsOver(log[w[4]].time, now)
  }

  /** The announced wait: whole seconds left until one window after the fifth failure, at least one. */
  function RetryAfter(fifth: nat, now: nat): (r: nat)
    requires fifth <= now < fifth + WINDOW
    ensures 1 <= r <= 900
    // Less than a second short of that instant, and past it only when the minimum applies.
    ensures r == 1 || now + r * SECOND <= fifth + WINDOW < now + (r + 1) * SECOND
  {
    var seconds := (fifth + WINDOW - now) / SECOND;
    if seconds < 1 then 1 else seconds
  }

  /******* The compact record *******/

  datatype Entry = Entry(count: nat, first: nat, fifth: Option<nat>)

  function EntryOf(log: seq<Event>, w: seq<nat>): Option<Entry>
    requires forall i :: 0 <= i < |w| ==> w[i] < |log|
  {
    if w == [] then None
    else Some(Entry(|w|, log[w[0]].time, if |w| >= MAX_FAILURES then Some(log[w[4]].time) else None))
  }

  function Lookup(m: map<Key, Entry>, key: Key): Option<Entry> {
    if key in m then Some(m[key]) else None
  }

  /** The map holds, for every key, the record of its live failures. */
  ghost predicate Represents(m: map<Key, Entry>, log: seq<Event>) {
    forall key: Key :: Lookup(m, key) == EntryOf(log, Live(log, key))
  }

  class ThrottleStore {
    var inner: map<Key, Entry>
    ghost var log: seq<Event>

    ghost predicate Valid()
      reads this
    {
      Ordered(log) && Represents(inner, log)
    }

    /** The clock has not gone back. */
    ghost predicate NotBefore(now: nat)
      reads this
    {
      forall i :: 0 <= i < |log| ==> log[i].time <= now
    }

    constructor ()
      ensures Valid() && log == []
    {
      inner := map[];
      log := [];
    }

    method IsThrottled(key: Key, now: nat) returns (r: Option<nat>)
      requires Valid() && NotBefore(now)
      modifies this
      ensures Valid() && log == old(log) + [Check(key, now)]
      ensures var w := Live(old(log), key);
              r == if IsLocked(old(log), w, now) then Some(RetryAfter(old(log)[w[4]].time, now)) else None
    {
      hide Represents;
      RecordOf(inner, log, key, now);
      CheckOnRecord(log, key, now);
      ghost var before := inner;
      if key !in inner {
        r := None;
      } else if now - inner[key].first > WINDOW {
        inner := inner - {key};
        r := None;
      } else if inner[key].fifth.None? {
        r := None;
      } else {
        var count, elapsed := inner[key].count, now - inner[key].fifth.value;
        if elapsed >= WINDOW {
          inner := inner - {key};
          r := None;
        } else if count >= MAX_FAILURES {
          var remaining := (WINDOW - elapsed) / SECOND;
          r := Some(if remaining < 1 then 1 else remaining);
        } else {
          r := None;
        }
      }
      UpdateRepresents(before, log, Check(key, now), inner);
      log := log + [Check(key, now)];
    }

    method RecordFailure(key: Key, now: nat)
      requires Valid() && NotBefore(now)
      modifies this
      ensures Valid() && log == old(log) + [Failure(key, now)]
    {
      hide Represents;
      RecordOf(inner, log, key, now);
      FailureOnRecord(log, key, now);
      var entry := if key in inner then inner[key] else Entry(0, now, None);
      if now - entry.first > WINDOW {
        entry := Entry(0, now, None);
      }
      entry := entry.(count := entry.count + 1);
      if entry.count == MAX_FAILURES {
        entry := entry.(fifth := Some(now));
      }
      UpdateRepresents(inner, log, Failure(key, now), inner[key := entry]);
      inner := inner[key := entry];
      log := log + [Failure(key, now)];
    }

    method RecordSuccess(key: Key, now: nat)
      requires Valid() && NotBefore(now)
      modifies this
      ensures Valid() && log == old(log) + [Success(key, now)]
      ensures key !in inner
    {
      hide Represents;
      SuccessOnRecord(log, key, now);
      UpdateRepresents(inner, log, Success(key, now), inner - {key});
      log := log + [Success(key, now)];
      inner := inner - {key};
    }
  }

  /******* One event on the record *******/

  function AfterCheck(e: Option<Entry>, now: nat): Option<Entry> {
    if e.None? || WindowIsOver(e.value.first, now) then None
    else if e.value.fifth.Some? && LockIsOver(e.value.fifth.value, now) then None
    else e
  }

  function AfterFailure(e: Option<Entry>, now: nat): Entry {
    if e.None? || WindowIsOver(e.value.first, now) then Entry(1, now, None)
    else
      var count := e.value.count + 1;
      Entry(count, e.value.first, if count == MAX_FAILURES then Some(now) else e.value.fifth)
  }

  lemma CheckOnRecord(log: seq<Event>, key: Key, now: nat)
    ensures var after := log + [Check(key, now)];
            EntryOf(after, Live(after, key)) == AfterCheck(EntryOf(log, Live(log, key)), now)
  {
    assert (log + [Check(key, now)])[..|log|] == log;
  }

  lemma FailureOnRecord(log: seq<Event>, key: Key, now: nat)
    ensures var after := log + [Failure(key, now)];
            EntryOf(after, Live(after, key)) == Some(AfterFailure(EntryOf(log, Live(log, key)), now))
  {
    assert (log + [Failure(key, now)])[..|log|] == log;
  }

  lemma SuccessOnRecord(log: seq<Event>, key: Key, now: nat)
    ensures var after := log + [Success(key, now)]; EntryOf(after, Live(after, key)) == None
  {
    assert (log + [Success(key, now)])[..|log|] == log;
  }

  /** An event leaves the record of every other key. */
  lemma OtherKey(log: seq<Event>, e: Event, key: Key)
    requires key != e.key
    ensures EntryOf(log + [e], Live(log + [e], key)) == EntryOf(log, Live(log, key))
  {
    assert (log + [e])[..|log|] == log;
  }

  /** Replacing the event's own record keeps the whole map in step with the log. */
  lemma UpdateRepresents(m: map<Key, Entry>, log: seq<Event>, e: Event, m': map<Key, Entry>)
    requires Represents(m, log)
    requires forall k: Key :: k != e.key ==> Lookup(m', k) == Lookup(m, k)
    requires Lookup(m', e.key) == EntryOf(log + [e], Live(log + [e], e.key))
    ensures Represents(m', log + [e])
  {
    hide EntryOf;
    forall k: Key ensures Lookup(m', k) == EntryOf(log + [e], Live(log + [e], k)) {
      if k != e.key {
        OtherKey(log, e, k);
      }
    }
  }

  lemma RecordOf(m: map<Key, Entry>, log: seq<Event>, key: Key, now: nat)
    requires Represents(m, log) && forall i :: 0 <= i < |log| ==> log[i].time <= now
    ensures Lookup(m, key) == EntryOf(log, Live(log, key))
    ensures key in m ==> m[key].first <= now && (m[key].fifth.Some? ==> m[key].fifth.value <= now)
  {
    assert Lookup(m, key) == EntryOf(log, Live(log, key));
  }
}
