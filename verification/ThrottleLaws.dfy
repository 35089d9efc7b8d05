/** When the throttle locks a key, how long the lock lasts, and what its comment promises. */
module ThrottleLaws {
  import opened Throttle

  predicate Increasing(w: seq<nat>) {
    forall i, j :: 0 <= i < j < |w| ==> w[i] < w[j]
  }

  /** The failures lie inside one window from the first. */
  predicate InWindow(log: seq<Event>, w: seq<nat>)
    requires forall i :: 0 <= i < |w| ==> w[i] < |log|
  {
    forall i :: 0 <= i < |w| ==> log[w[i]].time <= log[w[0]].time + WINDOW
  }

  /** Since the first of them the key had no success, and no failure is missing. */
  ghost predicate AllSinceFirst(log: seq<Event>, key: Key, w: seq<nat>) {
    w != [] ==> forall j :: w[0] < j < |log| && log[j].key == key ==>
                  !log[j].Success? && (log[j].Failure? ==> j in w)
  }

  lemma {:induction false} LiveIncreases(log: seq<Event>, key: Key)
    ensures Increasing(Live(log, key)) && InWindow(log, Live(log, key))
  {
    if log != [] {
      LiveIncreases(log[..|log| - 1], key);
    }
  }

  lemma {:induction false} LiveIsComplete(log: seq<Event>, key: Key)
    ensures AllSinceFirst(log, key, Live(log, key))
  {
    if log != [] {
      var n := |log| - 1;
      var before, w := Live(log[..n], key), Live(log, key);
      LiveIsComplete(log[..n], key);
      if before != [] && w != [] && w[0] == before[0] {
        forall j | w[0] < j < |log| && log[j].key == key
          ensures !log[j].Success? && (log[j].Failure? ==> j in w)
        {
          assert j < n ==> log[..n][j] == log[j];
          assert forall i :: i in before ==> i in w;
        }
      }
    }
  }

  /** A lock means five failures inside one window, without a success since the first of them. */
  lemma LockNeedsFiveFailures(log: seq<Event>, key: Key, now: nat)
    requires IsLocked(log, Live(log, key), now)
    ensures var w := Live(log, key);
            && |w| >= 5 && w[0] < w[1] < w[2] < w[3] < w[4]
            && (forall i :: 0 <= i < 5 ==> log[w[i]].Failure? && log[w[i]].key == key)
            && log[w[4]].time <= log[w[0]].time + WINDOW
            && (forall j :: w[0] < j < |log| && log[j].key == key ==> !log[j].Success?)
            && now <= log[w[0]].time + WINDOW
  {
    LiveIncreases(log, key);
    LiveIsComplete(log, key);
  }

  /** The first five live failures of a locked key stay where they are. */
  ghost predicate SameLock(log: seq<Event>, w: seq<nat>, log': seq<Event>, w': seq<nat>)
    requires forall i :: 0 <= i < |w| ==> w[i] < |log|
    requires forall i :: 0 <= i < |w'| ==> w'[i] < |log'|
  {
    && |w| >= 5 && |w'| >= 5
    && log'[w'[0]].time == log[w[0]].time && log'[w'[4]].time == log[w[4]].time
  }

  /**
   * Once five failures are live, the key stays locked through any further failures,
   * checks and other keys' events: up to one window after the first failure, and before
   * one window after the fifth.
   */
  lemma {:induction false} LockHolds(log: seq<Event>, more: seq<Event>, key: Key, now: nat)
    requires |Live(log, key)| >= 5
    requires forall i :: 0 <= i < |more| ==> more[i].time <= now && !(more[i].Success? && more[i].key == key)
    requires var w := Live(log, key); now <= log[w[0]].time + WINDOW && now < log[w[4]].time + WINDOW
    ensures SameLock(log, Live(log, key), log + more, Live(log + more, key))
    ensures IsLocked(log + more, Live(log + more, key), now)
  {
    if more == [] {
      assert log + more == log;
    } else {
      var n := |more| - 1;
      LockHolds(log, more[..n], key, now);
      assert more[n].time <= now;
      assert (log + more)[..|log + more| - 1] == log + more[..n];
      assert (log + more)[|log + more| - 1] == more[n];
    }
  }

  /******* Five consecutive failures *******/

  /** The positions of the failures of `key` from `n` up to `m`. */
  function FailuresIn(log: seq<Event>, key: Key, n: nat, m: nat): (r: seq<nat>)
    requires n <= m <= |log|
    ensures forall i :: 0 <= i < |r| ==> n <= r[i] < m
    decreases m
  {
    if n == m then []
    else
      FailuresIn(log, key, n, m - 1) + if log[m - 1].Failure? && log[m - 1].key == key then [m - 1] else []
  }

  ghost predicate InRange(log: seq<Event>, w: seq<nat>) {
    forall i :: 0 <= i < |w| ==> w[i] < |log|
  }

  /** Event `e` forgets the failures `w` and all later ones: a window after the first, or a check a window after the fifth. */
  predicate Forgets(log: seq<Event>, key: Key, w: seq<nat>, n: nat, e: nat)
    requires w != [] && (forall i :: 0 <= i < |w| ==> w[i] < |log|) && n <= e < |log|
  {
    var all := w + FailuresIn(log, key, n, e);
    && log[e].key == key
    && (WindowIsOver(log[w[0]].time, log[e].time)
        || (log[e].Check? && |all| >= 5 && LockIsOver(log[all[4]].time, log[e].time)))
  }

  ghost predicate NeverForgets(log: seq<Event>, key: Key, w: seq<nat>, n: nat, m: nat)
    requires w != [] && InRange(log, w) && n <= m <= |log|
  {
    forall e :: n <= e < m ==> !Forgets(log, key, w, n, e)
  }

  ghost predicate NoSuccess(log: seq<Event>, key: Key, n: nat, m: nat) {
    forall e :: n <= e < m && e < |log| ==> !(log[e].Success? && log[e].key == key)
  }

  lemma LiveNext(log: seq<Event>, key: Key, m: nat)
    requires m < |log|
    ensures forall i :: 0 <= i < |Live(log[..m], key)| ==> Live(log[..m], key)[i] < m
    ensures Live(log[..m + 1], key) == NextLive(log, key, Live(log[..m], key), m)
  {
    var w := Live(log[..m], key);
    assert log[..m + 1][..m] == log[..m];
    assert forall i :: 0 <= i < |w| ==> log[..m + 1][w[i]] == log[w[i]];
  }

  /** Without a success, the live failures are the old ones and all later ones, or, once forgotten, at most the later ones. */
  lemma {:induction false} LiveSince(log: seq<Event>, key: Key, n: nat, m: nat)
    requires n <= m <= |log| && Live(log[..n], key) != [] && NoSuccess(log, key, n, m)
    ensures var w, later := Live(log[..n], key), FailuresIn(log, key, n, m);
            && InRange(log, w)
            && if NeverForgets(log, key, w, n, m) then Live(log[..m], key) == w + later
               else |Live(log[..m], key)| <= |later|
    decreases m
  {
    hide Live;
    var w := Live(log[..n], key);
    if n < m {
      LiveSince(log, key, n, m - 1);
      LiveNext(log, key, m - 1);
      assert NeverForgets(log, key, w, n, m) <==>
             NeverForgets(log, key, w, n, m - 1) && !Forgets(log, key, w, n, m - 1);
      SinceStep(log, key, w, FailuresIn(log, key, n, m - 1), Live(log[..m - 1], key), n, m - 1);
    }
  }

  lemma SinceStep(log: seq<Event>, key: Key, w: seq<nat>, later: seq<nat>, live: seq<nat>, n: nat, e: nat)
    requires w != [] && InRange(log, w) && n <= e < |log| && later == FailuresIn(log, key, n, e)
    requires (forall i :: 0 <= i < |live| ==> live[i] < e) && !(log[e].Success? && log[e].key == key)
    ensures var next, more := NextLive(log, key, live, e), FailuresIn(log, key, n, e + 1);
            && (live == w + later && !Forgets(log, key, w, n, e) ==> next == w + more)
            && (live == w + later && Forgets(log, key, w, n, e) ==> |next| <= |more|)
            && (|live| <= |later| ==> |next| <= |more|)
  {
    assert live == w + later ==> live[0] == w[0];
  }

  /** Failures `p0` and `p4` of a key and exactly three between them, without a success; checks and other keys are free. */
  ghost predicate FiveInARow(log: seq<Event>, key: Key, p0: nat, p4: nat) {
    && Ordered(log) && p0 < p4 < |log|
    && log[p0].Failure? && log[p0].key == key && log[p4].Failure? && log[p4].key == key
    && NoSuccess(log, key, p0 + 1, p4 + 1)
    && |FailuresIn(log, key, p0 + 1, p4 + 1)| == 4
  }

  /** The failures that count once `p0` is recorded, and the four after it. */
  function Counting(log: seq<Event>, key: Key, p0: nat, p4: nat): seq<nat>
    requires p0 < p4 < |log|
  {
    Live(log[..p0 + 1], key) + FailuresIn(log, key, p0 + 1, p4 + 1)
  }

  lemma CountingFacts(log: seq<Event>, key: Key, p0: nat, p4: nat)
    requires FiveInARow(log, key, p0, p4)
    ensures var all := Counting(log, key, p0, p4);
            && |all| >= 5 && (forall i :: 0 <= i < |all| ==> all[i] <= p4)
            && Live(log[..p0 + 1], key) != [] && all[0] == Live(log[..p0 + 1], key)[0]
            && log[all[0]].time <= log[all[4]].time <= log[p4].time
  {
    var w, all := Live(log[..p0 + 1], key), Counting(log, key, p0, p4);
    assert log[..p0 + 1][..p0] == log[..p0];
    assert w != [] && all[0] == w[0];
    LiveIncreases(log[..p0 + 1], key);
    assert all[0] <= all[4] <= p4;
  }

  /** The key stays locked for exactly as long as the counting failures say, if they were not forgotten on the way. */
  lemma LockedAfterFive(log: seq<Event>, key: Key, p0: nat, p4: nat, now: nat)
    requires FiveInARow(log, key, p0, p4) && log[p4].time <= now
    ensures var after, all := log[..p4 + 1], Counting(log, key, p0, p4);
            && |all| >= 5 && InRange(log, all)
            && (IsLocked(after, Live(after, key), now) <==>
                  now <= log[all[0]].time + WINDOW && now < log[all[4]].time + WINDOW)
  {
    hide Live, FailuresIn, Forgets, Ordered;
    CountingFacts(log, key, p0, p4);
    var after, all, w := log[..p4 + 1], Counting(log, key, p0, p4), Live(log[..p0 + 1], key);
    LiveSince(log, key, p0 + 1, p4 + 1);
    if !NeverForgets(log, key, w, p0 + 1, p4 + 1) {
      var e :| p0 + 1 <= e < p4 + 1 && Forgets(log, key, w, p0 + 1, e);
      ForgottenTooLate(log, key, p0, p4, e);
    }
  }

  /** What forgets the failures comes too late for a lock anyway. */
  lemma ForgottenTooLate(log: seq<Event>, key: Key, p0: nat, p4: nat, e: nat)
    requires FiveInARow(log, key, p0, p4) && p0 < e <= p4
    requires var w := Live(log[..p0 + 1], key); w != [] && InRange(log, w) && Forgets(log, key, w, p0 + 1, e)
    ensures var all := Counting(log, key, p0, p4);
            && |all| >= 5 && InRange(log, all)
            && (log[p4].time > log[all[0]].time + WINDOW || log[p4].time >= log[all[4]].time + WINDOW)
  {
    CountingFacts(log, key, p0, p4);
    FailuresPrefix(log, key, p0 + 1, e, p4 + 1);
    assert log[e].time <= log[p4].time;
  }

  lemma {:induction false} FailuresPrefix(log: seq<Event>, key: Key, n: nat, e: nat, m: nat)
    requires n <= e <= m <= |log|
    ensures FailuresIn(log, key, n, e) <= FailuresIn(log, key, n, m)
    decreases m
  {
    if e < m {
      FailuresPrefix(log, key, n, e, m - 1);
    }
  }

  /**
   Five failures in a row lock the key at once exactly when the last comes at most one
   window after the oldest failure still counted at the first of them. Only when five
   counted failures are simultaneous does the exact end of the window not count.
   */
  lemma FiveInARowLockIff(log: seq<Event>, key: Key, p0: nat, p4: nat)
    requires FiveInARow(log, key, p0, p4)
    ensures var after, all, last := log[..p4 + 1], Counting(log, key, p0, p4), log[p4].time;
            && |all| >= 5 && InRange(log, all)
            && (IsLocked(after, Live(after, key), last) <==>
                  if log[all[4]].time > log[all[0]].time then last <= log[all[0]].time + WINDOW
                  else last < log[all[0]].time + WINDOW)
  {
    CountingFacts(log, key, p0, p4);
    LockedAfterFive(log, key, p0, p4, log[p4].time);
  }

  /** The comment's promise: five failures lock the key until one window after the last of them. */
  ghost predicate LockedForAWindow(log: seq<Event>, key: Key, p4: nat)
    requires p4 < |log|
  {
    var after := log[..p4 + 1];
    forall now: nat :: log[p4].time <= now < log[p4].time + WINDOW ==> IsLocked(after, Live(after, key), now)
  }

  /**
   The promise is met exactly when the last of the five comes at most one clock tick after
   the oldest failure still counted, and in the same tick as the fifth of those.
   */
  lemma PromiseIff(log: seq<Event>, key: Key, p0: nat, p4: nat)
    requires FiveInARow(log, key, p0, p4)
    ensures var all := Counting(log, key, p0, p4);
            && |all| >= 5 && InRange(log, all)
            && (LockedForAWindow(log, key, p4) <==>
                  log[p4].time <= log[all[0]].time + 1 && log[p4].time == log[all[4]].time)
  {
    CountingFacts(log, key, p0, p4);
    var after, last := log[..p4 + 1], log[p4].time;
    LockedAfterFive(log, key, p0, p4, last + WINDOW - 1);
    if last <= log[Counting(log, key, p0, p4)[0]].time + 1 && last == log[Counting(log, key, p0, p4)[4]].time {
      forall now: nat | last <= now < last + WINDOW ensures IsLocked(after, Live(after, key), now) {
        LockedAfterFive(log, key, p0, p4, now);
      }
    }
  }

  /******* Failures that break the promise *******/

  function Failures(key: Key, times: seq<nat>): (log: seq<Event>)
    ensures |log| == |times| && forall i :: 0 <= i < |log| ==> log[i] == Failure(key, times[i])
  {
    if times == [] then [] else Failures(key, times[..|times| - 1]) + [Failure(key, times[|times| - 1])]
  }

  function Range(n: nat, m: nat): (r: seq<nat>)
    requires n <= m
    ensures |r| == m - n && forall i :: 0 <= i < m - n ==> r[i] == n + i
    decreases m
  {
    if n == m then [] else Range(n, m - 1) + [m - 1]
  }

  lemma {:induction false} AllAreFailures(key: Key, times: seq<nat>, n: nat, m: nat)
    requires n <= m <= |times|
    ensures FailuresIn(Failures(key, times), key, n, m) == Range(n, m)
    decreases m
  {
    if n < m {
      AllAreFailures(key, times, n, m - 1);
    }
  }

  lemma {:induction false} LiveOfFailures(key: Key, times: seq<nat>, n: nat)
    requires n <= |times| && forall i :: 0 <= i < n ==> times[i] <= times[0] + WINDOW
    ensures Live(Failures(key, times)[..n], key) == Range(0, n)
  {
    if n > 0 {
      LiveOfFailures(key, times, n - 1);
      var log := Failures(key, times);
      assert log[..n][..n - 1] == log[..n - 1];
    }
  }

  /** In a log of one key's failures any five neighbours are in a row; those before stay counted inside the window. */
  lemma Neighbours(key: Key, times: seq<nat>, p0: nat)
    requires p0 + 5 <= |times| && forall i, j :: 0 <= i < j < |times| ==> times[i] <= times[j]
    requires forall i :: 0 <= i <= p0 ==> times[i] <= times[0] + WINDOW
    ensures FiveInARow(Failures(key, times), key, p0, p0 + 4)
    ensures Counting(Failures(key, times), key, p0, p0 + 4) == Range(0, p0 + 5)
  {
    AllAreFailures(key, times, p0 + 1, p0 + 5);
    LiveOfFailures(key, times, p0 + 1);
  }

  /** Failures one second apart: the lock is gone 3 s before the comment says. */
  lemma LockEndsEarly(key: Key)
    ensures var log := Failures(key, [0, SECOND, 2 * SECOND, 3 * SECOND, 4 * SECOND]);
            && IsLocked(log, Live(log, key), 900 * SECOND)
            && !IsLocked(log, Live(log, key), 901 * SECOND)
            && !LockedForAWindow(log, key, 4)
  {
    var times := [0, SECOND, 2 * SECOND, 3 * SECOND, 4 * SECOND];
    var log := Failures(key, times);
    assert log[..5] == log;
    Neighbours(key, times, 0);
    LockedAfterFive(log, key, 0, 4, 900 * SECOND);
    LockedAfterFive(log, key, 0, 4, 901 * SECOND);
    PromiseIff(log, key, 0, 4);
  }

  /** Five failures within 62 s that do not lock, because an older one opened the window. */
  lemma BurstDoesNotLock(key: Key)
    ensures var log := Failures(key, [0, 840 * SECOND, 840 * SECOND, 840 * SECOND, 901 * SECOND, 902 * SECOND]);
            FiveInARow(log, key, 1, 5) && !IsLocked(log, Live(log, key), 902 * SECOND)
  {
    var times := [0, 840 * SECOND, 840 * SECOND, 840 * SECOND, 901 * SECOND, 902 * SECOND];
    var log := Failures(key, times);
    assert log[..6] == log;
    Neighbours(key, times, 1);
    FiveInARowLockIff(log, key, 1, 5);
  }

  /******* The announced wait *******/

  /** The first instant at which the key is free again. */
  function LockEnd(first: nat, fifth: nat): nat {
    if first + 1 <= fifth then first + WINDOW + 1 else fifth + WINDOW
  }

  lemma LockEndIs(log: seq<Event>, w: seq<nat>, now: nat)
    requires |w| >= 5 && InRange(log, w) && log[w[0]].time <= log[w[4]].time
    ensures IsLocked(log, w, now) <==> now < LockEnd(log[w[0]].time, log[w[4]].time)
  {}

  /**
   The key stays locked throughout the announced wait exactly when at least a second is left to
   the instant it counts to, and the fifth failure came after the first by no more than the
   fraction of a second that rounding cut off, and a tick.
   */
  lemma WaitEndsWithinLockIff(log: seq<Event>, key: Key, now: nat)
    requires Ordered(log) && IsLocked(log, Live(log, key), now)
    requires forall i :: 0 <= i < |log| ==> log[i].time <= now
    ensures var w := Live(log, key);
            var first, fifth := log[w[0]].time, log[w[4]].time;
            (forall t: nat :: now <= t < now + RetryAfter(fifth, now) * SECOND ==> IsLocked(log, w, t)) <==>
            now + SECOND <= fifth + WINDOW && fifth - first <= (fifth + WINDOW - now) % SECOND + 1
  {
    hide Live, RetryAfter;
    LiveIncreases(log, key);
    var w := Live(log, key);
    assert w[0] < w[4];
    var first, fifth := log[w[0]].time, log[w[4]].time;
    var end := now + RetryAfter(fifth, now) * SECOND;
    WaitArithmetic(first, fifth, now);
    forall t: nat | now <= t < end ensures IsLocked(log, w, t) <==> t < LockEnd(first, fifth) {
      LockEndIs(log, w, t);
    }
    LockEndIs(log, w, end - 1);
  }

  lemma WaitArithmetic(first: nat, fifth: nat, now: nat)
    requires first <= fifth <= now <= first + WINDOW && now < fifth + WINDOW
    ensures now + RetryAfter(fifth, now) * SECOND <= LockEnd(first, fifth) <==>
            now + SECOND <= fifth + WINDOW && fifth - first <= (fifth + WINDOW - now) % SECOND + 1
  {
    var left := fifth + WINDOW - now;
    assert left == left / SECOND * SECOND + left % SECOND;
    assert left / SECOND >= 1 <==> left >= SECOND;
  }

  /** Failures at 0, 1, 2, 3 and 899 s: at 900 s the wait is 899 s, and one second later the key is free. */
  lemma WaitOutlastsLock(key: Key)
    ensures var log := Failures(key, [0, SECOND, 2 * SECOND, 3 * SECOND, 899 * SECOND]);
            && IsLocked(log, Live(log, key), 900 * SECOND)
            && Live(log, key) == Range(0, 5) && RetryAfter(log[4].time, 900 * SECOND) == 899
            && !IsLocked(log, Live(log, key), 901 * SECOND)
  {
    var times := [0, SECOND, 2 * SECOND, 3 * SECOND, 899 * SECOND];
    var log := Failures(key, times);
    assert log[..5] == log;
    LiveOfFailures(key, times, 5);
    Neighbours(key, times, 0);
    LockedAfterFive(log, key, 0, 4, 900 * SECOND);
    LockedAfterFive(log, key, 0, 4, 901 * SECOND);
  }
}
