/**
 * The judge panel: tally of verdicts, outcome, and redaction of a reason that quotes a
 * source. Lower-casing is a parameter; it may lengthen a text, at most to the double.
 */
module JudgePanel {
  import opened Texts

  datatype Verdict = Present | Absent | Contradiction | Unclear
  datatype Outcome = Confirmed | Refused | Indecisive
  datatype Opinion = Opinion(verdict: Verdict, reason: string)
  datatype Tally = Tally(verdict: Verdict, reason: string, majority: bool)

  const MAJORITY: nat := 2
  const PRIORITY := [Contradiction, Absent, Present, Unclear]

  /** The place of a verdict in the order of priority. */
  function Rank(v: Verdict): (i: nat)
    ensures i < |PRIORITY| && PRIORITY[i] == v
  {
    match v
    case Contradiction => 0
    case Absent => 1
    case Present => 2
    case Unclear => 3
  }

  /******* Tally *******/

  /** The reasons given with one verdict, in the judges' order. */
  function ReasonsFor(opinions: seq<Opinion>, v: Verdict): seq<string> {
    if opinions == [] then []
    else
      var last := opinions[|opinions| - 1];
      ReasonsFor(opinions[..|opinions| - 1], v) + if last.verdict == v then [last.reason] else []
  }

  function Votes(opinions: seq<Opinion>, v: Verdict): nat {
    |ReasonsFor(opinions, v)|
  }

  predicate Wins(opinions: seq<Opinion>, v: Verdict) {
    Votes(opinions, v) >= MAJORITY
  }

  /** `r` is the first non-empty reason, or the fallback when all are empty. */
  predicate IsFirstReason(reasons: seq<string>, fallback: string, r: string) {
    || (r == fallback && forall i :: 0 <= i < |reasons| ==> reasons[i] == "")
    || exists i :: 0 <= i < |reasons| && reasons[i] == r && r != "" && forall j :: 0 <= j < i ==> reasons[j] == ""
  }

  /** `r` is the reason of the first judge of this verdict who gave one, or the fallback when none did. */
  ghost predicate IsFirstOpinion(opinions: seq<Opinion>, v: Verdict, fallback: string, r: string) {
    || (r == fallback && forall i :: 0 <= i < |opinions| && opinions[i].verdict == v ==> opinions[i].reason == "")
    || exists i :: 0 <= i < |opinions| && IsFirstGiven(opinions, v, i) && opinions[i].reason == r
  }

  predicate IsFirstGiven(opinions: seq<Opinion>, v: Verdict, i: nat)
    requires i < |opinions|
  {
    && opinions[i].verdict == v && opinions[i].reason != ""
    && forall j :: 0 <= j < i && opinions[j].verdict == v ==> opinions[j].reason == ""
  }

  /** The judges who gave this verdict. */
  function Positions(opinions: seq<Opinion>, v: Verdict): (r: seq<nat>)
    ensures forall i :: 0 <= i < |r| ==> r[i] < |opinions| && opinions[r[i]].verdict == v
    ensures forall i, j :: 0 <= i < j < |r| ==> r[i] < r[j]
    ensures forall k :: 0 <= k < |opinions| && opinions[k].verdict == v ==> k in r
  {
    if opinions == [] then []
    else
      var n := |opinions| - 1;
      Positions(opinions[..n], v) + if opinions[n].verdict == v then [n] else []
  }

  lemma {:induction false} ReasonsAtPositions(opinions: seq<Opinion>, v: Verdict)
    ensures var r := Positions(opinions, v);
            && |ReasonsFor(opinions, v)| == |r|
            && forall i :: 0 <= i < |r| ==> ReasonsFor(opinions, v)[i] == opinions[r[i]].reason
  {
    if opinions != [] {
      ReasonsAtPositions(opinions[..|opinions| - 1], v);
    }
  }

  lemma FirstReasonIsFirstOpinion(opinions: seq<Opinion>, v: Verdict, fallback: string, r: string)
    requires IsFirstReason(ReasonsFor(opinions, v), fallback, r)
    ensures IsFirstOpinion(opinions, v, fallback, r)
  {
    hide ReasonsFor, Positions;
    var reasons, at := ReasonsFor(opinions, v), Positions(opinions, v);
    ReasonsAtPositions(opinions, v);
    if i :| 0 <= i < |reasons| && reasons[i] == r && r != "" && forall j :: 0 <= j < i ==> reasons[j] == "" {
      forall k | 0 <= k < at[i] && opinions[k].verdict == v ensures opinions[k].reason == "" {
        var j :| 0 <= j < |at| && at[j] == k;
        assert reasons[j] == "";
      }
      assert IsFirstGiven(opinions, v, at[i]);
    } else {
      forall k | 0 <= k < |opinions| && opinions[k].verdict == v ensures opinions[k].reason == "" {
        var j :| 0 <= j < |at| && at[j] == k;
        assert reasons[j] == "";
      }
    }
  }

  /** Fill one list of reasons per verdict, then take the first candidate with two votes. */
  method AggregateVerdicts(opinions: seq<Opinion>, fallback: string) returns (t: Tally)
    ensures IsTally(opinions, t)
    ensures !t.majority ==> t.reason == fallback
    ensures t.majority ==>
              && IsFirstOpinion(opinions, t.verdict, fallback, t.reason)
              // No candidate before it in the order of priority wins too.
              && (forall v :: Rank(v) < Rank(t.verdict) ==> !Wins(opinions, v))
  {
    hide IsFirstOpinion, IsFirstReason;
    var tally := map[Present := [], Absent := [], Contradiction := [], Unclear := []];
    forall v: Verdict ensures v in tally && tally[v] == [] {
      match v
      case Present =>
      case Absent =>
      case Contradiction =>
      case Unclear =>
    }
    for i := 0 to |opinions|
      invariant forall v: Verdict :: v in tally
      invariant forall v: Verdict :: tally[v] == ReasonsFor(opinions[..i], v)
    {
      assert opinions[..i + 1][..i] == opinions[..i];
      var v := opinions[i].verdict;
      tally := tally[v := tally[v] + [opinions[i].reason]];
    }
    assert opinions[..|opinions|] == opinions;
    for i := 0 to |PRIORITY|
      invariant forall v :: Rank(v) < i ==> !Wins(opinions, v)
    {
      var candidate := PRIORITY[i];
      assert Rank(candidate) == i;
      assert tally[candidate] == ReasonsFor(opinions, candidate);
      if |tally[candidate]| >= MAJORITY {
        var reason := FirstReason(tally[candidate], fallback);
        FirstReasonIsFirstOpinion(opinions, candidate, fallback, reason);
        return Tally(candidate, reason, true);
      }
      assert forall v :: Rank(v) == i ==> v == candidate;
    }
    return Tally(Unclear, fallback, false);
  }

  method FirstReason(reasons: seq<string>, fallback: string) returns (r: string)
    ensures IsFirstReason(reasons, fallback, r)
  {
    for i := 0 to |reasons|
      invariant forall j :: 0 <= j < i ==> reasons[j] == ""
    {
      if reasons[i] != "" {
        return reasons[i];
      }
    }
    return fallback;
  }

  function DeriveOutcome(v: Verdict, raise: bool): Outcome {
    if raise then Confirmed else if v == Present then Refused else Indecisive
  }

  predicate Triggers(v: Verdict) {
    v == Absent || v == Contradiction
  }

  function OutcomeOf(t: Tally): Outcome {
    DeriveOutcome(t.verdict, t.majority && Triggers(t.verdict))
  }

  lemma {:induction false} VotesAddUp(opinions: seq<Opinion>)
    ensures Votes(opinions, Present) + Votes(opinions, Absent) + Votes(opinions, Contradiction)
            + Votes(opinions, Unclear) == |opinions|
  {
    if opinions != [] {
      VotesAddUp(opinions[..|opinions| - 1]);
    }
  }

  /** Among three judges at most one verdict can win, so the order of priority never decides. */
  lemma OneWinner(opinions: seq<Opinion>, v: Verdict, w: Verdict)
    requires |opinions| == 3 && Wins(opinions, v) && Wins(opinions, w)
    ensures v == w
  {
    hide Votes;
    VotesAddUp(opinions);
  }

  /** The votes of one verdict as a multiset count. */
  lemma {:induction false} VotesArePermutationFree(opinions: seq<Opinion>, v: Verdict)
    ensures Votes(opinions, v) == multiset(VerdictsOf(opinions))[v]
  {
    if opinions != [] {
      var n := |opinions| - 1;
      VotesArePermutationFree(opinions[..n], v);
      assert VerdictsOf(opinions) == VerdictsOf(opinions[..n]) + [opinions[n].verdict];
    }
  }

  function VerdictsOf(opinions: seq<Opinion>): seq<Verdict> {
    if opinions == [] then [] else VerdictsOf(opinions[..|opinions| - 1]) + [opinions[|opinions| - 1].verdict]
  }

  /** A tally as `AggregateVerdicts` promises it. */
  ghost predicate IsTally(opinions: seq<Opinion>, t: Tally) {
    && (!t.majority ==> t.verdict == Unclear && forall v :: !Wins(opinions, v))
    && (t.majority ==> Wins(opinions, t.verdict))
  }

  /** Whatever the order in which three judges answer, verdict, majority and outcome are the same. */
  lemma OrderOfJudgesIsIrrelevant(a: seq<Opinion>, b: seq<Opinion>, s: Tally, t: Tally)
    requires |a| == 3 && multiset(VerdictsOf(a)) == multiset(VerdictsOf(b)) && |b| == 3
    requires IsTally(a, s) && IsTally(b, t)
    ensures s.verdict == t.verdict && s.majority == t.majority && OutcomeOf(s) == OutcomeOf(t)
  {
    hide Votes;
    forall v: Verdict ensures Votes(a, v) == Votes(b, v) {
      VotesArePermutationFree(a, v);
      VotesArePermutationFree(b, v);
    }
    if s.majority {
      assert Wins(b, s.verdict);
      OneWinner(b, s.verdict, t.verdict);
    }
    if t.majority {
      assert Wins(a, t.verdict);
      OneWinner(a, s.verdict, t.verdict);
    }
  }

  /** Confirmed exactly when two judges agree on absent or contradiction; refused exactly when two see it present. */
  lemma OutcomeNeedsTwoVotes(opinions: seq<Opinion>, t: Tally)
    requires |opinions| == 3 && IsTally(opinions, t)
    ensures OutcomeOf(t) == Confirmed <==> Votes(opinions, Absent) >= 2 || Votes(opinions, Contradiction) >= 2
    ensures OutcomeOf(t) == Refused <==> Votes(opinions, Present) >= 2
  {
    hide Votes;
    assert forall v :: Wins(opinions, v) <==> Votes(opinions, v) >= 2;
    forall v: Verdict | t.majority && Wins(opinions, v) ensures v == t.verdict {
      OneWinner(opinions, v, t.verdict);
    }
  }

  /******* Redaction *******/

  const STEP: nat := 24

  datatype Source = Source(path: string, ordinal: nat, body: string)

  predicate Occurs(p: string, s: string) {
    exists i: nat :: i <= |s| && At(s, p, i)
  }

  /** One of the consecutive 24-character windows of `body` occurs in `reason`. */
  predicate WindowOccurs(reason: string, body: string) {
    exists k: nat :: k < |body| && IsLeak(reason, body, k)
  }

  predicate IsLeak(reason: string, body: string, k: nat) {
    k * STEP + STEP <= |body| && Occurs(body[k * STEP..k * STEP + STEP], reason)
  }

  /** The check as the code makes it, on lower-cased texts; `size` is the length of the body before. */
  predicate Caught(reason: string, body: string, size: nat) {
    size >= STEP && WindowOccurs(reason, body)
  }

  method RedactReason(lower: string -> string, reason: string, safe: string, sources: seq<Source>) returns (r: string)
    ensures r == if exists i :: 0 <= i < |sources| && Caught(lower(reason), lower(sources[i].body), |sources[i].body|)
                 then safe else reason
    // A reason let through shares no run of 47 characters with any source body.
    ensures r != safe ==> forall i :: 0 <= i < |sources| && |lower(sources[i].body)| <= 2 * |sources[i].body| ==>
                            !SharesRun(lower(r), lower(sources[i].body), 47)
  {
    hide Occurs;
    var reasonLower := lower(reason);
    for i := 0 to |sources|
      invariant forall j :: 0 <= j < i ==> !Caught(reasonLower, lower(sources[j].body), |sources[j].body|)
    {
      if |sources[i].body| >= STEP {
        var body := lower(sources[i].body);
        var k: nat := 0;
        while k * STEP + STEP <= |body|
          invariant forall j: nat :: j < k ==> !IsLeak(reasonLower, body, j)
          decreases |body| - k * STEP
        {
          if Occurs(body[k * STEP..k * STEP + STEP], reasonLower) {
            assert IsLeak(reasonLower, body, k);
            return safe;
          }
          k := k + 1;
        }
        assert forall j: nat :: IsLeak(reasonLower, body, j) ==> j < k;
      }
    }
    forall i | 0 <= i < |sources| && |lower(sources[i].body)| <= 2 * |sources[i].body|
      ensures !SharesRun(reasonLower, lower(sources[i].body), 47)
    {
      if SharesRun(reasonLower, lower(sources[i].body), 47) {
        LongRunIsCaught(reasonLower, lower(sources[i].body), |sources[i].body|, 47);
      }
    }
    return reason;
  }

  /** `a` and `b` have a run of `n` characters in common. */
  ghost predicate SharesRun(a: string, b: string, n: nat) {
    exists i: nat, j: nat :: SameRun(a, b, i, j, n)
  }

  predicate SameRun(a: string, b: string, i: nat, j: nat, n: nat) {
    i + n <= |a| && j + n <= |b| && a[i..i + n] == b[j..j + n]
  }

  /** What passing the check guarantees: no common run of `n` characters. */
  ghost predicate Guarantees(n: nat) {
    forall reason: string, body: string, size: nat ::
      |body| <= 2 * size && !Caught(reason, body, size) ==> !SharesRun(reason, body, n)
  }

  lemma SubRun(s: string, lo: nat, hi: nat, x: nat, y: nat)
    requires lo <= hi <= |s| && x <= y <= hi - lo
    ensures s[lo..hi][x..y] == s[lo + x..lo + y]
  {
    var a, b := s[lo..hi][x..y], s[lo + x..lo + y];
    assert forall k :: 0 <= k < y - x ==> a[k] == s[lo..hi][x + k] == s[lo + x + k] == b[k];
  }

  /** A common run of 47 characters covers a whole window, wherever it starts. */
  lemma LongRunIsCaught(reason: string, body: string, size: nat, n: nat)
    requires n >= 2 * STEP - 1 && |body| <= 2 * size && SharesRun(reason, body, n)
    ensures Caught(reason, body, size)
  {
    var i: nat, j: nat :| SameRun(reason, body, i, j, n);
    var k := (j + STEP - 1) / STEP;
    var start := k * STEP;
    assert j <= start <= j + STEP - 1;
    var at := i + (start - j);
    assert start + STEP <= j + n;
    SubRun(reason, i, i + n, start - j, start - j + STEP);
    SubRun(body, j, j + n, start - j, start - j + STEP);
    assert At(reason, body[start..start + STEP], at);
    assert IsLeak(reason, body, k);
  }

  function Repeat(c: char, n: nat): (s: string)
    ensures |s| == n && forall i :: 0 <= i < n ==> s[i] == c
  {
    if n == 0 then "" else [c] + Repeat(c, n - 1)
  }

  /** 46 common characters can straddle two windows without filling either. */
  lemma RunOf46Passes(n: nat)
    requires n <= 2 * STEP - 2
    ensures var reason := Repeat('b', 2 * STEP - 2); var body := "a" + reason + "a";
            !Caught(reason, body, |body|) && SharesRun(reason, body, n)
  {
    var reason := Repeat('b', 2 * STEP - 2);
    var body := "a" + reason + "a";
    assert SameRun(reason, body, 0, 1, n) by {
      assert forall x :: 0 <= x < n ==> reason[0..n][x] == body[1..1 + n][x];
    }
    forall k: nat ensures !IsLeak(reason, body, k) {
      if k * STEP + STEP <= |body| {
        assert k == 0 || k == 1;
        var window := body[k * STEP..k * STEP + STEP];
        var x := if k == 0 then 0 else STEP - 1;
        assert window[x] == 'a';
        forall i: nat ensures !At(reason, window, i) {
          if i + STEP <= |reason| {
            assert reason[i..i + STEP][x] == 'b';
          }
        }
      }
    }
  }

  /** The bound is exactly 47: the code guarantees it for every length from 47 on and for no shorter one. */
  lemma GuaranteeIsExactly47(n: nat)
    ensures Guarantees(n) <==> n >= 47
  {
    if n >= 47 {
      forall reason: string, body: string, size: nat | |body| <= 2 * size && SharesRun(reason, body, n)
        ensures Caught(reason, body, size)
      {
        LongRunIsCaught(reason, body, size, n);
      }
    } else {
      RunOf46Passes(n);
    }
  }
}
