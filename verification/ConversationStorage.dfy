/**
 The object-store client: conditional create and the read-modify-write retry loop,
 run against an environment that may change the object before every operation.
 */
module ConversationStorage {
  import opened Wrappers

  const RETRY_BACKOFF_MS: seq<nat> := [50, 200, 800]

  datatype Blob = Blob(text: string, generation: nat)

  /** What another writer does to the object. */
  datatype Foreign = Overwrite(text: string) | Remove

  datatype Fault = NoFault | Error(applied: bool)

  datatype Result =
    | Appended(generation: nat, size: nat)
    | ObjectMissing
    | StorageUnavailable
    | ConcurrentWrite
    | ReloadFailed

  /** How one read and one conditional write went. */
  datatype Attempt = ReadFailed | Missing | WriteFailed | Conflict | Landed(size: nat)

  datatype HeaderResult =
    | HeaderCreated(generation: nat)
    | AlreadyThere
    | HeaderUnavailable
    | HeaderReloadFailed

  /** One generation change: who made it, and the text it left (None for a removal). */
  datatype Change = Change(own: bool, text: Option<string>)

  /** Milliseconds slept before attempt number `conflicts`. */
  function Slept(conflicts: nat): (ms: nat)
    requires conflicts <= 3
  {
    if conflicts == 0 then 0 else Slept(conflicts - 1) + RETRY_BACKOFF_MS[conflicts - 1]
  }

  lemma SleptTimes()
    ensures Slept(0) == 0 && Slept(1) == 50 && Slept(2) == 250 && Slept(3) == 1050
  {}

  /** The log grew from `before` to `after`; of the new changes exactly `mine` is our own. */
  ghost predicate Grew(before: seq<Change>, after: seq<Change>, mine: Option<nat>) {
    && before <= after
    && (mine.Some? ==> |before| <= mine.value < |after|)
    && forall i :: |before| <= i < |after| ==> (after[i].own <==> mine == Some(i))
  }

  /** The change at position i put one block on top of what the object held at that instant. */
  ghost predicate AppendsAt(log: seq<Change>, i: nat, block: string) {
    && 0 < i < |log|
    && log[i - 1].text.Some? && log[i].text == Some(log[i - 1].text.value + block)
  }

  /** The change at position i put the header where there was no object at that instant. */
  ghost predicate CreatesAt(log: seq<Change>, i: nat, header: string) {
    0 < i < |log| && log[i - 1].text.None? && log[i].text == Some(header)
  }

  function SizeAt(log: seq<Change>, i: nat): Option<nat> {
    if i < |log| && log[i].text.Some? then Some(|log[i].text.value|) else None
  }

  /** No other writer and no fault around the first read, the first write and the reload. */
  predicate Undisturbed(gaps: seq<seq<Foreign>>, faults: seq<Fault>)
    requires |gaps| == |faults| == 9
  {
    gaps[0] == gaps[1] == gaps[8] == [] && faults[0] == faults[1] == faults[8] == NoFault
  }

  /** The first `n` operations met no fault. */
  predicate AllWell(faults: seq<Fault>, n: nat) {
    n <= |faults| && forall k :: 0 <= k < n ==> faults[k].NoFault?
  }

  lemma NothingGrew(log: seq<Change>)
    ensures Grew(log, log, None)
  {}

  lemma GrewOn(a: seq<Change>, b: seq<Change>, c: seq<Change>, mine: Option<nat>)
    requires Grew(a, b, None) && Grew(b, c, mine)
    ensures Grew(a, c, mine)
  {}

  /** Later changes by others leave our own where it is. */
  lemma GrewPast(a: seq<Change>, b: seq<Change>, c: seq<Change>, mine: nat, block: string)
    requires Grew(a, b, Some(mine)) && Grew(b, c, None) && AppendsAt(b, mine, block)
    ensures Grew(a, c, Some(mine)) && AppendsAt(c, mine, block) && SizeAt(c, mine) == SizeAt(b, mine) && |c| >= |b|
  {}

  class Bucket {
    var blob: Option<Blob>
    var nextGeneration: nat
    /** History: entry 0 is the initial object, then one entry per generation change. */
    ghost var log: seq<Change>

    ghost predicate Valid()
      reads this
    {
      && |log| > 0 && nextGeneration > 0
      && log[|log| - 1].text == (if blob.Some? then Some(blob.value.text) else None)
      && (blob.Some? ==> 0 < blob.value.generation < nextGeneration)
    }

    constructor ()
      ensures Valid() && blob.None? && log == [Change(false, None)]
    {
      blob, nextGeneration := None, 1;
      log := [Change(false, None)];
    }

    /** Other writers run. */
    method Interfere(acts: seq<Foreign>)
      requires Valid()
      modifies this
      ensures Valid() && nextGeneration >= old(nextGeneration)
      ensures Grew(old(log), log, None)
      ensures |log| == |old(log)| ==> blob == old(blob)
      ensures |log| > |old(log)| && blob.Some? ==> blob.value.generation >= old(nextGeneration)
      ensures acts == [] ==> log == old(log) && nextGeneration == old(nextGeneration)
    {
      for i := 0 to |acts|
        invariant Valid() && nextGeneration >= old(nextGeneration)
        invariant Grew(old(log), log, None)
        invariant |log| == |old(log)| ==> blob == old(blob)
        invariant |log| > |old(log)| && blob.Some? ==> blob.value.generation >= old(nextGeneration)
        invariant i == 0 ==> log == old(log) && nextGeneration == old(nextGeneration)
      {
        if acts[i].Overwrite? {
          blob := Some(Blob(acts[i].text, nextGeneration));
          nextGeneration := nextGeneration + 1;
          log := log + [Change(false, Some(acts[i].text))];
        } else if blob.Some? {
          blob := None;
          log := log + [Change(false, None)];
        }
      }
    }

    /** Upload with if_generation_match; generation 0 asks for an absent object. */
    method ConditionalUpload(text: string, expected: nat) returns (ok: bool)
      requires Valid()
      modifies this
      ensures Valid()
      ensures ok == (expected == if old(blob).Some? then old(blob).value.generation else 0)
      ensures ok ==> && blob == Some(Blob(text, old(nextGeneration)))
                     && log == old(log) + [Change(true, Some(text))] && nextGeneration == old(nextGeneration) + 1
      ensures !ok ==> blob == old(blob) && log == old(log) && nextGeneration == old(nextGeneration)
    {
      ok := expected == if blob.Some? then blob.value.generation else 0;
      if ok {
        blob := Some(Blob(text, nextGeneration));
        nextGeneration := nextGeneration + 1;
        log := log + [Change(true, Some(text))];
      }
    }

    /** Read the object and write it back with one more block, if nobody changed it in between. */
    method ReadThenWrite(block: string, gapBefore: seq<Foreign>, gapBetween: seq<Foreign>, read: Fault, write: Fault)
      returns (r: Attempt, ghost mine: Option<nat>)
      requires Valid()
      modifies this
      ensures Valid() && Grew(old(log), log, mine)
      ensures mine.Some? ==> AppendsAt(log, mine.value, block)
      ensures r.ReadFailed? <==> read.Error?
      ensures r.Missing? ==> blob.None?
      ensures r.WriteFailed? <==> !r.ReadFailed? && !r.Missing? && write.Error?
      ensures r.Conflict? ==> |log| > |old(log)|
      ensures !r.WriteFailed? ==> (mine.Some? <==> r.Landed?)
      ensures r.Landed? ==> blob.Some? && mine == Some(|log| - 1) && r.size == |blob.value.text|
      ensures old(blob).Some? && gapBefore == gapBetween == [] && read == write == NoFault ==>
                && r.Landed? && log == old(log) + [Change(true, Some(old(blob).value.text + block))]
                && blob == Some(Blob(old(blob).value.text + block, old(nextGeneration)))
    {
      Interfere(gapBefore);
      if read.Error? {
        return ReadFailed, None;
      }
      if blob.None? {
        return Missing, None;
      }
      var current := blob.value;
      Interfere(gapBetween);
      if write == Error(false) {
        return WriteFailed, None;
      }
      var ok := ConditionalUpload(current.text + block, current.generation);
      mine := if ok then Some(|log| - 1) else None;
      if write == Error(true) {
        return WriteFailed, mine;
      }
      return if ok then Landed(|current.text + block|) else Conflict, mine;
    }

    /** After a write that landed: its size, and the generation of the object by now. */
    method Reload(size: nat, gap: seq<Foreign>, fault: Fault, ghost start: seq<Change>, ghost mine: nat, ghost block: string)
      returns (result: Result)
      requires Valid() && Grew(start, log, Some(mine)) && AppendsAt(log, mine, block)
      modifies this
      ensures Valid() && Grew(start, log, Some(mine)) && AppendsAt(log, mine, block)
      ensures SizeAt(log, mine) == SizeAt(old(log), mine) && |log| >= |old(log)|
      ensures result == if fault.Error? || blob.None? then ReloadFailed else Appended(blob.value.generation, size)
      ensures gap == [] ==> blob == old(blob)
    {
      hide Grew, AppendsAt, SizeAt;
      Interfere(gap);
      GrewPast(start, old(log), log, mine, block);
      return if fault.Error? || blob.None? then ReloadFailed else Appended(blob.value.generation, size);
    }

    /**
     Append one block with at most four attempts. `gaps[k]` is what others do before
     the k-th operation of this call and `faults[k]` is how that operation fails.
     */
    method ReadModifyWrite(block: string, gaps: seq<seq<Foreign>>, faults: seq<Fault>)
      returns (result: Result, downloads: nat, uploads: nat, slept: nat, ghost mine: Option<nat>)
      requires Valid() && |gaps| == |faults| == 9
      modifies this
      ensures Valid()
      // Bounded work: each attempt reads, writes, and sleeps before the next one.
      ensures 1 <= downloads <= 4 && downloads - 1 <= uploads <= downloads && slept == Slept(downloads - 1)
      // At most one change of our own, and it appends the block to the live object.
      ensures Grew(old(log), log, mine)
      ensures mine.Some? ==> AppendsAt(log, mine.value, block)
      // Unavailable exactly when the last read or write failed; no earlier one had.
      ensures AllWell(faults, downloads + uploads - 1)
      ensures result.StorageUnavailable? <==> faults[downloads + uploads - 1].Error?
      // Otherwise the block landed exactly when the answer says so.
      ensures !result.StorageUnavailable? ==> (mine.Some? <==> result.Appended? || result.ReloadFailed?)
      ensures result.ReloadFailed? ==> faults[8].Error? || blob.None?
      ensures result.Appended? ==> && faults[8].NoFault? && blob.Some? && result.generation == blob.value.generation
                                   && Some(result.size) == SizeAt(log, mine.value)
      // With an object and nobody else at work the first attempt succeeds.
      ensures old(blob).Some? && Undisturbed(gaps, faults) ==>
                && result.Appended? && downloads == uploads == 1
                && blob == Some(Blob(old(blob).value.text + block, old(nextGeneration)))
      // Giving up means that four changes by others landed during this call.
      ensures result.ConcurrentWrite? ==> |log| - |old(log)| >= 4 && downloads == uploads == 4
      // A missing object was missing when it was read.
      ensures result.ObjectMissing? ==> blob.None? && uploads == downloads - 1
    {
      hide Grew, AppendsAt;
      downloads, uploads, slept, mine := 0, 0, 0, None;
      NothingGrew(log);
      for attempt := 0 to 4
        invariant Valid() && Grew(old(log), log, None) && |log| >= |old(log)| + attempt
        invariant downloads == uploads == attempt && mine.None?
        invariant slept == Slept(if attempt == 4 then 3 else attempt)
        invariant AllWell(faults, 2 * attempt)
        invariant attempt == 0 ==> log == old(log) && blob == old(blob) && nextGeneration == old(nextGeneration)
        invariant old(blob).Some? && Undisturbed(gaps, faults) ==> attempt == 0
      {
        ghost var before := log;
        var r, m := ReadThenWrite(
          block, gaps[2 * attempt], gaps[2 * attempt + 1], faults[2 * attempt], faults[2 * attempt + 1]);
        GrewOn(old(log), before, log, m);
        mine := m;
        downloads := downloads + 1;
        if r.ReadFailed? {
          return StorageUnavailable, downloads, uploads, slept, mine;
        }
        if r.Missing? {
          return ObjectMissing, downloads, uploads, slept, mine;
        }
        uploads := uploads + 1;
        if r.WriteFailed? {
          return StorageUnavailable, downloads, uploads, slept, mine;
        }
        if r.Landed? {
          result := Reload(r.size, gaps[8], faults[8], old(log), mine.value, block);
          return result, downloads, uploads, slept, mine;
        }
        if attempt < |RETRY_BACKOFF_MS| {
          slept := slept + RETRY_BACKOFF_MS[attempt];
        }
      }
      return ConcurrentWrite, downloads, uploads, slept, None;
    }

    /** Create the object from its header, then reload it for its generation; others run before each operation. */
    method UploadHeader(header: string, gaps: seq<seq<Foreign>>, faults: seq<Fault>)
      returns (result: HeaderResult, ghost mine: Option<nat>)
      requires Valid() && |gaps| == |faults| == 2
      modifies this
      ensures Valid()
      // At most one change of our own, never over an existing object.
      ensures Grew(old(log), log, mine)
      ensures mine.Some? ==> CreatesAt(log, mine.value, header)
      // Unavailable exactly when the upload failed; otherwise the header landed exactly when the answer says so.
      ensures result.HeaderUnavailable? <==> faults[0].Error?
      ensures !result.HeaderUnavailable? ==> (mine.Some? <==> result.HeaderCreated? || result.HeaderReloadFailed?)
      ensures result.HeaderReloadFailed? ==> faults[1].Error? || blob.None?
      ensures result.HeaderCreated? ==> faults[1].NoFault?
      ensures old(blob).None? && gaps[0] == [] ==> !result.AlreadyThere?
      // The generation returned is the live one at the reload; a refused upload found an object.
      ensures result.HeaderCreated? ==> blob.Some? && blob.value.generation == result.generation
      ensures result.AlreadyThere? ==> mine.None? && blob.Some?
    {
      mine := None;
      Interfere(gaps[0]);
      if faults[0] == Error(false) {
        return HeaderUnavailable, None;
      }
      var ok := ConditionalUpload(header, 0);
      mine := if ok then Some(|log| - 1) else None;
      if faults[0] == Error(true) {
        return HeaderUnavailable, mine;
      }
      if !ok {
        return AlreadyThere, None;
      }
      Interfere(gaps[1]);
      if faults[1].Error? || blob.None? {
        return HeaderReloadFailed, mine;
      }
      return HeaderCreated(blob.value.generation), mine;
    }
  }
}
