/**
 The history of committed writes, the vocabulary in which the guarantees of the store are stated:
 which version of a key was written last, which versions a conditional write met, and which part
 versions a completed upload was assembled from.
 */
module History {
  import opened Wrappers
  import opened Metadata
  import ETags
  import opened CompletedParts

  /** Where the bytes of a committed object came from. */
  datatype Origin =
    | Uploaded
    | CopiedFrom(source: Path)
    | AssembledFrom(upload: Id, requested: seq<CompletePart>)

  datatype Event =
    | Stored(slot: Slot, path: Path, etag: string, bytes: Bytes, cond: Conditions, origin: Origin,
             replaced: Option<ObjectRow>)
    | Removed(slots: set<Slot>)
    | PartStored(part: PartSlot, path: Path, etag: string, bytes: Bytes)

  type Log = seq<Event>

  /** What a storage path was committed for, and what it holds. */
  datatype Version =
    | ObjectVersion(slot: Slot, etag: string, bytes: Bytes)
    | PartVersion(part: PartSlot, etag: string, bytes: Bytes)

  /** Every path that was ever committed. */
  function Versions(log: Log): map<Path, Version>
  {
    if log == [] then map[]
    else
      VersionsAfter(Versions(log[..|log| - 1]), log[|log| - 1])
  }

  function VersionsAfter(before: map<Path, Version>, e: Event): map<Path, Version>
  {
    match e
    case Stored(slot, path, etag, bytes, _, _, _) => before[path := ObjectVersion(slot, etag, bytes)]
    case Removed(_) => before
    case PartStored(part, path, etag, bytes) => before[path := PartVersion(part, etag, bytes)]
  }

  /** The last write of every key that has not been removed since. */
  function Rows(log: Log): map<Slot, ObjectRow>
  {
    if log == [] then map[]
    else
      RowsAfter(Rows(log[..|log| - 1]), log[|log| - 1])
  }

  function RowsAfter(before: map<Slot, ObjectRow>, e: Event): map<Slot, ObjectRow>
  {
    match e
    case Stored(slot, path, etag, _, _, _, _) => before[slot := ObjectRow(path, etag)]
    case Removed(slots) => before - slots
    case PartStored(_, _, _, _) => before
  }

  /** The last version stored for every part. */
  function LastParts(log: Log): map<PartSlot, Path>
  {
    if log == [] then map[]
    else
      var before, last := LastParts(log[..|log| - 1]), log[|log| - 1];
      if last.PartStored? then before[last.part := last.path] else before
  }

  function Completed(log: Log): set<Id>
  {
    if log == [] then {}
    else
      var before, last := Completed(log[..|log| - 1]), log[|log| - 1];
      if last.Stored? && last.origin.AssembledFrom? then before + {last.origin.upload} else before
  }

  /** The concatenation of committed files. */
  function Joined(versions: map<Path, Version>, paths: seq<Path>): Bytes
  {
    if paths == [] then []
    else
      var last := paths[|paths| - 1];
      Joined(versions, paths[..|paths| - 1]) + if last in versions then versions[last].bytes else []
  }

  function Numbers(requested: seq<CompletePart>): (r: seq<int>)
    ensures |r| == |requested|
  {
    seq(|requested|, i requires 0 <= i < |requested| => requested[i].number)
  }

  /** The last stored version of a requested part has the requested tag. */
  predicate TagMatches(log: Log, upload: Id, want: CompletePart)
  {
    var x := PartSlot(upload, want.number);
    && x in LastParts(log) && LastParts(log)[x] in Versions(log)
    && ETags.Equal(want.etag, Versions(log)[LastParts(log)[x]].etag)
  }

  predicate AllStored(log: Log, upload: Id, numbers: seq<int>)
  {
    forall i :: 0 <= i < |numbers| ==> PartSlot(upload, numbers[i]) in LastParts(log)
  }

  function LastVersionPaths(log: Log, upload: Id, numbers: seq<int>): (r: seq<Path>)
    requires AllStored(log, upload, numbers)
    ensures |r| == |numbers|
  {
    seq(|numbers|, i requires 0 <= i < |numbers| && PartSlot(upload, numbers[i]) in LastParts(log)
                   => LastParts(log)[PartSlot(upload, numbers[i])])
  }

  predicate OriginOk(log: Log, origin: Origin, etag: string, bytes: Bytes)
  {
    match origin
    case Uploaded => true
    case CopiedFrom(source) =>
      source in Versions(log) && Versions(log)[source].ObjectVersion?
      && Versions(log)[source].etag == etag && Versions(log)[source].bytes == bytes
    case AssembledFrom(upload, requested) =>
      && upload !in Completed(log)
      && requested != [] && Ascending(Numbers(requested))
      && AllStored(log, upload, Numbers(requested))
      && (forall i :: 0 <= i < |requested| ==> TagMatches(log, upload, requested[i]))
      && bytes == Joined(Versions(log), LastVersionPaths(log, upload, Numbers(requested)))
  }

  /** What each commit must satisfy relative to the history before it. */
  predicate EventOk(log: Log, e: Event)
  {
    match e
    case Stored(slot, path, etag, bytes, cond, origin, replaced) =>
      && path !in Versions(log)
      && replaced == Lookup(Rows(log), slot)
      && Satisfied(replaced, cond)
      && OriginOk(log, origin, etag, bytes)
    case Removed(slots) => slots <= Rows(log).Keys
    case PartStored(part, path, _, _) => path !in Versions(log) && part.upload !in Completed(log)
  }

  predicate WellFormed(log: Log)
  {
    forall i {:trigger EventOk(log[..i], log[i])} :: 0 <= i < |log| ==> EventOk(log[..i], log[i])
  }

  lemma Append(log: Log, e: Event)
    requires WellFormed(log) && EventOk(log, e)
    ensures WellFormed(log + [e])
  {
    var more := log + [e];
    forall i | 0 <= i < |more| ensures EventOk(more[..i], more[i]) {
      if i < |log| {
        assert more[..i] == log[..i];
      } else {
        assert more[..i] == log;
      }
    }
  }

  lemma Shorten(log: Log)
    requires WellFormed(log) && log != []
    ensures WellFormed(log[..|log| - 1]) && EventOk(log[..|log| - 1], log[|log| - 1])
  {
    var init := log[..|log| - 1];
    forall i | 0 <= i < |init| ensures EventOk(init[..i], init[i]) {
      assert init[..i] == log[..i];
    }
  }

  /** Histories only grow: no version is forgotten or altered. */
  lemma {:induction false} VersionsGrow(log: Log, n: nat)
    requires WellFormed(log) && n <= |log|
    ensures forall p :: p in Versions(log[..n]) ==> p in Versions(log) && Versions(log)[p] == Versions(log[..n])[p]
    decreases |log|
  {
    if n < |log| {
      var init := log[..|log| - 1];
      Shorten(log);
      VersionsGrow(init, n);
      assert init[..n] == log[..n];
    } else {
      assert log[..n] == log;
    }
  }

  /** The path of a commit is in the history after it, with what was committed. */
  lemma CommittedVersion(log: Log, i: nat)
    requires WellFormed(log) && i < |log| && !log[i].Removed?
    ensures log[i].path !in Versions(log[..i])
    ensures log[i].path in Versions(log)
    ensures Versions(log)[log[i].path] == if log[i].Stored? then ObjectVersion(log[i].slot, log[i].etag, log[i].bytes)
                                          else PartVersion(log[i].part, log[i].etag, log[i].bytes)
  {
    LastStep(log, i + 1);
    AppendUnfolds(log[..i], log[i]);
    VersionsGrow(log, i + 1);
  }

  lemma PrefixWellFormed(log: Log, n: nat)
    requires WellFormed(log) && n <= |log|
    ensures WellFormed(log[..n])
  {
    forall i | 0 <= i < n ensures EventOk(log[..n][..i], log[..n][i]) {
      assert log[..n][..i] == log[..i];
    }
  }

  /** A key that has a row is in the history under its own name. */
  lemma {:induction false} RowsAreVersions(log: Log)
    requires WellFormed(log)
    ensures forall k :: k in Rows(log) ==>
              && Rows(log)[k].path in Versions(log)
              && Versions(log)[Rows(log)[k].path].ObjectVersion?
              && Versions(log)[Rows(log)[k].path].slot == k
              && Versions(log)[Rows(log)[k].path].etag == Rows(log)[k].etag
  {
    if log == [] {
    } else {
      Shorten(log);
      RowsAreVersions(log[..|log| - 1]);
    }
  }

  // ---- What the replayed rows mean ----

  predicate Touches(e: Event, k: Slot)
  {
    (e.Stored? && e.slot == k) || (e.Removed? && k in e.slots)
  }

  /** The i-th commit wrote k and nothing has written or removed k since. */
  predicate LastWrite(log: Log, k: Slot, i: int)
  {
    0 <= i < |log| && log[i].Stored? && log[i].slot == k && forall j :: i < j < |log| ==> !Touches(log[j], k)
  }

  lemma {:induction false} RowsMeaning(log: Log, k: Slot)
    ensures k in Rows(log) <==> exists i :: LastWrite(log, k, i)
    ensures forall i :: LastWrite(log, k, i) ==>
              k in Rows(log) && Rows(log)[k] == ObjectRow(log[i].path, log[i].etag)
  {
    if log == [] {
    } else {
      var n := |log| - 1;
      var init := log[..n];
      RowsMeaning(init, k);
      if Touches(log[n], k) {
        assert log[n].Stored? ==> LastWrite(log, k, n);
      } else {
        forall i | LastWrite(init, k, i) ensures LastWrite(log, k, i) {
        }
        forall i | LastWrite(log, k, i) ensures LastWrite(init, k, i) {
          assert forall j :: i < j < n ==> init[j] == log[j];
        }
      }
    }
  }

  // ---- Conditional writes over whole histories ----

  predicate RemovedBetween(log: Log, k: Slot, i: nat, j: nat)
  {
    exists m :: i < m < j && m < |log| && log[m].Removed? && k in log[m].slots
  }

  lemma {:induction false} PresentUntilRemoved(log: Log, k: Slot, i: nat, j: nat)
    requires i < j <= |log| && log[i].Stored? && log[i].slot == k
    ensures k in Rows(log[..j]) || RemovedBetween(log, k, i, j)
    decreases j
  {
    assert log[..j][..j - 1] == log[..j - 1];
    if j > i + 1 {
      PresentUntilRemoved(log, k, i, j - 1);
      if log[j - 1].Removed? && k in log[j - 1].slots {
        assert RemovedBetween(log, k, i, j);
      } else if RemovedBetween(log, k, i, j - 1) {
        var m :| i < m < j - 1 && m < |log| && log[m].Removed? && k in log[m].slots;
        assert RemovedBetween(log, k, i, j);
      }
    }
  }

  /** Between two successful writes with If-None-Match: * on a key, the key was deleted. */
  lemma CreateOnceUntilDeleted(log: Log, k: Slot, i: nat, j: nat)
    requires WellFormed(log) && i < j < |log|
    requires log[i].Stored? && log[j].Stored? && log[i].slot == k && log[j].slot == k
    requires log[j].cond.ifNoneMatch == "*"
    ensures RemovedBetween(log, k, i, j)
  {
    PresentUntilRemoved(log, k, i, j);
    assert EventOk(log[..j], log[j]);
    PreconditionsMeaning(log[j].replaced, log[j].cond);
  }

  /** A successful write with a specific If-Match replaced the last write of its key, and that had the tag. */
  lemma MatchedVersionReplaced(log: Log, j: nat) returns (i: nat)
    requires WellFormed(log) && j < |log| && log[j].Stored?
    requires log[j].cond.ifMatch != "" && log[j].cond.ifMatch != "*"
    ensures LastWrite(log[..j], log[j].slot, i) && ETags.Equal(log[j].cond.ifMatch, log[i].etag)
    ensures log[j].replaced == Some(ObjectRow(log[i].path, log[i].etag))
  {
    assert EventOk(log[..j], log[j]);
    PreconditionsMeaning(log[j].replaced, log[j].cond);
    RowsMeaning(log[..j], log[j].slot);
    i :| LastWrite(log[..j], log[j].slot, i);
  }

  /** Each storage path is handed out as replaced at most once, so no two requests unlink the same version. */
  lemma ReplacedOnce(log: Log, i: nat, j: nat)
    requires WellFormed(log) && i < j < |log|
    requires log[i].Stored? && log[j].Stored? && log[i].replaced.Some?
    ensures log[j].replaced.Some? ==> log[j].replaced.value.path != log[i].replaced.value.path
  {
    if log[j].replaced.Some? {
      var p := log[i].replaced.value.path;
      assert EventOk(log[..j], log[j]);
      RetiredBy(log, i, j, p);
    }
  }

  /** Path p was committed once and no key has it any more. */
  predicate Retired(log: Log, p: Path)
  {
    p in Versions(log) && forall k :: k in Rows(log) ==> Rows(log)[k].path != p
  }

  lemma AppendUnfolds(log: Log, e: Event)
    ensures Rows(log + [e]) == RowsAfter(Rows(log), e)
    ensures Versions(log + [e]) == VersionsAfter(Versions(log), e)
    ensures LastParts(log + [e]) == if e.PartStored? then LastParts(log)[e.part := e.path] else LastParts(log)
    ensures Completed(log + [e]) == if e.Stored? && e.origin.AssembledFrom?
                                    then Completed(log) + {e.origin.upload} else Completed(log)
  {
    assert (log + [e])[..|log|] == log;
  }

  lemma RetiredStays(log: Log, e: Event, p: Path)
    requires EventOk(log, e) && Retired(log, p)
    ensures Retired(log + [e], p)
  {
    AppendUnfolds(log, e);
  }

  lemma RetiredByReplacement(log: Log, e: Event)
    requires WellFormed(log) && EventOk(log, e) && e.Stored? && e.replaced.Some?
    ensures Retired(log + [e], e.replaced.value.path)
  {
    AppendUnfolds(log, e);
    RowsAreVersions(log);
  }

  /** Once a commit replaced path p, no key has p again. */
  lemma {:induction false} RetiredBy(log: Log, i: nat, j: nat, p: Path)
    requires WellFormed(log) && i < j <= |log|
    requires log[i].Stored? && log[i].replaced.Some? && log[i].replaced.value.path == p
    ensures Retired(log[..j], p)
    decreases j
  {
    var before, e := log[..j - 1], log[j - 1];
    LastStep(log, j);
    if j == i + 1 {
      RetiredByReplacement(before, e);
    } else {
      RetiredBy(log, i, j - 1, p);
      RetiredStays(before, e, p);
    }
  }

  lemma LastStep(log: Log, j: nat)
    requires WellFormed(log) && 0 < j <= |log|
    ensures log[..j] == log[..j - 1] + [log[j - 1]]
    ensures WellFormed(log[..j - 1]) && EventOk(log[..j - 1], log[j - 1])
  {
    PrefixWellFormed(log, j - 1);
  }
}
