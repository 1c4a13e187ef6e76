/** Object files that outlive their rows, and when they can still go before the next startup. */
module Orphans {
  import opened Wrappers
  import opened Metadata
  import opened History
  import opened Lifecycle
  import opened Invariant
  import opened Preservation
  import opened Accounting
  import CompletedParts
  import Guarantees

  /** The request will remove file q, or may do so because it has loaded or listed q. */
  predicate Handles(pc: Actor, a: Id, q: Path)
  {
    || Owes(pc, a, q)
    || (pc.DeleteLoaded? && pc.path == q)
    || (pc.EmptyListing? && q in pc.paths)
  }

  ghost predicate HandledBy(s: State, a: Id, q: Path)
  {
    a in s.actors && Handles(s.actors[a], a, q)
  }

  /** A committed object file without a row, on a serving store. */
  ghost predicate Stray(s: State, q: Path)
  {
    s.serving && q.ObjectPath? && q in s.disk && q in Versions(s.log) && !ObjectNamed(s.db, q)
  }

  ghost predicate Forgotten(s: State, q: Path)
  {
    Stray(s, q) && forall a: Id :: !HandledBy(s, a, q)
  }

  /** No crash, and no further DELETE that loads q, from the cache for instance. */
  predicate Calm(step: Step, q: Path)
  {
    !step.Crash? && !(step.BeginDelete? && step.path == q)
  }

  /** Whoever may still commit a file of its own does not commit q. */
  ghost predicate Settled(s: State, q: Path)
  {
    && q.id < s.next
    && (forall a :: a in s.actors ==> a < s.next)
    && (forall a :: a in s.actors && CommitsOwnFile(s.actors[a]) ==> a != q.id)
  }

  predicate CommitsOwnFile(pc: Actor)
  {
    pc.Writing? || pc.Written? || pc.Assembling? || pc.Assembled?
  }

  lemma VersionsAreSettled(s: State, q: Path)
    requires Inv(s) && q in Versions(s.log)
    ensures Settled(s, q)
  {
    InvIs(s);
    forall a | a in s.actors && CommitsOwnFile(s.actors[a]) ensures a != q.id {
      assert ActorOk(s, a, s.actors[a]);
    }
  }

  // ---- Nobody finds a forgotten file again ----

  /** What a step of request a must not do: name q, drop it, take it up, or touch the others. */
  ghost predicate StaysForgotten(s: State, t: State, a: Id, q: Path)
  {
    && t.serving && q in t.disk && s.log <= t.log && !ObjectNamed(t.db, q)
    && (forall b :: b in t.actors && b != a ==> b in s.actors && t.actors[b] == s.actors[b])
    && (a in t.actors ==> !Handles(t.actors[a], a, q))
  }

  lemma ForgottenKept(s: State, t: State, a: Id, q: Path)
    requires Forgotten(s, q) && StaysForgotten(s, t, a, q)
    ensures Forgotten(t, q)
  {
    VersionsExtend(s.log, t.log, q);
    forall b: Id ensures !HandledBy(t, b, q) {
      assert !HandledBy(s, b, q);
    }
  }

  lemma {:induction false} VersionsExtend(log: Log, more: Log, q: Path)
    requires log <= more && q in Versions(log)
    ensures q in Versions(more)
    decreases |more|
  {
    if more == log {
      assert q in Versions(more);
    } else {
      var init := more[..|more| - 1];
      VersionsExtend(log, init, q);
    }
  }

  /** Where a request has nothing to do with object files. */
  predicate Bland(pc: Actor)
  {
    || pc.CompleteClaimed? || pc.Assembling? || pc.Releasing? || pc.AbortClaimed? || pc.StaleSeen? || pc.RemovingParts?
    || pc.DeletingBucket?
  }

  /** Request a stays, ends, or goes on to such a place; objects and files are as they were. */
  ghost predicate Turns(s: State, t: State, a: Id)
  {
    && t.serving == s.serving && t.disk == s.disk && t.log == s.log && t.db.objects == s.db.objects
    && (forall b :: b in t.actors && b != a ==> b in s.actors && t.actors[b] == s.actors[b])
    && (a in t.actors ==> Bland(t.actors[a]) || (a in s.actors && t.actors[a] == s.actors[a]))
  }

  lemma TurnForgets(s: State, t: State, a: Id, q: Path)
    requires Forgotten(s, q) && Turns(s, t, a)
    ensures StaysForgotten(s, t, a, q)
  {
    assert !HandledBy(s, a, q);
  }

  lemma WritesForget(s: State, slot: Slot, bytes: Bytes, etag: string, cond: Conditions, source: Path, q: Path)
    requires Forgotten(s, q) && Settled(s, q)
    ensures StaysForgotten(s, DoBeginPut(s, slot, bytes, etag, cond), s.next, q)
    ensures StaysForgotten(s, DoBeginCopy(s, source, slot, cond), s.next, q)
  {
  }

  lemma FinishWriteForgets(s: State, a: Id, write: WriteOutcome, q: Path)
    requires Forgotten(s, q) && Settled(s, q)
    ensures StaysForgotten(s, DoFinishWrite(s, a, write), a, q)
  {
    assert !HandledBy(s, a, q);
  }

  lemma RejectDigestForgets(s: State, a: Id, q: Path)
    requires Forgotten(s, q) && Settled(s, q)
    ensures StaysForgotten(s, DoRejectDigest(s, a), a, q)
  {
    assert !HandledBy(s, a, q);
  }

  lemma StoredRowForgets(s: State, t: State, slot: Slot, row: ObjectRow, q: Path)
    requires !ObjectNamed(s.db, q) && t.db.objects == s.db.objects[slot := row] && row.path != q
    ensures !ObjectNamed(t.db, q)
    ensures slot in s.db.objects ==> s.db.objects[slot].path != q
  {
    assert slot in s.db.objects && s.db.objects[slot].path == q ==> ObjectNamed(s.db, q);
    forall k | k in t.db.objects ensures t.db.objects[k].path != q {
      assert k != slot ==> t.db.objects[k] == s.db.objects[k];
    }
  }

  lemma CommitWriteForgets(s: State, a: Id, fails: bool, q: Path)
    requires Forgotten(s, q) && Settled(s, q)
    ensures StaysForgotten(s, DoCommitWrite(s, a, fails), a, q)
  {
    var t := DoCommitWrite(s, a, fails);
    assert !HandledBy(s, a, q);
    if t != s && t.actors[a].Unlinking? {
      var pc := s.actors[a];
      StoredRowForgets(s, t, pc.slot, ObjectRow(ObjectPath(pc.slot.bucket, a), pc.etag), q);
    }
  }

  lemma DiscardForgets(s: State, a: Id, removed: bool, q: Path)
    requires Forgotten(s, q) && Settled(s, q)
    ensures StaysForgotten(s, DoDiscard(s, a, removed), a, q)
  {
    assert !HandledBy(s, a, q);
  }

  lemma UnlinkForgets(s: State, a: Id, removed: bool, stops: bool, q: Path)
    requires Forgotten(s, q) && Settled(s, q)
    ensures StaysForgotten(s, DoUnlink(s, a, removed, stops), a, q)
  {
    assert !HandledBy(s, a, q);
  }

  lemma DroppedRowsForget(s: State, t: State, q: Path)
    requires !ObjectNamed(s.db, q)
    requires forall k :: k in t.db.objects ==> k in s.db.objects && t.db.objects[k] == s.db.objects[k]
    ensures !ObjectNamed(t.db, q)
  {
    forall k | k in t.db.objects ensures t.db.objects[k].path != q {
      assert t.db.objects[k] == s.db.objects[k];
    }
  }

  lemma BeginDeleteForgets(s: State, slot: Slot, path: Path, bucket: Bucket, q: Path)
    requires Forgotten(s, q) && Settled(s, q)
    ensures path != q ==> StaysForgotten(s, DoBeginDelete(s, slot, path), s.next, q)
    ensures StaysForgotten(s, DoBeginEmpty(s, bucket), s.next, q)
  {
  }

  lemma DeleteRowForgets(s: State, a: Id, outcome: Outcome, q: Path)
    requires Forgotten(s, q) && Settled(s, q)
    ensures StaysForgotten(s, DoDeleteRow(s, a, outcome), a, q)
  {
    assert !HandledBy(s, a, q);
    DroppedRowsForget(s, DoDeleteRow(s, a, outcome), q);
  }

  lemma ListPageForgets(s: State, a: Id, slots: seq<Slot>, q: Path)
    requires Forgotten(s, q) && Settled(s, q)
    ensures StaysForgotten(s, DoListPage(s, a, slots), a, q)
  {
    assert !HandledBy(s, a, q);
    var t := DoListPage(s, a, slots);
    if t != s {
      forall i | 0 <= i < |slots| ensures PathsOf(s.db, slots)[i] != q {
        assert s.db.objects[slots[i]].path == q ==> ObjectNamed(s.db, q);
      }
    }
  }

  lemma DeleteAllRowsForgets(s: State, a: Id, outcome: Outcome, q: Path)
    requires Forgotten(s, q) && Settled(s, q)
    ensures StaysForgotten(s, DoDeleteAllRows(s, a, outcome), a, q)
  {
    assert !HandledBy(s, a, q);
    DroppedRowsForget(s, DoDeleteAllRows(s, a, outcome), q);
  }

  lemma BeginPartForgets(s: State, part: PartSlot, bytes: Bytes, etag: string, partial: Bytes, q: Path)
    requires Forgotten(s, q) && Settled(s, q)
    ensures StaysForgotten(s, DoBeginPart(s, part, bytes, etag, partial), s.next, q)
  {
  }

  lemma FinishPartForgets(s: State, a: Id, write: WriteOutcome, q: Path)
    requires Forgotten(s, q) && Settled(s, q)
    ensures StaysForgotten(s, DoFinishPart(s, a, write), a, q)
  {
    assert !HandledBy(s, a, q);
  }

  lemma CommitPartForgets(s: State, a: Id, fails: bool, q: Path)
    requires Forgotten(s, q) && Settled(s, q) && PartRowsOk(s)
    ensures StaysForgotten(s, DoCommitPart(s, a, fails), a, q)
  {
    assert !HandledBy(s, a, q);
    if a in s.actors && s.actors[a].PartWritten? && s.actors[a].part in s.db.parts {
      assert PartRowOk(s, s.actors[a].part);
    }
  }

  lemma BeginCompleteTurns(s: State, upload: Id, parts: seq<CompletedParts.CompletePart>, cond: Conditions)
    ensures Turns(s, DoBeginComplete(s, upload, parts, cond), s.next)
  {
  }

  lemma BeginAbortTurns(s: State, upload: Id)
    ensures Turns(s, DoBeginAbort(s, upload), s.next)
  {
  }

  lemma BeginStaleTurns(s: State, upload: Id)
    ensures Turns(s, DoBeginStale(s, upload), s.next)
  {
  }

  lemma SelectionTurns(s: State, a: Id, minPartSize: int, fails: bool)
    ensures Turns(s, DoSelectParts(s, a, minPartSize, fails), a)
  {
  }

  lemma CopyPartTurns(s: State, a: Id, fails: bool, cleaned: bool)
    ensures Turns(s, DoCopyPart(s, a, fails, cleaned), a)
  {
  }

  lemma ClaimStaleTurns(s: State, a: Id, fails: bool)
    ensures Turns(s, DoClaimStale(s, a, fails), a)
  {
  }

  lemma AssemblyForgets(s: State, a: Id, write: WriteOutcome, q: Path)
    requires Forgotten(s, q) && Settled(s, q)
    ensures StaysForgotten(s, DoFinishAssembly(s, a, write), a, q)
  {
    assert !HandledBy(s, a, q);
  }

  lemma CommitCompleteForgets(s: State, a: Id, etag: string, fails: bool, q: Path)
    requires Forgotten(s, q) && Settled(s, q)
    ensures StaysForgotten(s, DoCommitComplete(s, a, etag, fails), a, q)
  {
    var t := DoCommitComplete(s, a, etag, fails);
    assert !HandledBy(s, a, q);
    if t != s && t.actors[a].CompleteSettled? {
      var pc := s.actors[a];
      StoredRowForgets(s, t, pc.slot, ObjectRow(ObjectPath(pc.slot.bucket, a), etag), q);
    }
  }

  lemma DiscardAssembledForgets(s: State, a: Id, removed: bool, q: Path)
    requires Forgotten(s, q) && Settled(s, q)
    ensures StaysForgotten(s, DoDiscardAssembled(s, a, removed), a, q)
  {
    assert !HandledBy(s, a, q);
  }

  lemma UnlinkReplacedForgets(s: State, a: Id, removed: bool, q: Path)
    requires Forgotten(s, q) && Settled(s, q)
    ensures StaysForgotten(s, DoUnlinkReplaced(s, a, removed), a, q)
  {
    assert !HandledBy(s, a, q);
  }

  lemma ReleaseTurns(s: State, a: Id, outcome: Outcome)
    ensures Turns(s, DoRelease(s, a, outcome), a)
  {
  }

  lemma DeleteClaimedTurns(s: State, a: Id, outcome: Outcome)
    ensures Turns(s, DoDeleteClaimed(s, a, outcome), a)
  {
  }

  lemma DeleteStaleTurns(s: State, a: Id, outcome: Outcome)
    ensures Turns(s, DoDeleteStale(s, a, outcome), a)
  {
  }

  lemma DropUploadOfTurns(s: State, a: Id, outcome: Outcome)
    ensures Turns(s, DoDropUploadOf(s, a, outcome), a)
  {
  }

  lemma RemovalForgets(s: State, a: Id, files: set<Path>, stops: bool, q: Path)
    requires Forgotten(s, q) && Settled(s, q)
    ensures StaysForgotten(s, DoRemovePartFiles(s, a, files, stops), a, q)
  {
    assert !HandledBy(s, a, q);
  }

  lemma BucketsForget(s: State, slot: Slot, q: Path)
    requires Forgotten(s, q) && Settled(s, q)
    ensures StaysForgotten(s, DoCreateBucket(s, slot.bucket), s.next, q)
    ensures StaysForgotten(s, DoCreateUpload(s, slot), s.next, q)
    ensures StaysForgotten(s, DoBeginBucketDelete(s, slot.bucket), s.next, q)
  {
  }

  lemma BucketDeletionTurns(s: State, a: Id, uploads: seq<Id>)
    ensures Turns(s, DoListUploads(s, a, uploads), a)
    ensures Turns(s, DoDropBucket(s, a), a)
  {
  }

  lemma ForceDeleteForgets(s: State, bucket: Bucket, paths: seq<Path>, q: Path)
    requires Forgotten(s, q) && Settled(s, q)
    ensures StaysForgotten(s, DoForceDelete(s, bucket, paths), s.next, q)
  {
    var t, r := DoForceDelete(s, bucket, paths), DeleteWithObjects(s.db, bucket);
    if s.serving && r.Ok? && ExactlyPaths(paths, r.value.1) {
      DroppedRowsForget(s, t, q);
      forall i | 0 <= i < |paths| ensures paths[i] != q {
        assert NamesPath(r.value.1, paths[i]);
        var k :| k in r.value.1 && r.value.1[k].path == paths[i];
        assert s.db.objects[k].path == q ==> ObjectNamed(s.db, q);
      }
    }
  }

  ghost predicate Undetected(s: State, q: Path)
  {
    Forgotten(s, q) && Settled(s, q) && PartRowsOk(s)
  }

  lemma WriteStepForgets(s: State, step: Step, q: Path)
    requires Undetected(s, q) && WriteStep(step)
    ensures Forgotten(ApplyWrite(s, step), q)
  {
    match step
    case BeginPut(slot, bytes, etag, cond) =>
      WritesForget(s, slot, bytes, etag, cond, q, q);
      ForgottenKept(s, DoBeginPut(s, slot, bytes, etag, cond), s.next, q);
    case BeginCopy(source, slot, cond) =>
      WritesForget(s, slot, [], "", cond, source, q);
      ForgottenKept(s, DoBeginCopy(s, source, slot, cond), s.next, q);
    case FinishWrite(a, write) =>
      FinishWriteForgets(s, a, write, q);
      ForgottenKept(s, DoFinishWrite(s, a, write), a, q);
    case RejectDigest(a) =>
      RejectDigestForgets(s, a, q);
      ForgottenKept(s, DoRejectDigest(s, a), a, q);
    case CommitWrite(a, fails) =>
      CommitWriteForgets(s, a, fails, q);
      ForgottenKept(s, DoCommitWrite(s, a, fails), a, q);
    case Discard(a, removed) =>
      DiscardForgets(s, a, removed, q);
      ForgottenKept(s, DoDiscard(s, a, removed), a, q);
    case Unlink(a, removed, stops) =>
      UnlinkForgets(s, a, removed, stops, q);
      ForgottenKept(s, DoUnlink(s, a, removed, stops), a, q);
  }

  lemma DeleteStepForgets(s: State, step: Step, q: Path)
    requires Undetected(s, q) && DeleteStep(step) && Calm(step, q)
    ensures Forgotten(ApplyDelete(s, step), q)
  {
    match step
    case BeginDelete(slot, path) =>
      BeginDeleteForgets(s, slot, path, slot.bucket, q);
      ForgottenKept(s, DoBeginDelete(s, slot, path), s.next, q);
    case DeleteRow(a, outcome) =>
      DeleteRowForgets(s, a, outcome, q);
      ForgottenKept(s, DoDeleteRow(s, a, outcome), a, q);
    case BeginEmpty(bucket) =>
      BeginDeleteForgets(s, Slot(bucket, ""), q, bucket, q);
      ForgottenKept(s, DoBeginEmpty(s, bucket), s.next, q);
    case ListPage(a, slots) =>
      ListPageForgets(s, a, slots, q);
      ForgottenKept(s, DoListPage(s, a, slots), a, q);
    case DeleteAllRows(a, outcome) =>
      DeleteAllRowsForgets(s, a, outcome, q);
      ForgottenKept(s, DoDeleteAllRows(s, a, outcome), a, q);
  }

  lemma PartStepForgets(s: State, step: Step, q: Path)
    requires Undetected(s, q) && PartStep(step)
    ensures Forgotten(ApplyPart(s, step), q)
  {
    match step
    case BeginPart(part, bytes, etag, partial) =>
      BeginPartForgets(s, part, bytes, etag, partial, q);
      ForgottenKept(s, DoBeginPart(s, part, bytes, etag, partial), s.next, q);
    case FinishPart(a, write) =>
      FinishPartForgets(s, a, write, q);
      ForgottenKept(s, DoFinishPart(s, a, write), a, q);
    case CommitPart(a, fails) =>
      CommitPartForgets(s, a, fails, q);
      ForgottenKept(s, DoCommitPart(s, a, fails), a, q);
  }

  lemma CompleteStepForgets(s: State, step: Step, q: Path)
    requires Undetected(s, q) && CompleteStep(step)
    ensures Forgotten(ApplyComplete(s, step), q)
  {
    match step
    case BeginComplete(upload, parts, cond) =>
      BeginCompleteTurns(s, upload, parts, cond);
      TurnForgets(s, DoBeginComplete(s, upload, parts, cond), s.next, q);
      ForgottenKept(s, DoBeginComplete(s, upload, parts, cond), s.next, q);
    case SelectParts(a, minPartSize, fails) =>
      SelectionTurns(s, a, minPartSize, fails);
      TurnForgets(s, DoSelectParts(s, a, minPartSize, fails), a, q);
      ForgottenKept(s, DoSelectParts(s, a, minPartSize, fails), a, q);
    case CopyPart(a, fails, cleaned) =>
      CopyPartTurns(s, a, fails, cleaned);
      TurnForgets(s, DoCopyPart(s, a, fails, cleaned), a, q);
      ForgottenKept(s, DoCopyPart(s, a, fails, cleaned), a, q);
    case FinishAssembly(a, write) =>
      AssemblyForgets(s, a, write, q);
      ForgottenKept(s, DoFinishAssembly(s, a, write), a, q);
  }

  lemma SettleStepForgets(s: State, step: Step, q: Path)
    requires Undetected(s, q) && SettleStep(step)
    ensures Forgotten(ApplySettle(s, step), q)
  {
    match step
    case CommitComplete(a, etag, fails) =>
      CommitCompleteForgets(s, a, etag, fails, q);
      ForgottenKept(s, DoCommitComplete(s, a, etag, fails), a, q);
    case DiscardAssembled(a, removed) =>
      DiscardAssembledForgets(s, a, removed, q);
      ForgottenKept(s, DoDiscardAssembled(s, a, removed), a, q);
    case UnlinkReplaced(a, removed) =>
      UnlinkReplacedForgets(s, a, removed, q);
      ForgottenKept(s, DoUnlinkReplaced(s, a, removed), a, q);
    case Release(a, outcome) =>
      ReleaseTurns(s, a, outcome);
      TurnForgets(s, DoRelease(s, a, outcome), a, q);
      ForgottenKept(s, DoRelease(s, a, outcome), a, q);
  }

  lemma AbortStepForgets(s: State, step: Step, q: Path)
    requires Undetected(s, q) && AbortStep(step)
    ensures Forgotten(ApplyAbort(s, step), q)
  {
    match step
    case BeginAbort(upload) =>
      BeginAbortTurns(s, upload);
      TurnForgets(s, DoBeginAbort(s, upload), s.next, q);
      ForgottenKept(s, DoBeginAbort(s, upload), s.next, q);
    case DeleteClaimed(a, outcome) =>
      DeleteClaimedTurns(s, a, outcome);
      TurnForgets(s, DoDeleteClaimed(s, a, outcome), a, q);
      ForgottenKept(s, DoDeleteClaimed(s, a, outcome), a, q);
    case RemovePartFiles(a, files, stops) =>
      RemovalForgets(s, a, files, stops, q);
      ForgottenKept(s, DoRemovePartFiles(s, a, files, stops), a, q);
  }

  lemma StaleStepForgets(s: State, step: Step, q: Path)
    requires Undetected(s, q) && StaleStep(step)
    ensures Forgotten(ApplyStale(s, step), q)
  {
    match step
    case BeginStale(upload) =>
      BeginStaleTurns(s, upload);
      TurnForgets(s, DoBeginStale(s, upload), s.next, q);
      ForgottenKept(s, DoBeginStale(s, upload), s.next, q);
    case ClaimStale(a, fails) =>
      ClaimStaleTurns(s, a, fails);
      TurnForgets(s, DoClaimStale(s, a, fails), a, q);
      ForgottenKept(s, DoClaimStale(s, a, fails), a, q);
    case DeleteStale(a, outcome) =>
      DeleteStaleTurns(s, a, outcome);
      TurnForgets(s, DoDeleteStale(s, a, outcome), a, q);
      ForgottenKept(s, DoDeleteStale(s, a, outcome), a, q);
  }

  lemma BucketStepForgets(s: State, step: Step, q: Path)
    requires Undetected(s, q) && BucketStep(step)
    ensures Forgotten(ApplyBucket(s, step), q)
  {
    match step
    case CreateBucket(bucket) =>
      BucketsForget(s, Slot(bucket, ""), q);
      ForgottenKept(s, DoCreateBucket(s, bucket), s.next, q);
    case CreateUpload(slot) =>
      BucketsForget(s, slot, q);
      ForgottenKept(s, DoCreateUpload(s, slot), s.next, q);
    case ForceDelete(bucket, paths) =>
      ForceDeleteForgets(s, bucket, paths, q);
      ForgottenKept(s, DoForceDelete(s, bucket, paths), s.next, q);
  }

  lemma BucketDeleteStepForgets(s: State, step: Step, q: Path)
    requires Undetected(s, q) && BucketDeleteStep(step)
    ensures Forgotten(ApplyBucketDelete(s, step), q)
  {
    match step
    case BeginBucketDelete(bucket) =>
      BucketsForget(s, Slot(bucket, ""), q);
      ForgottenKept(s, DoBeginBucketDelete(s, bucket), s.next, q);
    case ListUploads(a, uploads) =>
      BucketDeletionTurns(s, a, uploads);
      TurnForgets(s, DoListUploads(s, a, uploads), a, q);
      ForgottenKept(s, DoListUploads(s, a, uploads), a, q);
  }

  lemma BucketDropStepForgets(s: State, step: Step, q: Path)
    requires Undetected(s, q) && BucketDropStep(step)
    ensures Forgotten(ApplyBucketDrop(s, step), q)
  {
    match step
    case DropUploadOf(a, outcome) =>
      DropUploadOfTurns(s, a, outcome);
      TurnForgets(s, DoDropUploadOf(s, a, outcome), a, q);
      ForgottenKept(s, DoDropUploadOf(s, a, outcome), a, q);
    case DropBucket(a) =>
      BucketDeletionTurns(s, a, []);
      TurnForgets(s, DoDropBucket(s, a), a, q);
      ForgottenKept(s, DoDropBucket(s, a), a, q);
  }

  /** A serving store does not walk its directories. */
  lemma NoRecoveryWhileServing(s: State, step: Step)
    requires s.serving && !step.Crash?
    ensures TidyStep(step) ==> ApplyTidy(s, step) == s
    ensures RestartStep(step) ==> ApplyRestart(s, step) == s
  {
  }

  lemma StepForgets(s: State, step: Step, q: Path)
    requires Inv(s) && Forgotten(s, q) && Calm(step, q)
    ensures Forgotten(Apply(s, step), q)
  {
    UndetectedIn(s, q);
    if WriteStep(step) {
      WriteStepForgets(s, step, q);
    } else if DeleteStep(step) {
      DeleteStepForgets(s, step, q);
    } else if PartStep(step) {
      PartStepForgets(s, step, q);
    } else if CompleteStep(step) {
      CompleteStepForgets(s, step, q);
    } else if SettleStep(step) {
      SettleStepForgets(s, step, q);
    } else if AbortStep(step) {
      AbortStepForgets(s, step, q);
    } else if StaleStep(step) {
      StaleStepForgets(s, step, q);
    } else if BucketStep(step) {
      BucketStepForgets(s, step, q);
    } else if BucketDeleteStep(step) {
      BucketDeleteStepForgets(s, step, q);
    } else if BucketDropStep(step) {
      BucketDropStepForgets(s, step, q);
    } else {
      NoRecoveryWhileServing(s, step);
    }
  }

  lemma UndetectedIn(s: State, q: Path)
    requires Inv(s) && Forgotten(s, q)
    ensures Undetected(s, q)
  {
    VersionsAreSettled(s, q);
    InvIs(s);
  }

  /** Without a crash and without a DELETE that loads it again, a forgotten file is there after any run. */
  lemma {:induction false} RunForgets(s: State, more: seq<Step>, q: Path)
    requires Inv(s) && Forgotten(s, q) && forall i :: 0 <= i < |more| ==> Calm(more[i], q)
    ensures Forgotten(RunFrom(s, more), q)
  {
    if more == [] {
      assert RunFrom(s, more) == s;
    } else {
      var init := more[..|more| - 1];
      RunForgets(s, init, q);
      RunFromKeeps(s, init);
      StepForgets(RunFrom(s, init), more[|more| - 1], q);
    }
  }
}
