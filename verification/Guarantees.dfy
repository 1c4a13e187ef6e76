/**
 The guarantees of the store, over every run: any interleaving of requests, the cleaner, crashes
 and restarts, with any step failing.
 */
module Guarantees {
  import opened Wrappers
  import opened Metadata
  import opened History
  import opened Lifecycle
  import opened Invariant
  import opened Preservation
  import opened CompletedParts
  import ETags

  // ---- Objects and their files ----

  /**
   In every reachable state a key has a row exactly when some committed write of it was neither
   replaced nor removed, and the row names a complete file holding the bytes of that write.
   */
  lemma ReadsSeeTheLastWrite(steps: seq<Step>, k: Slot)
    ensures var s := Run(steps);
            && (k in s.db.objects <==> exists i :: LastWrite(s.log, k, i))
            && (forall i :: LastWrite(s.log, k, i) ==>
                  && k in s.db.objects
                  && s.db.objects[k] == ObjectRow(s.log[i].path, s.log[i].etag)
                  && s.db.objects[k].path in s.disk
                  && s.disk[s.db.objects[k].path] == File(s.log[i].bytes, true))
  {
    var s := Run(steps);
    RunKeeps(steps);
    InvIs(Run(steps));
    RowsMeaning(s.log, k);
    forall i | LastWrite(s.log, k, i) ensures k in s.db.objects && s.disk[s.db.objects[k].path] == File(s.log[i].bytes, true) {
      CommittedVersion(s.log, i);
    }
  }

  /** No two rows share a path. */
  lemma RowsHaveTheirOwnFiles(steps: seq<Step>, k: Slot, l: Slot)
    requires k in Run(steps).db.objects && l in Run(steps).db.objects && k != l
    ensures Run(steps).db.objects[k].path != Run(steps).db.objects[l].path
  {
    RunKeeps(steps);
    InvIs(Run(steps));
    RowsAreVersions(Run(steps).log);
  }

  /** A step either keeps every file or keeps every row, and it only appends to the history. */
  predicate OneThingAtATime(s: State, t: State)
  {
    && (s.disk.Keys <= t.disk.Keys || t.db == s.db)
    && s.log <= t.log
  }

  lemma WritesDoOneThing(s: State, step: Step)
    ensures WriteStep(step) ==> OneThingAtATime(s, ApplyWrite(s, step))
  {
  }

  lemma DeletionsDoOneThing(s: State, step: Step)
    ensures DeleteStep(step) ==> OneThingAtATime(s, ApplyDelete(s, step))
    ensures PartStep(step) ==> OneThingAtATime(s, ApplyPart(s, step))
  {
  }

  lemma CompletionsDoOneThing(s: State, step: Step)
    ensures CompleteStep(step) ==> OneThingAtATime(s, ApplyComplete(s, step))
    ensures SettleStep(step) ==> OneThingAtATime(s, ApplySettle(s, step))
  {
  }

  lemma AbortsDoOneThing(s: State, step: Step)
    ensures AbortStep(step) ==> OneThingAtATime(s, ApplyAbort(s, step))
    ensures StaleStep(step) ==> OneThingAtATime(s, ApplyStale(s, step))
  {
  }

  lemma BucketStepsDoOneThing(s: State, step: Step)
    ensures BucketStep(step) ==> OneThingAtATime(s, ApplyBucket(s, step))
    ensures BucketDeleteStep(step) ==> OneThingAtATime(s, ApplyBucketDelete(s, step))
    ensures BucketDropStep(step) ==> OneThingAtATime(s, ApplyBucketDrop(s, step))
  {
  }

  lemma RecoveryDoesOneThing(s: State, step: Step)
    ensures TidyStep(step) ==> OneThingAtATime(s, ApplyTidy(s, step))
    ensures RestartStep(step) ==> OneThingAtATime(s, ApplyRestart(s, step))
  {
  }

  lemma StepDoesOneThing(s: State, step: Step)
    ensures OneThingAtATime(s, Apply(s, step))
  {
    if WriteStep(step) {
      WritesDoOneThing(s, step);
    } else if DeleteStep(step) || PartStep(step) {
      DeletionsDoOneThing(s, step);
    } else if CompleteStep(step) || SettleStep(step) {
      CompletionsDoOneThing(s, step);
    } else if AbortStep(step) || StaleStep(step) {
      AbortsDoOneThing(s, step);
    } else if BucketStep(step) || BucketDeleteStep(step) || BucketDropStep(step) {
      BucketStepsDoOneThing(s, step);
    } else {
      RecoveryDoesOneThing(s, step);
    }
  }

  lemma ReferencedOnDisk(s: State, p: Path)
    requires Inv(s) && !Unreferenced(s.db, p)
    ensures p in s.disk
  {
    InvIs(s);
    PartFilesPresent(s);
  }

  /** No step removes a file that an object row or a part row names, before or after the step. */
  lemma NoReferencedFileIsRemoved(steps: seq<Step>, step: Step, p: Path)
    requires p in Run(steps).disk && p !in Apply(Run(steps), step).disk
    ensures Unreferenced(Run(steps).db, p) && Unreferenced(Apply(Run(steps), step).db, p)
  {
    var s := Run(steps);
    RunKeeps(steps);
    InvIs(Run(steps));
    StepKeeps(s, step);
    StepDoesOneThing(s, step);
    if !Unreferenced(Apply(s, step).db, p) {
      ReferencedOnDisk(Apply(s, step), p);
    }
  }

  /** Histories of later states extend those of earlier ones. */
  lemma {:induction false} HistoryExtends(s: State, steps: seq<Step>)
    ensures s.log <= RunFrom(s, steps).log
  {
    if steps == [] {
    } else {
      HistoryExtends(s, steps[..|steps| - 1]);
      StepDoesOneThing(RunFrom(s, steps[..|steps| - 1]), steps[|steps| - 1]);
    }
  }

  lemma {:induction false} RetiredThrough(log: Log, n: nat, p: Path)
    requires WellFormed(log) && n <= |log| && Retired(log[..n], p)
    ensures Retired(log, p)
    decreases |log|
  {
    if n < |log| {
      var init := log[..|log| - 1];
      Shorten(log);
      assert init[..n] == log[..n];
      RetiredThrough(init, n, p);
      assert log == init + [log[|log| - 1]];
      RetiredStays(init, log[|log| - 1], p);
    } else {
      assert log[..n] == log;
    }
  }

  /** A path that was committed and is no longer in the object table never returns to it. */
  lemma RetiredPathNeverReturns(steps: seq<Step>, more: seq<Step>, p: Path)
    requires p in Versions(Run(steps).log)
    requires forall k :: k in Run(steps).db.objects ==> Run(steps).db.objects[k].path != p
    ensures var t := RunFrom(Run(steps), more);
            forall k :: k in t.db.objects ==> t.db.objects[k].path != p
  {
    var s := Run(steps);
    var t := RunFrom(s, more);
    RunKeeps(steps);
    InvIs(Run(steps));
    RunFromKeeps(s, more);
    InvIs(RunFrom(s, more));
    HistoryExtends(s, more);
    assert t.log[..|s.log|] == s.log;
    RetiredThrough(t.log, |s.log|, p);
  }

  /** No object, upload or part row is left without its bucket or upload. */
  lemma NoDanglingRows(steps: seq<Step>)
    ensures ForeignKeys(Run(steps).db)
  {
    RunKeeps(steps);
    InvIs(Run(steps));
  }

  ghost predicate RemovesExactly(before: Db, after: Db, bucket: Bucket, paths: seq<Path>)
  {
    && bucket in before.buckets && after.buckets == before.buckets - {bucket}
    && after.uploads == before.uploads && after.parts == before.parts
    && after.objects.Keys == before.objects.Keys - SlotsIn(before, bucket)
    && (forall k :: k in after.objects ==> after.objects[k] == before.objects[k])
    && (forall p :: p in paths <==> exists k :: k in before.objects && k !in after.objects && before.objects[k].path == p)
  }

  /** A forced bucket deletion changes no row, or removes the bucket and goes on with exactly its files. */
  lemma ForcedDeletionIsAllOrNothing(s: State, bucket: Bucket, paths: seq<Path>)
    requires ForeignKeys(s.db)
    ensures var t := DoForceDelete(s, bucket, paths);
            t.db == s.db || (RemovesExactly(s.db, t.db, bucket, paths) && t.actors == s.actors[s.next := Unlinking(paths)])
  {
    ForcedDeletion(s.db, bucket);
    var r := DeleteWithObjects(s.db, bucket);
    if s.serving && r.Ok? && ExactlyPaths(paths, r.value.1) {
      forall p | p in paths ensures NamesPath(r.value.1, p) {
        var i :| 0 <= i < |paths| && paths[i] == p;
      }
    }
  }

  // ---- Claims ----

  /** An upload has at most one claimer, and none while it is active. */
  lemma ClaimsAreExclusive(steps: seq<Step>, a: Id, b: Id, u: Id)
    requires a in Run(steps).actors && b in Run(steps).actors
    requires Holds(Run(steps).actors[a]) == Some(u)
    ensures u in Run(steps).db.uploads ==> Run(steps).db.uploads[u].status != Active
    ensures Holds(Run(steps).actors[b]) == Some(u) ==> a == b
  {
    RunKeeps(steps);
    InvIs(Run(steps));
    assert ActorOk(Run(steps), a, Run(steps).actors[a]);
  }

  /** The commit of a completion never finds the upload active or aborted. */
  lemma CompleterMeetsOnlyItsClaim(steps: seq<Step>, a: Id, row: ObjectRow)
    requires a in Run(steps).actors && Run(steps).actors[a].Assembled?
    ensures var s, pc := Run(steps), Run(steps).actors[a];
            CompleteUpload(s.db, pc.upload, pc.slot, row, pc.cond) != Err(UploadAlreadyClaimed)
  {
    RunKeeps(steps);
    InvIs(Run(steps));
    CompleterKeepsClaim(Run(steps), a, row);
  }

  function PartRowsOf(db: Db, u: Id): map<PartSlot, PartRow>
  {
    map x | x in db.parts && x.upload == u :: db.parts[x]
  }

  predicate SameUpload(db: Db, after: Db, u: Id)
  {
    && u in db.uploads && u in after.uploads && after.uploads[u] == db.uploads[u]
    && PartRowsOf(after, u) == PartRowsOf(db, u)
  }

  predicate TouchesUploads(step: Step)
  {
    || step.CommitPart? || step.BeginComplete? || step.CommitComplete? || step.Release? || step.BeginAbort?
    || step.ClaimStale? || step.DeleteStale? || step.DeleteClaimed? || step.DropUploadOf?
  }

  predicate SameUploads(s: State, t: State)
  {
    t.db.uploads == s.db.uploads && t.db.parts == s.db.parts
  }

  lemma WritesLeaveUploads(s: State, step: Step)
    ensures WriteStep(step) ==> SameUploads(s, ApplyWrite(s, step))
  {
  }

  lemma DeletionsLeaveUploads(s: State, step: Step)
    ensures DeleteStep(step) ==> SameUploads(s, ApplyDelete(s, step))
  {
  }

  lemma PartStepsLeaveUploads(s: State, step: Step)
    ensures PartStep(step) && !TouchesUploads(step) ==> SameUploads(s, ApplyPart(s, step))
  {
  }

  lemma AssemblyLeavesUploads(s: State, step: Step)
    ensures CompleteStep(step) && !TouchesUploads(step) && !step.CreateUpload? ==> SameUploads(s, ApplyComplete(s, step))
  {
  }

  lemma SettlingLeavesUploads(s: State, step: Step)
    ensures SettleStep(step) && !TouchesUploads(step) && !step.CreateUpload? ==> SameUploads(s, ApplySettle(s, step))
    ensures AbortStep(step) && !TouchesUploads(step) && !step.CreateUpload? ==> SameUploads(s, ApplyAbort(s, step))
    ensures StaleStep(step) && !TouchesUploads(step) && !step.CreateUpload? ==> SameUploads(s, ApplyStale(s, step))
  {
  }

  lemma BucketStepsLeaveUploads(s: State, step: Step)
    ensures BucketStep(step) && !TouchesUploads(step) && !step.CreateUpload? ==> SameUploads(s, ApplyBucket(s, step))
    ensures BucketDeleteStep(step) && !TouchesUploads(step) && !step.CreateUpload? ==> SameUploads(s, ApplyBucketDelete(s, step))
    ensures BucketDropStep(step) && !TouchesUploads(step) && !step.CreateUpload? ==> SameUploads(s, ApplyBucketDrop(s, step))
  {
  }

  lemma RecoveryLeavesUploads(s: State, step: Step)
    ensures TidyStep(step) && !TouchesUploads(step) && !step.CreateUpload? ==> SameUploads(s, ApplyTidy(s, step))
    ensures RestartStep(step) && !TouchesUploads(step) && !step.CreateUpload? ==> SameUploads(s, ApplyRestart(s, step))
  {
  }

  lemma OtherStepsLeaveUploads(s: State, step: Step)
    requires !TouchesUploads(step) && !step.CreateUpload?
    ensures SameUploads(s, Apply(s, step))
  {
    if WriteStep(step) {
      WritesLeaveUploads(s, step);
    } else if DeleteStep(step) {
      DeletionsLeaveUploads(s, step);
    } else if PartStep(step) {
      PartStepsLeaveUploads(s, step);
    } else if CompleteStep(step) {
      AssemblyLeavesUploads(s, step);
    } else if SettleStep(step) || AbortStep(step) || StaleStep(step) {
      SettlingLeavesUploads(s, step);
    } else if BucketStep(step) || BucketDeleteStep(step) || BucketDropStep(step) {
      BucketStepsLeaveUploads(s, step);
    } else {
      RecoveryLeavesUploads(s, step);
    }
  }

  /**
   While a request holds a claim, no step changes the status or the parts of the upload, neither
   another request's nor its own, until the step with which it gives the claim up. Others can only
   make the upload disappear.
   */
  lemma ClaimUndisturbed(steps: seq<Step>, step: Step, a: Id, u: Id)
    requires a in Run(steps).actors && Holds(Run(steps).actors[a]) == Some(u)
    requires a in Apply(Run(steps), step).actors && Holds(Apply(Run(steps), step).actors[a]) == Some(u)
    requires u in Apply(Run(steps), step).db.uploads
    ensures SameUpload(Run(steps).db, Apply(Run(steps), step).db, u)
  {
    HolderIsAlone(steps, a, u);
    StepLeaves(Run(steps), step, a, u);
  }

  lemma HolderIsAlone(steps: seq<Step>, a: Id, u: Id)
    requires a in Run(steps).actors && Holds(Run(steps).actors[a]) == Some(u)
    ensures OnlyHolder(Run(steps), a, u) && u < Run(steps).next
  {
    RunKeeps(steps);
    InvIs(Run(steps));
    assert ActorOk(Run(steps), a, Run(steps).actors[a]);
  }

  predicate OnlyHolder(s: State, a: Id, u: Id)
  {
    && (u in s.db.uploads ==> s.db.uploads[u].status != Active)
    && (forall b :: b in s.actors && Holds(s.actors[b]) == Some(u) ==> b == a)
  }

  predicate Undisturbed(s: State, t: State, a: Id, u: Id)
  {
    a in t.actors && u in t.db.uploads && u < s.next ==> SameUpload(s.db, t.db, u)
  }

  // Claims and new parts need an active upload.

  lemma CommitPartLeaves(s: State, b: Id, fails: bool, a: Id, u: Id)
    requires OnlyHolder(s, a, u)
    ensures Undisturbed(s, DoCommitPart(s, b, fails), a, u)
  {
  }

  lemma ClaimsLeave(s: State, upload: Id, parts: seq<CompletePart>, cond: Conditions, a: Id, u: Id)
    requires OnlyHolder(s, a, u)
    ensures Undisturbed(s, DoBeginComplete(s, upload, parts, cond), a, u)
  {
  }

  lemma AbortLeaves(s: State, upload: Id, a: Id, u: Id)
    requires OnlyHolder(s, a, u)
    ensures Undisturbed(s, DoBeginAbort(s, upload), a, u)
  {
  }

  lemma ClaimStaleLeaves(s: State, b: Id, fails: bool, a: Id, u: Id)
    requires OnlyHolder(s, a, u)
    ensures Undisturbed(s, DoClaimStale(s, b, fails), a, u)
  {
  }

  // Deletions remove the upload, and only the holder gives the claim back.

  lemma CommitCompleteLeaves(s: State, b: Id, etag: string, fails: bool, a: Id, u: Id)
    requires OnlyHolder(s, a, u)
    ensures Undisturbed(s, DoCommitComplete(s, b, etag, fails), a, u)
  {
  }

  lemma ReleaseLeaves(s: State, b: Id, outcome: Outcome, a: Id, u: Id)
    requires OnlyHolder(s, a, u)
    ensures Undisturbed(s, DoRelease(s, b, outcome), a, u)
  {
  }

  lemma StaleDeletionLeaves(s: State, b: Id, outcome: Outcome, a: Id, u: Id)
    requires OnlyHolder(s, a, u)
    ensures Undisturbed(s, DoDeleteStale(s, b, outcome), a, u)
  {
  }

  lemma ClaimedDeletionLeaves(s: State, b: Id, outcome: Outcome, a: Id, u: Id)
    requires OnlyHolder(s, a, u)
    ensures Undisturbed(s, DoDeleteClaimed(s, b, outcome), a, u)
  {
  }

  lemma BucketDeletionLeaves(s: State, b: Id, outcome: Outcome, a: Id, u: Id)
    requires OnlyHolder(s, a, u)
    ensures Undisturbed(s, DoDropUploadOf(s, b, outcome), a, u)
  {
  }

  lemma ClaimStepLeaves(s: State, step: Step, a: Id, u: Id)
    requires OnlyHolder(s, a, u)
    ensures step.CommitPart? ==> Undisturbed(s, ApplyPart(s, step), a, u)
    ensures step.BeginComplete? ==> Undisturbed(s, ApplyComplete(s, step), a, u)
    ensures step.Release? ==> Undisturbed(s, ApplySettle(s, step), a, u)
  {
    match step
    case CommitPart(b, fails) => CommitPartLeaves(s, b, fails, a, u);
    case BeginComplete(upload, parts, cond) => ClaimsLeave(s, upload, parts, cond, a, u);
    case Release(b, outcome) => ReleaseLeaves(s, b, outcome, a, u);
    case _ =>
  }

  lemma AbortStepLeaves(s: State, step: Step, a: Id, u: Id)
    requires OnlyHolder(s, a, u)
    ensures step.BeginAbort? ==> Undisturbed(s, ApplyAbort(s, step), a, u)
    ensures step.ClaimStale? ==> Undisturbed(s, ApplyStale(s, step), a, u)
  {
    match step
    case BeginAbort(upload) => AbortLeaves(s, upload, a, u);
    case ClaimStale(b, fails) => ClaimStaleLeaves(s, b, fails, a, u);
    case _ =>
  }

  lemma DeleteStepLeaves(s: State, step: Step, a: Id, u: Id)
    requires OnlyHolder(s, a, u)
    ensures step.CommitComplete? ==> Undisturbed(s, ApplySettle(s, step), a, u)
    ensures step.DropUploadOf? ==> Undisturbed(s, ApplyBucketDrop(s, step), a, u)
  {
    match step
    case CommitComplete(b, etag, fails) => CommitCompleteLeaves(s, b, etag, fails, a, u);
    case DropUploadOf(b, outcome) => BucketDeletionLeaves(s, b, outcome, a, u);
    case _ =>
  }

  lemma RemovalStepLeaves(s: State, step: Step, a: Id, u: Id)
    requires OnlyHolder(s, a, u)
    ensures step.DeleteStale? ==> Undisturbed(s, ApplyStale(s, step), a, u)
    ensures step.DeleteClaimed? ==> Undisturbed(s, ApplyAbort(s, step), a, u)
  {
    match step
    case DeleteStale(b, outcome) => StaleDeletionLeaves(s, b, outcome, a, u);
    case DeleteClaimed(b, outcome) => ClaimedDeletionLeaves(s, b, outcome, a, u);
    case _ =>
  }

  lemma ClaimingLeaves(s: State, step: Step, a: Id, u: Id)
    requires OnlyHolder(s, a, u) && (step.CommitPart? || step.BeginComplete? || step.Release?)
    ensures Undisturbed(s, Apply(s, step), a, u)
  {
    ClaimStepLeaves(s, step, a, u);
  }

  lemma AbortingLeaves(s: State, step: Step, a: Id, u: Id)
    requires OnlyHolder(s, a, u) && (step.BeginAbort? || step.ClaimStale?)
    ensures Undisturbed(s, Apply(s, step), a, u)
  {
    AbortStepLeaves(s, step, a, u);
  }

  lemma RemovingLeaves(s: State, step: Step, a: Id, u: Id)
    requires OnlyHolder(s, a, u) && (step.DeleteStale? || step.DeleteClaimed?)
    ensures Undisturbed(s, Apply(s, step), a, u)
  {
    RemovalStepLeaves(s, step, a, u);
  }

  lemma DroppingLeaves(s: State, step: Step, a: Id, u: Id)
    requires OnlyHolder(s, a, u) && (step.CommitComplete? || step.DropUploadOf?)
    ensures Undisturbed(s, Apply(s, step), a, u)
  {
    DeleteStepLeaves(s, step, a, u);
  }

  lemma SameUploadsUndisturbed(s: State, t: State, a: Id, u: Id)
    requires SameUploads(s, t)
    ensures Undisturbed(s, t, a, u)
  {
  }

  lemma CreationLeaves(s: State, slot: Slot, a: Id, u: Id)
    ensures Undisturbed(s, DoCreateUpload(s, slot), a, u)
  {
  }

  lemma StepLeaves(s: State, step: Step, a: Id, u: Id)
    requires OnlyHolder(s, a, u)
    ensures Undisturbed(s, Apply(s, step), a, u)
  {
    if step.CommitPart? || step.BeginComplete? || step.Release? {
      ClaimingLeaves(s, step, a, u);
    } else if step.BeginAbort? || step.ClaimStale? {
      AbortingLeaves(s, step, a, u);
    } else if step.DeleteStale? || step.DeleteClaimed? {
      RemovingLeaves(s, step, a, u);
    } else if TouchesUploads(step) {
      DroppingLeaves(s, step, a, u);
    } else if step.CreateUpload? {
      CreationLeaves(s, step.slot, a, u);
    } else {
      OtherStepsLeaveUploads(s, step);
      SameUploadsUndisturbed(s, Apply(s, step), a, u);
    }
  }

  // ---- Completed uploads ----

  /** The j-th commit stored part x and nothing stored it again before i. */
  predicate LastStoredBefore(log: Log, i: nat, x: PartSlot, j: int)
  {
    && 0 <= j < i <= |log| && log[j].PartStored? && log[j].part == x
    && forall m :: j < m < i ==> !(log[m].PartStored? && log[m].part == x)
  }

  function JoinedParts(log: Log, js: seq<nat>): Bytes
  {
    if js == [] then []
    else
      var j := js[|js| - 1];
      JoinedParts(log, js[..|js| - 1]) + if j < |log| && log[j].PartStored? then log[j].bytes else []
  }

  lemma {:induction false} LastPartsMeaning(log: Log, x: PartSlot) returns (j: nat)
    requires x in LastParts(log)
    ensures LastStoredBefore(log, |log|, x, j)
    ensures log[j].path == LastParts(log)[x]
  {
    var n := |log| - 1;
    if log[n].PartStored? && log[n].part == x {
      j := n;
    } else {
      j := LastPartsMeaning(log[..n], x);
    }
  }

  lemma {:induction false} JoinedMeaning(log: Log, paths: seq<Path>, js: seq<nat>)
    requires |js| == |paths|
    requires forall i :: 0 <= i < |js| ==> js[i] < |log| && log[js[i]].PartStored?
    requires forall i :: 0 <= i < |js| ==>
               paths[i] in Versions(log) && Versions(log)[paths[i]].bytes == log[js[i]].bytes
    ensures Joined(Versions(log), paths) == JoinedParts(log, js)
  {
    if js == [] {
    } else {
      JoinedMeaning(log, paths[..|js| - 1], js[..|js| - 1]);
    }
  }

  lemma LastStoredAll(log: Log, u: Id, numbers: seq<int>) returns (js: seq<nat>)
    requires WellFormed(log) && AllStored(log, u, numbers)
    ensures |js| == |numbers|
    ensures forall i :: 0 <= i < |js| ==> LastStoredBefore(log, |log|, PartSlot(u, numbers[i]), js[i])
    ensures forall i :: 0 <= i < |js| ==>
              js[i] < |log| && log[js[i]].PartStored? && LastParts(log)[PartSlot(u, numbers[i])] in Versions(log)
              && log[js[i]].etag == Versions(log)[LastParts(log)[PartSlot(u, numbers[i])]].etag
    ensures Joined(Versions(log), LastVersionPaths(log, u, numbers)) == JoinedParts(log, js)
  {
    var paths := LastVersionPaths(log, u, numbers);
    js := [];
    for n := 0 to |numbers|
      invariant |js| == n
      invariant forall i :: 0 <= i < n ==>
                  && LastStoredBefore(log, |log|, PartSlot(u, numbers[i]), js[i])
                  && paths[i] in Versions(log)
                  && Versions(log)[paths[i]]
                     == PartVersion(PartSlot(u, numbers[i]), log[js[i]].etag, log[js[i]].bytes)
    {
      var j := LastPartsMeaning(log, PartSlot(u, numbers[n]));
      CommittedVersion(log, j);
      js := js + [j];
    }
    JoinedMeaning(log, paths, js);
  }

  /** What a committed completion is made of: js are the commits that stored its parts. */
  ghost predicate MadeOf(log: Log, i: nat, js: seq<nat>)
    requires i < |log| && log[i].Stored? && log[i].origin.AssembledFrom?
  {
    var upload, requested := log[i].origin.upload, log[i].origin.requested;
    && requested != [] && Ascending(Numbers(requested)) && |js| == |requested|
    && (forall n :: 0 <= n < |js| ==> LastStoredBefore(log, i, PartSlot(upload, requested[n].number), js[n])
                                      && ETags.Equal(requested[n].etag, log[js[n]].etag))
    && log[i].bytes == JoinedParts(log, js)
  }

  lemma CompletionHasItsParts(steps: seq<Step>, i: nat) returns (js: seq<nat>)
    requires i < |Run(steps).log| && Run(steps).log[i].Stored? && Run(steps).log[i].origin.AssembledFrom?
    ensures MadeOf(Run(steps).log, i, js)
  {
    LogIsWellFormed(steps);
    CompletionWasOk(Run(steps).log, i);
    js := CompletionInLog(Run(steps).log, i);
  }

  lemma LogIsWellFormed(steps: seq<Step>)
    ensures WellFormed(Run(steps).log)
  {
    RunKeeps(steps);
    InvIs(Run(steps));
  }

  lemma CompletionWasOk(log: Log, i: nat)
    requires WellFormed(log) && i < |log| && log[i].Stored? && log[i].origin.AssembledFrom?
    ensures WellFormed(log[..i]) && OriginOk(log[..i], log[i].origin, log[i].etag, log[i].bytes)
  {
    PrefixWellFormed(log, i);
    assert EventOk(log[..i], log[i]);
  }

  lemma CompletionInLog(log: Log, i: nat) returns (js: seq<nat>)
    requires i < |log| && log[i].Stored? && log[i].origin.AssembledFrom?
    requires WellFormed(log[..i]) && OriginOk(log[..i], log[i].origin, log[i].etag, log[i].bytes)
    ensures MadeOf(log, i, js)
  {
    var upload, requested := log[i].origin.upload, log[i].origin.requested;
    js := LastStoredAll(log[..i], upload, Numbers(requested));
    JoinedPrefix(log, i, js);
    forall n | 0 <= n < |js|
      ensures LastStoredBefore(log, i, PartSlot(upload, requested[n].number), js[n])
      ensures ETags.Equal(requested[n].etag, log[js[n]].etag)
    {
      assert LastStoredBefore(log[..i], i, PartSlot(upload, Numbers(requested)[n]), js[n]);
      LastStoredPrefix(log, i, PartSlot(upload, requested[n].number), js[n]);
      assert TagMatches(log[..i], upload, requested[n]);
    }
  }

  lemma LastStoredPrefix(log: Log, i: nat, x: PartSlot, j: nat)
    requires i <= |log| && LastStoredBefore(log[..i], i, x, j)
    ensures LastStoredBefore(log, i, x, j)
  {
    forall m | j < m < i ensures !(log[m].PartStored? && log[m].part == x) {
      assert log[..i][m] == log[m];
    }
  }

  lemma {:induction false} JoinedPrefix(log: Log, n: nat, js: seq<nat>)
    requires n <= |log| && forall i :: 0 <= i < |js| ==> js[i] < n && log[js[i]].PartStored?
    ensures JoinedParts(log[..n], js) == JoinedParts(log, js)
  {
    if js == [] {
    } else {
      JoinedPrefix(log, n, js[..|js| - 1]);
    }
  }

  /** An upload completes at most once, and no part of it is stored afterwards. */
  lemma CompletedIsFinal(steps: seq<Step>, i: nat, j: nat)
    requires i < j < |Run(steps).log|
    requires Run(steps).log[i].Stored? && Run(steps).log[i].origin.AssembledFrom?
    ensures var u, later := Run(steps).log[i].origin.upload, Run(steps).log[j];
            && (later.Stored? && later.origin.AssembledFrom? ==> later.origin.upload != u)
            && (later.PartStored? ==> later.part.upload != u)
  {
    var log := Run(steps).log;
    RunKeeps(steps);
    InvIs(Run(steps));
    assert EventOk(log[..j], log[j]);
    assert log[..j][i] == log[i];
    CompletedGrows(log[..j], i);
  }

  lemma {:induction false} CompletedGrows(log: Log, i: nat)
    requires i < |log| && log[i].Stored? && log[i].origin.AssembledFrom?
    ensures log[i].origin.upload in Completed(log)
  {
    if i < |log| - 1 {
      CompletedGrows(log[..|log| - 1], i);
    }
  }

  /** A copy has the bytes and the tag of a version that was committed before it. */
  lemma {:induction false} CopyIsAVersion(log: Log, p: Path) returns (i: nat)
    requires WellFormed(log) && p in Versions(log) && Versions(log)[p].ObjectVersion?
    ensures i < |log| && log[i].Stored? && log[i].path == p
    ensures Versions(log)[p] == ObjectVersion(log[i].slot, log[i].etag, log[i].bytes)
  {
    var n := |log| - 1;
    Shorten(log);
    if log[n].Stored? && log[n].path == p {
      i := n;
    } else {
      i := CopyIsAVersion(log[..n], p);
    }
  }

  lemma CopiesAreFaithful(steps: seq<Step>, j: nat) returns (i: nat)
    requires j < |Run(steps).log| && Run(steps).log[j].Stored? && Run(steps).log[j].origin.CopiedFrom?
    ensures var log := Run(steps).log;
            i < j && log[i].Stored? && log[i].path == log[j].origin.source
            && log[i].etag == log[j].etag && log[i].bytes == log[j].bytes
  {
    var log := Run(steps).log;
    RunKeeps(steps);
    InvIs(Run(steps));
    assert EventOk(log[..j], log[j]);
    PrefixWellFormed(log, j);
    i := CopyIsAVersion(log[..j], log[j].origin.source);
  }

  // ---- Conditional writes and replaced paths, over runs ----

  /** Between a write of a key and a later successful If-None-Match: * write of it, the key was deleted. */
  lemma CreateOnlyAfterDelete(steps: seq<Step>, k: Slot, i: nat, j: nat)
    requires i < j < |Run(steps).log|
    requires Run(steps).log[i].Stored? && Run(steps).log[i].slot == k
    requires Run(steps).log[j].Stored? && Run(steps).log[j].slot == k && Run(steps).log[j].cond.ifNoneMatch == "*"
    ensures RemovedBetween(Run(steps).log, k, i, j)
  {
    RunKeeps(steps);
    InvIs(Run(steps));
    CreateOnceUntilDeleted(Run(steps).log, k, i, j);
  }

  /** A successful write with a specific If-Match replaced the last write of its key, and that had the tag. */
  lemma MatchedWritesReplace(steps: seq<Step>, j: nat) returns (i: nat)
    requires j < |Run(steps).log| && Run(steps).log[j].Stored?
    requires Run(steps).log[j].cond.ifMatch != "" && Run(steps).log[j].cond.ifMatch != "*"
    ensures var log := Run(steps).log;
            && LastWrite(log[..j], log[j].slot, i) && ETags.Equal(log[j].cond.ifMatch, log[i].etag)
            && log[j].replaced == Some(ObjectRow(log[i].path, log[i].etag))
  {
    LogIsWellFormed(steps);
    i := MatchedVersionReplaced(Run(steps).log, j);
  }

  /** No two commits of a run hand out the same replaced path. */
  lemma ReplacedPathsAreDistinct(steps: seq<Step>, i: nat, j: nat)
    requires i < j < |Run(steps).log|
    requires Run(steps).log[i].Stored? && Run(steps).log[j].Stored?
    requires Run(steps).log[i].replaced.Some? && Run(steps).log[j].replaced.Some?
    ensures Run(steps).log[i].replaced.value.path != Run(steps).log[j].replaced.value.path
  {
    RunKeeps(steps);
    InvIs(Run(steps));
    ReplacedOnce(Run(steps).log, i, j);
  }

  // ---- Startup reconciliation ----

  function ObjectFiles(s: State): set<Path>
  {
    set p | p in s.disk && p.ObjectPath?
  }

  function RowPaths(s: State): set<Path>
  {
    set k | k in s.db.objects :: s.db.objects[k].path
  }

  /**
   Whatever the crash left behind, once recovery has finished the object files are exactly those
   the rows name, part files belong to existing uploads, and no temporary file is left.
   */
  lemma RecoveryIsExact(steps: seq<Step>)
    requires !Run(steps).serving && Apply(Run(steps), FinishRecovery).serving
    ensures var t := Apply(Run(steps), FinishRecovery);
            && ObjectFiles(t) == RowPaths(t)
            && (forall p :: p in t.disk && p.PartPath? ==> p.upload in t.db.uploads)
            && (forall x :: x in t.db.parts ==> t.db.parts[x].path in t.disk)
            && t.temps == {}
  {
    RunKeeps(steps);
    ReconciledIsExact(Run(steps));
  }

  lemma ReconciledIsExact(s: State)
    requires Inv(s) && Reconciled(s)
    ensures ObjectFiles(s) == RowPaths(s)
    ensures forall p :: p in s.disk && p.PartPath? ==> p.upload in s.db.uploads
    ensures forall x :: x in s.db.parts ==> s.db.parts[x].path in s.disk
  {
    InvIs(s);
    PartFilesPresent(s);
    forall p | p in s.disk && p.ObjectPath? ensures p in RowPaths(s) {
      assert !Orphan(s.db, p);
    }
  }

  /** A second recovery removes nothing. */
  lemma RecoveryIsIdempotent(s: State, step: Step)
    requires Reconciled(s) && TidyStep(step)
    ensures Apply(s, step).disk == s.disk && Apply(s, step).temps == s.temps && Apply(s, step).db == s.db
  {
  }

  lemma MapShrinks<K, V>(m: map<K, V>, k: K)
    requires k in m
    ensures |m - {k}| < |m|
  {
    assert (m - {k}).Keys == m.Keys - {k};
    assert |m - {k}| == |(m - {k}).Keys|;
  }

  lemma TidyTemp(s: State, id: Id)
    requires !s.serving && id in s.temps
    ensures Apply(s, PurgeTemp(id)) == s.(temps := s.temps - {id})
    ensures |s.temps - {id}| < |s.temps|
  {
  }

  lemma TidyFile(s: State, p: Path) returns (step: Step)
    requires !s.serving && p in s.disk && Leftover(s.db, p)
    ensures TidyStep(step) && Apply(s, step) == s.(disk := s.disk - {p})
    ensures |s.disk - {p}| < |s.disk|
  {
    step := if Orphan(s.db, p) then RemoveOrphan(p) else RemoveOrphanParts(p);
    MapShrinks(s.disk, p);
  }

  /** As long as something is left to tidy, one recovery step makes the leftovers smaller. */
  lemma SomethingToTidy(s: State) returns (step: Step)
    requires !s.serving && !Reconciled(s)
    ensures TidyStep(step)
    ensures var t := Apply(s, step);
            !t.serving && t.db == s.db && t.log == s.log && |t.temps| + |t.disk| < |s.temps| + |s.disk|
  {
    if s.temps != {} {
      var id :| id in s.temps;
      step := PurgeTemp(id);
      TidyTemp(s, id);
    } else {
      var p :| p in s.disk && Leftover(s.db, p);
      step := TidyFile(s, p);
    }
  }

  /** Recovery never gets stuck: from any state after a crash it can finish, with every row as it was. */
  lemma RecoveryCanFinish(s: State) returns (tidy: seq<Step>)
    requires !s.serving
    ensures forall i :: 0 <= i < |tidy| ==> TidyStep(tidy[i])
    ensures var t := RunFrom(s, tidy);
            !t.serving && Reconciled(t) && t.db == s.db && t.log == s.log && Apply(t, FinishRecovery).serving
    decreases |s.temps| + |s.disk|
  {
    if Reconciled(s) {
      tidy := [];
    } else {
      var step := SomethingToTidy(s);
      var rest := RecoveryCanFinish(Apply(s, step));
      tidy := [step] + rest;
      RunSplits(s, step, rest);
    }
  }

  lemma {:induction false} RunSplits(s: State, step: Step, rest: seq<Step>)
    ensures RunFrom(s, [step] + rest) == RunFrom(Apply(s, step), rest)
  {
    var all := [step] + rest;
    if rest == [] {
      assert all[..0] == [];
      assert RunFrom(s, all[..0]) == s;
    } else {
      assert all[..|all| - 1] == [step] + rest[..|rest| - 1];
      RunSplits(s, step, rest[..|rest| - 1]);
    }
  }

  lemma {:induction false} RunJoins(s: State, first: seq<Step>, last: seq<Step>)
    ensures RunFrom(s, first + last) == RunFrom(RunFrom(s, first), last)
  {
    var all := first + last;
    if last == [] {
      assert all == first;
    } else {
      assert all[..|all| - 1] == first + last[..|last| - 1];
      RunJoins(s, first, last[..|last| - 1]);
    }
  }
}
