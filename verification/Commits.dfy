/**
 When a commit succeeds, whatever ran since its request began, and what it then changes. In a reachable state the step
 that commits is decided by the rows it finds, and by nothing else.
 */
module Commits {
  import opened Wrappers
  import opened Metadata
  import opened History
  import opened Lifecycle
  import opened Invariant
  import opened CompletedParts

  /** The rows and the history are as before. */
  predicate NoCommit(s: State, t: State)
  {
    t.db == s.db && t.log == s.log && t.disk == s.disk
  }

  /** The key has this row now, and the history has this commit; no other object row, bucket or file changes. */
  predicate PutsRow(s: State, t: State, slot: Slot, row: ObjectRow, e: Event)
  {
    && t.db.objects == s.db.objects[slot := row] && t.db.buckets == s.db.buckets
    && t.log == s.log + [e] && t.disk == s.disk
  }

  /**
   The commit of a PUT or a copy succeeds if and only if the bucket exists and the conditions hold for the row of the
   key at this moment. The row then names the complete file with the bytes of the request.
   */
  lemma WriteCommits(s: State, a: Id)
    requires Inv(s) && a in s.actors && s.actors[a].Written?
    ensures var pc, t := s.actors[a], Apply(s, CommitWrite(a, false));
            var path, was := ObjectPath(pc.slot.bucket, a), Lookup(s.db.objects, pc.slot);
            if pc.slot.bucket in s.db.buckets && Satisfied(was, pc.cond)
            then PutsRow(s, t, pc.slot, ObjectRow(path, pc.etag),
                         Stored(pc.slot, path, pc.etag, pc.bytes, pc.cond, pc.origin, was))
                 && t.db.uploads == s.db.uploads && t.db.parts == s.db.parts
                 && path in t.disk && t.disk[path] == File(pc.bytes, true)
            else NoCommit(s, t)
  {
    InvAt(s, a);
    WriteCommitsIn(s, a);
  }

  lemma WriteCommitsIn(s: State, a: Id)
    requires a in s.actors && s.actors[a].Written?
    ensures var pc, t := s.actors[a], DoCommitWrite(s, a, false);
            var path, was := ObjectPath(pc.slot.bucket, a), Lookup(s.db.objects, pc.slot);
            if pc.slot.bucket in s.db.buckets && Satisfied(was, pc.cond)
            then PutsRow(s, t, pc.slot, ObjectRow(path, pc.etag),
                         Stored(pc.slot, path, pc.etag, pc.bytes, pc.cond, pc.origin, was))
                 && t.db.uploads == s.db.uploads && t.db.parts == s.db.parts
            else NoCommit(s, t)
  {
  }

  /** A part is stored if and only if its upload is active at this moment. */
  lemma PartCommits(s: State, a: Id)
    requires Inv(s) && a in s.actors && s.actors[a].PartWritten?
    ensures var pc, t := s.actors[a], Apply(s, CommitPart(a, false));
            var path := PartPath(pc.part.upload, pc.part.number, a);
            if pc.part.upload in s.db.uploads && s.db.uploads[pc.part.upload].status == Active
            then && t.db == s.db.(parts := s.db.parts[pc.part := StoredPart(path, |pc.bytes|, pc.etag)])
                 && t.log == s.log + [PartStored(pc.part, path, pc.etag, pc.bytes)]
                 && t.disk == s.disk && path in t.disk && t.disk[path] == File(pc.bytes, true)
            else NoCommit(s, t)
  {
    InvAt(s, a);
    PartCommitsIn(s, a);
  }

  lemma PartCommitsIn(s: State, a: Id)
    requires a in s.actors && s.actors[a].PartWritten?
    ensures var pc, t := s.actors[a], DoCommitPart(s, a, false);
            var path := PartPath(pc.part.upload, pc.part.number, a);
            if pc.part.upload in s.db.uploads && s.db.uploads[pc.part.upload].status == Active
            then && t.db == s.db.(parts := s.db.parts[pc.part := StoredPart(path, |pc.bytes|, pc.etag)])
                 && t.log == s.log + [PartStored(pc.part, path, pc.etag, pc.bytes)] && t.disk == s.disk
            else NoCommit(s, t)
  {
  }

  /** The upload and its parts are gone, and no other upload or part is touched. */
  predicate TakesUpload(s: State, t: State, u: Id)
  {
    && t.db.uploads == s.db.uploads - {u}
    && t.db.parts == s.db.parts - (set x | x in s.db.parts && x.upload == u)
  }

  /** The key has the assembled object now, and the upload is gone. */
  predicate CommitsCompletion(s: State, t: State, a: Id, pc: Actor, etag: string)
    requires pc.Assembled?
  {
    var path := ObjectPath(pc.slot.bucket, a);
    && PutsRow(s, t, pc.slot, ObjectRow(path, etag),
               Stored(pc.slot, path, etag, pc.bytes, pc.cond, AssembledFrom(pc.upload, pc.requested),
                      Lookup(s.db.objects, pc.slot)))
    && TakesUpload(s, t, pc.upload)
  }

  predicate MayComplete(db: Db, pc: Actor)
    requires pc.Assembled?
  {
    pc.upload in db.uploads && pc.slot.bucket in db.buckets && Satisfied(Lookup(db.objects, pc.slot), pc.cond)
  }

  /**
   A completion at its commit succeeds if and only if the upload is still in the table, its bucket exists and the
   conditions hold for the row of the key at this moment. It is then still this upload's key, and the row names the
   complete file with the assembled bytes.
   */
  lemma CompletionCommits(s: State, a: Id, etag: string)
    requires Inv(s) && a in s.actors && s.actors[a].Assembled?
    ensures MayComplete(s.db, s.actors[a]) ==>
              CommitsCompletion(s, Apply(s, CommitComplete(a, etag, false)), a, s.actors[a], etag)
    ensures !MayComplete(s.db, s.actors[a]) ==> NoCommit(s, Apply(s, CommitComplete(a, etag, false)))
    ensures s.actors[a].upload in s.db.uploads ==> s.db.uploads[s.actors[a].upload].slot == s.actors[a].slot
    ensures Holding(s, ObjectPath(s.actors[a].slot.bucket, a), s.actors[a].bytes)
  {
    InvAt(s, a);
    CommitStepIs(s, a, etag);
    CompletionCommitsIn(s, a, etag);
  }

  lemma CommitStepIs(s: State, a: Id, etag: string)
    ensures Apply(s, CommitComplete(a, etag, false)) == DoCommitComplete(s, a, etag, false)
  {
  }

  lemma CompletionCommitsIn(s: State, a: Id, etag: string)
    requires a in s.actors && s.actors[a].Assembled?
    requires ClaimedFor(s, s.actors[a].upload, s.actors[a].slot)
    ensures MayComplete(s.db, s.actors[a]) ==>
              CommitsCompletion(s, DoCommitComplete(s, a, etag, false), a, s.actors[a], etag)
    ensures !MayComplete(s.db, s.actors[a]) ==> NoCommit(s, DoCommitComplete(s, a, etag, false))
  {
    var pc := s.actors[a];
    CompletionTransaction(s.db, pc.upload, pc.slot, ObjectRow(ObjectPath(pc.slot.bucket, a), etag), pc.cond);
    assert PartsOf(s.db, pc.upload) == set x | x in s.db.parts && x.upload == pc.upload;
  }

  /** Steps that report a failure and have not persisted anything. */
  predicate FailsCleanly(step: Step)
  {
    FailsToCommit(step) || FailsOnUpload(step)
  }

  predicate FailsToCommit(step: Step)
  {
    || (step.CommitWrite? && step.fails) || (step.CommitPart? && step.fails) || (step.CommitComplete? && step.fails)
    || (step.DeleteRow? && step.outcome.Failed?) || (step.DeleteAllRows? && step.outcome.Failed?)
  }

  predicate FailsOnUpload(step: Step)
  {
    || (step.SelectParts? && step.fails) || (step.CopyPart? && step.fails) || (step.ClaimStale? && step.fails)
    || (step.Release? && step.outcome.Failed?) || (step.DeleteStale? && step.outcome.Failed?)
    || (step.DeleteClaimed? && step.outcome.Failed?) || (step.DropUploadOf? && step.outcome.Failed?)
  }

  lemma FailedCommitChangesNothing(s: State, step: Step)
    requires FailsToCommit(step)
    ensures NoCommit(s, Apply(s, step))
  {
  }

  lemma FailedUploadStepChangesNothing(s: State, step: Step)
    requires FailsOnUpload(step)
    ensures NoCommit(s, Apply(s, step))
  {
  }

  /** A statement or transaction that fails changes no row and no file, and leaves no commit. */
  lemma FailureChangesNothing(s: State, step: Step)
    requires FailsCleanly(step)
    ensures NoCommit(s, Apply(s, step))
  {
    if FailsToCommit(step) {
      FailedCommitChangesNothing(s, step);
    } else {
      FailedUploadStepChangesNothing(s, step);
    }
  }
}
