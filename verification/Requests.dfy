/** Every commit was asked for: what is written, copied, completed or removed is what some request named. */
module Requests {
  import opened Wrappers
  import opened Metadata
  import opened History
  import opened Lifecycle
  import opened Invariant
  import opened Preservation
  import opened CompletedParts
  import Guarantees

  /** What a client asks for. The part list of a completion is the normalized one. */
  datatype Request =
    | PutRequest(slot: Slot, bytes: Bytes, etag: string, cond: Conditions)
    | CopyRequest(source: Path, slot: Slot, cond: Conditions)
    | PartRequest(part: PartSlot, bytes: Bytes, etag: string)
    | CompleteRequest(upload: Id, requested: seq<CompletePart>, cond: Conditions)
    | DeleteRequest(slot: Slot)
    | EmptyRequest(bucket: Bucket)
    | ForceRequest(bucket: Bucket)

  function Asks(step: Step): Option<Request>
  {
    match step
    case BeginPut(slot, bytes, etag, cond) => Some(PutRequest(slot, bytes, etag, cond))
    case BeginCopy(source, slot, cond) => Some(CopyRequest(source, slot, cond))
    case BeginPart(part, bytes, etag, _) => Some(PartRequest(part, bytes, etag))
    case BeginComplete(upload, parts, cond) =>
      if Normalize(parts).Ok? then Some(CompleteRequest(upload, Normalize(parts).value, cond)) else None
    case BeginDelete(slot, _) => Some(DeleteRequest(slot))
    case BeginEmpty(bucket) => Some(EmptyRequest(bucket))
    case ForceDelete(bucket, _) => Some(ForceRequest(bucket))
    case _ => None
  }

  function WriteRequest(slot: Slot, bytes: Bytes, etag: string, cond: Conditions, origin: Origin): Option<Request>
  {
    match origin
    case Uploaded => Some(PutRequest(slot, bytes, etag, cond))
    case CopiedFrom(source) => Some(CopyRequest(source, slot, cond))
    case AssembledFrom(_, _) => None
  }

  /** The request that an actor serves, as long as it may commit. */
  function Serves(pc: Actor): Option<Request>
  {
    match pc
    case Writing(slot, bytes, etag, cond, origin) => WriteRequest(slot, bytes, etag, cond, origin)
    case Written(slot, bytes, etag, cond, origin) => WriteRequest(slot, bytes, etag, cond, origin)
    case PartWriting(part, bytes, etag) => Some(PartRequest(part, bytes, etag))
    case PartWritten(part, bytes, etag) => Some(PartRequest(part, bytes, etag))
    case CompleteClaimed(upload, _, requested, cond) => Some(CompleteRequest(upload, requested, cond))
    case Assembling(upload, _, requested, cond, _, _, _) => Some(CompleteRequest(upload, requested, cond))
    case Assembled(upload, _, requested, cond, _, _) => Some(CompleteRequest(upload, requested, cond))
    case DeleteLoaded(slot, _) => Some(DeleteRequest(slot))
    case EmptyListing(bucket, _) => Some(EmptyRequest(bucket))
    case _ => None
  }

  /** The commit does what the request asks for. */
  predicate Answers(e: Event, r: Request)
  {
    match e
    case Stored(slot, _, etag, bytes, cond, origin, _) =>
      (match origin
       case Uploaded => r == PutRequest(slot, bytes, etag, cond)
       case CopiedFrom(source) => r == CopyRequest(source, slot, cond)
       case AssembledFrom(upload, requested) => r == CompleteRequest(upload, requested, cond))
    case PartStored(part, _, etag, bytes) => r == PartRequest(part, bytes, etag)
    case Removed(slots) =>
      match r
      case DeleteRequest(slot) => slots == {slot}
      case EmptyRequest(bucket) => forall k :: k in slots ==> k.bucket == bucket
      case ForceRequest(bucket) => forall k :: k in slots ==> k.bucket == bucket
      case _ => false
  }

  ghost predicate Asked(steps: seq<Step>, r: Request)
  {
    exists j :: 0 <= j < |steps| && Asks(steps[j]) == Some(r)
  }

  ghost predicate ActorsAsked(s: State, steps: seq<Step>)
  {
    forall a :: a in s.actors && Serves(s.actors[a]).Some? ==> Asked(steps, Serves(s.actors[a]).value)
  }

  ghost predicate CommitAsked(e: Event, steps: seq<Step>)
  {
    exists r :: Answers(e, r) && Asked(steps, r)
  }

  ghost predicate CommitsAsked(s: State, steps: seq<Step>)
  {
    forall i :: 0 <= i < |s.log| ==> CommitAsked(s.log[i], steps)
  }

  /** Some request in flight, or the one that the step starts, asks for this. */
  ghost predicate Due(s: State, step: Step, e: Event)
  {
    || (exists a :: a in s.actors && Serves(s.actors[a]).Some? && Answers(e, Serves(s.actors[a]).value))
    || (Asks(step).Some? && Answers(e, Asks(step).value))
  }

  /** No actor changes what it serves, and every commit is due. */
  ghost predicate Traces(s: State, t: State, step: Step)
  {
    && (forall a :: a in t.actors && Serves(t.actors[a]).Some? ==>
          (a in s.actors && Serves(t.actors[a]) == Serves(s.actors[a])) || Serves(t.actors[a]) == Asks(step))
    && s.log <= t.log
    && (forall i :: |s.log| <= i < |t.log| ==> Due(s, step, t.log[i]))
  }

  /** No actor starts to serve a request, or commits. */
  ghost predicate Bystands(s: State, t: State)
  {
    && (forall a :: a in t.actors && Serves(t.actors[a]).Some? ==>
          a in s.actors && Serves(t.actors[a]) == Serves(s.actors[a]))
    && t.log == s.log
  }

  lemma BystandersTrace(s: State, t: State, step: Step)
    requires Bystands(s, t)
    ensures Traces(s, t, step)
  {
  }

  /** Request a serves what the commit answers. */
  lemma Commits(s: State, a: Id, step: Step, e: Event)
    requires a in s.actors && Serves(s.actors[a]).Some? && Answers(e, Serves(s.actors[a]).value)
    ensures Due(s, step, e)
  {
  }

  ghost predicate WritesAreDirect(s: State)
  {
    forall a :: a in s.actors && s.actors[a].Written? ==> !s.actors[a].origin.AssembledFrom?
  }

  lemma WritesAreDirectIn(s: State)
    requires Inv(s)
    ensures WritesAreDirect(s)
  {
    InvIs(s);
    forall a | a in s.actors && s.actors[a].Written? ensures !s.actors[a].origin.AssembledFrom? {
      assert ActorOk(s, a, s.actors[a]);
    }
  }

  // ---- Steps that start a request ----

  lemma PutTraces(s: State, step: Step)
    ensures step.BeginPut? ==> Traces(s, DoBeginPut(s, step.slot, step.bytes, step.etag, step.cond), step)
    ensures step.BeginCopy? ==> Traces(s, DoBeginCopy(s, step.source, step.slot, step.cond), step)
  {
  }

  lemma BeginPartTraces(s: State, step: Step)
    requires step.BeginPart?
    ensures Traces(s, DoBeginPart(s, step.part, step.bytes, step.etag, step.partial), step)
  {
  }

  lemma BeginCompleteTraces(s: State, step: Step)
    requires step.BeginComplete?
    ensures Traces(s, DoBeginComplete(s, step.upload, step.parts, step.cond), step)
  {
  }

  lemma RemovalTraces(s: State, step: Step)
    ensures step.BeginDelete? ==> Traces(s, DoBeginDelete(s, step.slot, step.path), step)
    ensures step.BeginEmpty? ==> Traces(s, DoBeginEmpty(s, step.bucket), step)
  {
  }

  lemma ForceDeleteTraces(s: State, step: Step)
    requires step.ForceDelete?
    ensures Traces(s, DoForceDelete(s, step.bucket, step.paths), step)
  {
    var t := DoForceDelete(s, step.bucket, step.paths);
    if t.log != s.log {
      assert Answers(t.log[|s.log|], ForceRequest(step.bucket));
    }
  }

  // ---- Steps that commit ----

  lemma CommitWriteTraces(s: State, step: Step)
    requires step.CommitWrite? && WritesAreDirect(s)
    ensures Traces(s, DoCommitWrite(s, step.actor, step.fails), step)
  {
    var t := DoCommitWrite(s, step.actor, step.fails);
    if t.log != s.log {
      Commits(s, step.actor, step, t.log[|s.log|]);
    }
  }

  lemma CommitPartTraces(s: State, step: Step)
    requires step.CommitPart?
    ensures Traces(s, DoCommitPart(s, step.actor, step.fails), step)
  {
    var t := DoCommitPart(s, step.actor, step.fails);
    if t.log != s.log {
      Commits(s, step.actor, step, t.log[|s.log|]);
    }
  }

  /** What the commit of a completion may add to the history. */
  predicate LogsCompletion(s: State, t: State, a: Id)
  {
    && a in s.actors && s.actors[a].Assembled? && |t.log| == |s.log| + 1 && s.log <= t.log
    && t.log[|s.log|].Stored? && t.log[|s.log|].cond == s.actors[a].cond
    && t.log[|s.log|].origin == AssembledFrom(s.actors[a].upload, s.actors[a].requested)
  }

  lemma CompletionLogged(s: State, a: Id, etag: string, fails: bool)
    ensures DoCommitComplete(s, a, etag, fails).log == s.log || LogsCompletion(s, DoCommitComplete(s, a, etag, fails), a)
  {
  }

  lemma CompletionServesNoMore(s: State, a: Id, etag: string, fails: bool)
    ensures forall b :: b in DoCommitComplete(s, a, etag, fails).actors
                        && Serves(DoCommitComplete(s, a, etag, fails).actors[b]).Some? ==>
              b in s.actors && Serves(DoCommitComplete(s, a, etag, fails).actors[b]) == Serves(s.actors[b])
  {
  }

  lemma CommitCompleteTraces(s: State, step: Step)
    requires step.CommitComplete?
    ensures Traces(s, DoCommitComplete(s, step.actor, step.etag, step.fails), step)
  {
    var t := DoCommitComplete(s, step.actor, step.etag, step.fails);
    CompletionLogged(s, step.actor, step.etag, step.fails);
    CompletionServesNoMore(s, step.actor, step.etag, step.fails);
    if t.log != s.log {
      Commits(s, step.actor, step, t.log[|s.log|]);
    }
  }

  lemma DeleteRowTraces(s: State, step: Step)
    requires step.DeleteRow?
    ensures Traces(s, DoDeleteRow(s, step.actor, step.outcome), step)
  {
    var t := DoDeleteRow(s, step.actor, step.outcome);
    if t.log != s.log {
      Commits(s, step.actor, step, t.log[|s.log|]);
    }
  }

  lemma DeleteAllRowsTraces(s: State, step: Step)
    requires step.DeleteAllRows?
    ensures Traces(s, DoDeleteAllRows(s, step.actor, step.outcome), step)
  {
    var t := DoDeleteAllRows(s, step.actor, step.outcome);
    if t.log != s.log {
      Commits(s, step.actor, step, t.log[|s.log|]);
    }
  }

  // ---- All other steps ----

  lemma FinishWriteBystands(s: State, a: Id, write: WriteOutcome)
    ensures Bystands(s, DoFinishWrite(s, a, write))
  {
  }

  lemma FinishPartBystands(s: State, a: Id, write: WriteOutcome)
    ensures Bystands(s, DoFinishPart(s, a, write))
  {
  }

  lemma RemovalsBystand(s: State, a: Id, removed: bool, stops: bool)
    ensures Bystands(s, DoRejectDigest(s, a))
    ensures Bystands(s, DoDiscard(s, a, removed))
    ensures Bystands(s, DoUnlink(s, a, removed, stops))
  {
  }

  lemma ListingBystands(s: State, a: Id, slots: seq<Slot>)
    ensures Bystands(s, DoListPage(s, a, slots))
  {
  }

  lemma SelectionBystands(s: State, a: Id, minPartSize: int, fails: bool)
    ensures Bystands(s, DoSelectParts(s, a, minPartSize, fails))
  {
  }

  lemma CopyPartBystands(s: State, a: Id, fails: bool, cleaned: bool)
    ensures Bystands(s, DoCopyPart(s, a, fails, cleaned))
  {
  }

  lemma FinishAssemblyBystands(s: State, a: Id, write: WriteOutcome)
    ensures Bystands(s, DoFinishAssembly(s, a, write))
  {
  }

  lemma SettlingBystands(s: State, step: Step)
    requires SettleStep(step) && !step.CommitComplete?
    ensures Bystands(s, ApplySettle(s, step))
  {
  }

  lemma AbortsBystand(s: State, step: Step)
    requires AbortStep(step)
    ensures Bystands(s, ApplyAbort(s, step))
  {
    match step
    case BeginAbort(upload) =>
    case DeleteClaimed(a, outcome) => ClaimedDeletionBystands(s, a, outcome);
    case RemovePartFiles(a, files, stops) => PartRemovalBystands(s, a, files, stops);
  }

  lemma ClaimedDeletionBystands(s: State, a: Id, outcome: Outcome)
    ensures Bystands(s, DoDeleteClaimed(s, a, outcome))
  {
  }

  lemma PartRemovalBystands(s: State, a: Id, files: set<Path>, stops: bool)
    ensures Bystands(s, DoRemovePartFiles(s, a, files, stops))
  {
  }

  lemma CleaningBystands(s: State, step: Step)
    requires StaleStep(step)
    ensures Bystands(s, ApplyStale(s, step))
  {
  }

  lemma CreationBystands(s: State, bucket: Bucket, slot: Slot)
    ensures Bystands(s, DoCreateBucket(s, bucket))
    ensures Bystands(s, DoCreateUpload(s, slot))
  {
  }

  lemma BucketDeletionBystands(s: State, step: Step)
    ensures BucketDeleteStep(step) ==> Bystands(s, ApplyBucketDelete(s, step))
    ensures BucketDropStep(step) ==> Bystands(s, ApplyBucketDrop(s, step))
  {
  }

  lemma RecoveryBystands(s: State, step: Step)
    ensures TidyStep(step) ==> Bystands(s, ApplyTidy(s, step))
    ensures RestartStep(step) ==> Bystands(s, ApplyRestart(s, step))
  {
  }

  // ---- Every step, every run ----

  lemma WriteStepTraces(s: State, step: Step)
    requires WriteStep(step) && WritesAreDirect(s)
    ensures Traces(s, ApplyWrite(s, step), step)
  {
    if step.BeginPut? || step.BeginCopy? {
      PutTraces(s, step);
    } else if step.CommitWrite? {
      CommitWriteTraces(s, step);
    } else {
      match step
      case FinishWrite(a, write) => FinishWriteBystands(s, a, write);
      case RejectDigest(a) => RemovalsBystand(s, a, true, true);
      case Discard(a, removed) => RemovalsBystand(s, a, removed, true);
      case Unlink(a, removed, stops) => RemovalsBystand(s, a, removed, stops);
      BystandersTrace(s, ApplyWrite(s, step), step);
    }
  }

  lemma DeleteStepTraces(s: State, step: Step)
    requires DeleteStep(step)
    ensures Traces(s, ApplyDelete(s, step), step)
  {
    match step
    case DeleteRow(_, _) => DeleteRowTraces(s, step);
    case DeleteAllRows(_, _) => DeleteAllRowsTraces(s, step);
    case ListPage(a, slots) =>
      ListingBystands(s, a, slots);
      BystandersTrace(s, DoListPage(s, a, slots), step);
    case _ => RemovalTraces(s, step);
  }

  lemma PartStepTraces(s: State, step: Step)
    requires PartStep(step)
    ensures Traces(s, ApplyPart(s, step), step)
  {
    match step
    case BeginPart(_, _, _, _) => BeginPartTraces(s, step);
    case CommitPart(_, _) => CommitPartTraces(s, step);
    case FinishPart(a, write) =>
      FinishPartBystands(s, a, write);
      BystandersTrace(s, DoFinishPart(s, a, write), step);
  }

  lemma CompleteStepTraces(s: State, step: Step)
    requires CompleteStep(step)
    ensures Traces(s, ApplyComplete(s, step), step)
  {
    if step.BeginComplete? {
      BeginCompleteTraces(s, step);
    } else {
      match step
      case SelectParts(a, minPartSize, fails) => SelectionBystands(s, a, minPartSize, fails);
      case CopyPart(a, fails, cleaned) => CopyPartBystands(s, a, fails, cleaned);
      case FinishAssembly(a, write) => FinishAssemblyBystands(s, a, write);
      BystandersTrace(s, ApplyComplete(s, step), step);
    }
  }

  lemma BucketStepTraces(s: State, step: Step)
    requires BucketStep(step)
    ensures Traces(s, ApplyBucket(s, step), step)
  {
    match step
    case ForceDelete(_, _) => ForceDeleteTraces(s, step);
    case CreateBucket(bucket) =>
      CreationBystands(s, bucket, Slot(bucket, ""));
      BystandersTrace(s, DoCreateBucket(s, bucket), step);
    case CreateUpload(slot) =>
      CreationBystands(s, slot.bucket, slot);
      BystandersTrace(s, DoCreateUpload(s, slot), step);
  }

  lemma OtherStepTraces(s: State, step: Step)
    requires !WriteStep(step) && !DeleteStep(step) && !PartStep(step) && !CompleteStep(step) && !BucketStep(step)
    requires !step.CommitComplete?
    ensures Traces(s, Apply(s, step), step)
  {
    if SettleStep(step) {
      SettlingBystands(s, step);
    } else if AbortStep(step) {
      AbortsBystand(s, step);
    } else if StaleStep(step) {
      CleaningBystands(s, step);
    } else if BucketDeleteStep(step) || BucketDropStep(step) {
      BucketDeletionBystands(s, step);
    } else {
      RecoveryBystands(s, step);
    }
    BystandersTrace(s, Apply(s, step), step);
  }

  lemma StepTraces(s: State, step: Step)
    requires WritesAreDirect(s)
    ensures Traces(s, Apply(s, step), step)
  {
    if WriteStep(step) {
      WriteStepTraces(s, step);
    } else if DeleteStep(step) {
      DeleteStepTraces(s, step);
    } else if PartStep(step) {
      PartStepTraces(s, step);
    } else if CompleteStep(step) {
      CompleteStepTraces(s, step);
    } else if step.CommitComplete? {
      CommitCompleteTraces(s, step);
    } else if BucketStep(step) {
      BucketStepTraces(s, step);
    } else {
      OtherStepTraces(s, step);
    }
  }

  lemma AskedLonger(steps: seq<Step>, step: Step, r: Request)
    requires Asked(steps, r) || Asks(step) == Some(r)
    ensures Asked(steps + [step], r)
  {
    var more := steps + [step];
    if Asked(steps, r) {
      var j :| 0 <= j < |steps| && Asks(steps[j]) == Some(r);
      assert Asks(more[j]) == Some(r);
    } else {
      assert Asks(more[|steps|]) == Some(r);
    }
  }

  lemma DueIsAsked(s: State, steps: seq<Step>, step: Step, e: Event)
    requires ActorsAsked(s, steps) && Due(s, step, e)
    ensures CommitAsked(e, steps + [step])
  {
    if a :| a in s.actors && Serves(s.actors[a]).Some? && Answers(e, Serves(s.actors[a]).value) {
      AskedLonger(steps, step, Serves(s.actors[a]).value);
    } else {
      AskedLonger(steps, step, Asks(step).value);
    }
  }

  lemma TracedAsked(s: State, t: State, steps: seq<Step>, step: Step)
    requires ActorsAsked(s, steps) && CommitsAsked(s, steps) && Traces(s, t, step)
    ensures ActorsAsked(t, steps + [step]) && CommitsAsked(t, steps + [step])
  {
    forall a | a in t.actors && Serves(t.actors[a]).Some? ensures Asked(steps + [step], Serves(t.actors[a]).value) {
      AskedLonger(steps, step, Serves(t.actors[a]).value);
    }
    forall i | 0 <= i < |t.log| ensures CommitAsked(t.log[i], steps + [step]) {
      if i < |s.log| {
        assert t.log[i] == s.log[i];
        var r :| Answers(s.log[i], r) && Asked(steps, r);
        AskedLonger(steps, step, r);
      } else {
        DueIsAsked(s, steps, step, t.log[i]);
      }
    }
  }

  /**
   In every run, whatever an object request in flight will commit, and every commit in the history, is what some
   request asked for: slot, bytes, tag and conditions of a PUT, source of a copy, part of an upload, parts of a
   completion, or key or bucket to remove.
   */
  lemma {:induction false} RunAsked(steps: seq<Step>)
    ensures ActorsAsked(Run(steps), steps) && CommitsAsked(Run(steps), steps)
  {
    if steps == [] {
      assert Run(steps) == INITIAL;
    } else {
      var init, last := steps[..|steps| - 1], steps[|steps| - 1];
      RunAsked(init);
      RunKeeps(init);
      WritesAreDirectIn(Run(init));
      StepTraces(Run(init), last);
      TracedAsked(Run(init), Apply(Run(init), last), init, last);
      assert init + [last] == steps;
    }
  }

  // ---- Commit by commit ----

  lemma CommitWasAsked(steps: seq<Step>, i: nat) returns (j: nat)
    requires i < |Run(steps).log|
    ensures j < |steps| && Asks(steps[j]).Some? && Answers(Run(steps).log[i], Asks(steps[j]).value)
  {
    RunAsked(steps);
    assert CommitAsked(Run(steps).log[i], steps);
    var r :| Answers(Run(steps).log[i], r) && Asked(steps, r);
    j :| 0 <= j < |steps| && Asks(steps[j]) == Some(r);
  }

  /** An upload that commits has the key, bytes, tag and conditions of a PUT. */
  lemma UploadWasAsked(steps: seq<Step>, i: nat) returns (j: nat)
    requires i < |Run(steps).log| && Run(steps).log[i].Stored? && Run(steps).log[i].origin.Uploaded?
    ensures var e := Run(steps).log[i];
            j < |steps| && steps[j] == BeginPut(e.slot, e.bytes, e.etag, e.cond)
  {
    j := CommitWasAsked(steps, i);
  }

  /** A copy that commits has the source, key and conditions of a copy request; its bytes are those of the source. */
  lemma CopyWasAsked(steps: seq<Step>, i: nat) returns (j: nat)
    requires i < |Run(steps).log| && Run(steps).log[i].Stored? && Run(steps).log[i].origin.CopiedFrom?
    ensures var e := Run(steps).log[i];
            j < |steps| && steps[j] == BeginCopy(e.origin.source, e.slot, e.cond)
  {
    j := CommitWasAsked(steps, i);
  }

  /** A part that commits has the upload, number, bytes and tag of a part upload. */
  lemma PartWasAsked(steps: seq<Step>, i: nat) returns (j: nat)
    requires i < |Run(steps).log| && Run(steps).log[i].PartStored?
    ensures var e := Run(steps).log[i];
            j < |steps| && steps[j].BeginPart? && steps[j].part == e.part && steps[j].bytes == e.bytes
            && steps[j].etag == e.etag
  {
    j := CommitWasAsked(steps, i);
  }

  /** A row that goes was named by a deletion of its key or of its bucket's contents. */
  lemma RemovalWasAsked(steps: seq<Step>, i: nat, k: Slot) returns (j: nat)
    requires i < |Run(steps).log| && Run(steps).log[i].Removed? && k in Run(steps).log[i].slots
    ensures j < |steps|
    ensures || (steps[j].BeginDelete? && steps[j].slot == k)
            || (steps[j].BeginEmpty? && steps[j].bucket == k.bucket)
            || (steps[j].ForceDelete? && steps[j].bucket == k.bucket)
  {
    j := CommitWasAsked(steps, i);
  }

  /**
   A completion that commits was asked for, by a request with these conditions and a part list that normalizes to
   the list used. It stores exactly the concatenation, in ascending part number, of the last stored version of each
   requested part, each with the requested tag, whoever else ran during the assembly.
   */
  lemma CompletionIsItsParts(steps: seq<Step>, i: nat) returns (j: nat, js: seq<nat>)
    requires i < |Run(steps).log| && Run(steps).log[i].Stored? && Run(steps).log[i].origin.AssembledFrom?
    ensures var e := Run(steps).log[i];
            && j < |steps| && steps[j].BeginComplete? && steps[j].upload == e.origin.upload && steps[j].cond == e.cond
            && Normalize(steps[j].parts) == Ok(e.origin.requested)
    ensures Guarantees.MadeOf(Run(steps).log, i, js)
  {
    j := CommitWasAsked(steps, i);
    js := Guarantees.CompletionHasItsParts(steps, i);
  }
}
