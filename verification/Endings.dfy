/** No request is ever stuck: each can end by a bounded number of steps of its own, whatever the others have done. */
module Endings {
  import opened Wrappers
  import opened Metadata
  import opened Lifecycle
  import opened Invariant
  import opened CompletedParts
  import Guarantees

  /** The next step of a request when nothing fails. */
  function Next(a: Id, pc: Actor): Step
  {
    match pc
    case Writing(_, _, _, _, _) => FinishWrite(a, WriteOk)
    case Written(_, _, _, _, _) => CommitWrite(a, false)
    case Discarding(_) => Discard(a, true)
    case Unlinking(_) => Unlink(a, true, false)
    case DeleteLoaded(_, _) => DeleteRow(a, Done)
    case EmptyListing(_, _) => DeleteAllRows(a, Done)
    case PartWriting(_, _, _) => FinishPart(a, WriteOk)
    case PartWritten(_, _, _) => CommitPart(a, false)
    case CompleteClaimed(_, _, _, _) => SelectParts(a, 0, false)
    case Assembling(_, _, _, _, parts, done, _) =>
      if done < |parts| then CopyPart(a, false, true) else FinishAssembly(a, WriteOk)
    case Assembled(_, _, _, _, _, _) => CommitComplete(a, "", false)
    case CompleteFailed(_, _) => DiscardAssembled(a, true)
    case CompleteSettled(_, _) => UnlinkReplaced(a, true)
    case AbortClaimed(_) => DeleteClaimed(a, Done)
    case Releasing(_) => Release(a, Done)
    case StaleSeen(_, status) => if status == Active then ClaimStale(a, false) else DeleteStale(a, Done)
    case RemovingParts(_, _) => RemovePartFiles(a, {}, true)
    case DeletingBucket(work) => if work.pending == [] then DropBucket(a) else DropUploadOf(a, Done)
  }

  /** How many more steps a request can take. */
  function StepsLeft(pc: Actor): nat
  {
    match pc
    case Writing(_, _, _, _, _) => 4
    case Written(_, _, _, _, _) => 3
    case Discarding(_) => 1
    case Unlinking(paths) => 1 + |paths|
    case DeleteLoaded(_, _) => 3
    case EmptyListing(_, paths) => 2 + |paths|
    case PartWriting(_, _, _) => 4
    case PartWritten(_, _, _) => 3
    case CompleteClaimed(_, _, requested, _) => 5 + |requested|
    case Assembling(_, _, _, _, parts, done, _) => if done < |parts| then 4 + |parts| - done else 4
    case Assembled(_, _, _, _, _, _) => 3
    case CompleteFailed(_, _) => 2
    case CompleteSettled(_, _) => 2
    case AbortClaimed(_) => 2
    case Releasing(_) => 1
    case StaleSeen(_, _) => 3
    case RemovingParts(_, after) => if after.Some? then 2 + 2 * |after.value.pending| else 1
    case DeletingBucket(work) => 1 + 2 * |work.pending|
  }

  /** Request a has ended, or has fewer steps left; the others are where they were. */
  predicate Descends(s: State, t: State, a: Id)
    requires a in s.actors
  {
    && t.serving == s.serving
    && if a in t.actors
       then t.actors == s.actors[a := t.actors[a]] && StepsLeft(t.actors[a]) < StepsLeft(s.actors[a])
       else t.actors == s.actors - {a}
  }

  lemma WriteDescends(s: State, a: Id)
    requires a in s.actors
    ensures s.actors[a].Writing? ==> Descends(s, DoFinishWrite(s, a, WriteOk), a)
    ensures s.actors[a].Written? ==> Descends(s, DoCommitWrite(s, a, false), a)
    ensures s.actors[a].Discarding? ==> Descends(s, DoDiscard(s, a, true), a)
    ensures s.actors[a].Unlinking? ==> Descends(s, DoUnlink(s, a, true, false), a)
  {
  }

  lemma DeleteDescends(s: State, a: Id)
    requires a in s.actors
    ensures s.actors[a].DeleteLoaded? ==> Descends(s, DoDeleteRow(s, a, Done), a)
    ensures s.actors[a].EmptyListing? ==> Descends(s, DoDeleteAllRows(s, a, Done), a)
  {
  }

  lemma PartDescends(s: State, a: Id)
    requires a in s.actors
    ensures s.actors[a].PartWriting? ==> Descends(s, DoFinishPart(s, a, WriteOk), a)
    ensures s.actors[a].PartWritten? ==> Descends(s, DoCommitPart(s, a, false), a)
  {
  }

  lemma SelectionDescends(s: State, a: Id)
    requires a in s.actors && s.actors[a].CompleteClaimed?
    ensures Descends(s, DoSelectParts(s, a, 0, false), a)
  {
  }

  lemma AssemblyDescends(s: State, a: Id)
    requires a in s.actors && s.actors[a].Assembling?
    ensures s.actors[a].done < |s.actors[a].parts| ==> Descends(s, DoCopyPart(s, a, false, true), a)
    ensures s.actors[a].done >= |s.actors[a].parts| ==> Descends(s, DoFinishAssembly(s, a, WriteOk), a)
  {
  }

  lemma CommitDescends(s: State, a: Id)
    requires a in s.actors && s.actors[a].Assembled?
    ensures Descends(s, DoCommitComplete(s, a, "", false), a)
  {
  }

  lemma SettlingDescends(s: State, a: Id)
    requires a in s.actors
    ensures s.actors[a].CompleteFailed? ==> Descends(s, DoDiscardAssembled(s, a, true), a)
    ensures s.actors[a].CompleteSettled? ==> Descends(s, DoUnlinkReplaced(s, a, true), a)
    ensures s.actors[a].Releasing? ==> Descends(s, DoRelease(s, a, Done), a)
  {
  }

  lemma ClaimedDescends(s: State, a: Id)
    requires a in s.actors && s.actors[a].AbortClaimed?
    ensures Descends(s, DoDeleteClaimed(s, a, Done), a)
  {
  }

  lemma AbortDescends(s: State, a: Id)
    requires a in s.actors && s.actors[a].AbortClaimed?
    ensures Descends(s, Apply(s, DeleteClaimed(a, Done)), a)
  {
    ClaimedDescends(s, a);
  }

  lemma DirectoryDescends(s: State, a: Id)
    requires a in s.actors && s.actors[a].RemovingParts?
    ensures Descends(s, Apply(s, RemovePartFiles(a, {}, true)), a)
  {
  }

  lemma ClaimDescends(s: State, a: Id)
    requires a in s.actors && s.actors[a].StaleSeen? && s.actors[a].status == Active
    ensures Descends(s, Apply(s, ClaimStale(a, false)), a)
  {
  }

  lemma DeletionDescends(s: State, a: Id)
    requires a in s.actors && s.actors[a].StaleSeen? && s.actors[a].status != Active
    ensures Descends(s, Apply(s, DeleteStale(a, Done)), a)
  {
  }

  lemma DropDescends(s: State, a: Id)
    requires a in s.actors && s.actors[a].DeletingBucket? && s.actors[a].work.pending == []
    ensures Descends(s, Apply(s, DropBucket(a)), a)
  {
  }

  lemma DropUploadDescends(s: State, a: Id)
    requires a in s.actors && s.actors[a].DeletingBucket? && s.actors[a].work.pending != []
    ensures Descends(s, Apply(s, DropUploadOf(a, Done)), a)
  {
  }

  lemma WriteStepDescends(s: State, a: Id)
    requires a in s.actors
    requires s.actors[a].Writing? || s.actors[a].Written? || s.actors[a].Discarding? || s.actors[a].Unlinking?
    ensures Descends(s, Apply(s, Next(a, s.actors[a])), a)
  {
    WriteDescends(s, a);
  }

  lemma DeleteStepDescends(s: State, a: Id)
    requires a in s.actors && (s.actors[a].DeleteLoaded? || s.actors[a].EmptyListing?)
    ensures Descends(s, Apply(s, Next(a, s.actors[a])), a)
  {
    DeleteDescends(s, a);
  }

  lemma PartStepDescends(s: State, a: Id)
    requires a in s.actors && (s.actors[a].PartWriting? || s.actors[a].PartWritten?)
    ensures Descends(s, Apply(s, Next(a, s.actors[a])), a)
  {
    PartDescends(s, a);
  }

  lemma SelectionStepDescends(s: State, a: Id)
    requires a in s.actors && s.actors[a].CompleteClaimed?
    ensures Descends(s, Apply(s, Next(a, s.actors[a])), a)
  {
    SelectionDescends(s, a);
  }

  lemma AssemblyStepDescends(s: State, a: Id)
    requires a in s.actors && s.actors[a].Assembling?
    ensures Descends(s, Apply(s, Next(a, s.actors[a])), a)
  {
    AssemblyDescends(s, a);
  }

  lemma CommitStepDescends(s: State, a: Id)
    requires a in s.actors && s.actors[a].Assembled?
    ensures Descends(s, Apply(s, Next(a, s.actors[a])), a)
  {
    CommitDescends(s, a);
  }

  lemma SettlingStepDescends(s: State, a: Id)
    requires a in s.actors && (s.actors[a].CompleteFailed? || s.actors[a].CompleteSettled? || s.actors[a].Releasing?)
    ensures Descends(s, Apply(s, Next(a, s.actors[a])), a)
  {
    SettlingDescends(s, a);
  }

  /** A step in which nothing fails brings a request nearer to its end, in any state at all. */
  lemma NextDescends(s: State, a: Id)
    requires a in s.actors
    ensures Descends(s, Apply(s, Next(a, s.actors[a])), a)
  {
    match s.actors[a]
    case Writing(_, _, _, _, _) => WriteStepDescends(s, a);
    case Written(_, _, _, _, _) => WriteStepDescends(s, a);
    case Discarding(_) => WriteStepDescends(s, a);
    case Unlinking(_) => WriteStepDescends(s, a);
    case DeleteLoaded(_, _) => DeleteStepDescends(s, a);
    case EmptyListing(_, _) => DeleteStepDescends(s, a);
    case PartWriting(_, _, _) => PartStepDescends(s, a);
    case PartWritten(_, _, _) => PartStepDescends(s, a);
    case CompleteClaimed(_, _, _, _) => SelectionStepDescends(s, a);
    case Assembling(_, _, _, _, _, _, _) => AssemblyStepDescends(s, a);
    case Assembled(_, _, _, _, _, _) => CommitStepDescends(s, a);
    case CompleteFailed(_, _) => SettlingStepDescends(s, a);
    case CompleteSettled(_, _) => SettlingStepDescends(s, a);
    case Releasing(_) => SettlingStepDescends(s, a);
    case AbortClaimed(_) => AbortDescends(s, a);
    case RemovingParts(_, _) => DirectoryDescends(s, a);
    case StaleSeen(_, status) =>
      if status == Active {
        ClaimDescends(s, a);
      } else {
        DeletionDescends(s, a);
      }
    case DeletingBucket(work) =>
      if work.pending == [] {
        DropDescends(s, a);
      } else {
        DropUploadDescends(s, a);
      }
  }

  /** Only request a is missing. */
  ghost predicate OneLess(s: State, t: State, a: Id)
  {
    && t.serving == s.serving && a !in t.actors
    && forall b :: b in t.actors <==> b in s.actors && b != a
  }

  /** Whatever the others have done so far, a request can end, with at most as many steps as it has left. */
  lemma {:induction false} RequestEnds(s: State, a: Id) returns (run: seq<Step>)
    requires a in s.actors
    ensures |run| <= StepsLeft(s.actors[a]) && OneLess(s, RunFrom(s, run), a)
    decreases StepsLeft(s.actors[a])
  {
    var step := Next(a, s.actors[a]);
    var t := Apply(s, step);
    NextDescends(s, a);
    if a in t.actors {
      var rest := RequestEnds(t, a);
      run := [step] + rest;
      Guarantees.RunSplits(s, step, rest);
    } else {
      run := [step];
      Guarantees.RunSplits(s, step, []);
      assert [step] + [] == run && RunFrom(t, []) == t;
    }
  }

  /** So the store can always become idle without a crash. */
  lemma {:induction false} EverybodyEnds(s: State) returns (run: seq<Step>)
    ensures RunFrom(s, run).actors == map[] && RunFrom(s, run).serving == s.serving
    decreases |s.actors|
  {
    if s.actors == map[] {
      run := [];
    } else {
      var a :| a in s.actors;
      var first := RequestEnds(s, a);
      var t := RunFrom(s, first);
      assert t.actors.Keys == s.actors.Keys - {a};
      assert |t.actors.Keys| == |t.actors| && |s.actors.Keys| == |s.actors|;
      var rest := EverybodyEnds(t);
      run := first + rest;
      Guarantees.RunJoins(s, first, rest);
    }
  }
}
