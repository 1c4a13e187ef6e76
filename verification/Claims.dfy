/** Claims are never lost: as long as an upload is claimed, the request that claimed it is there to give it back. */
module Claims {
  import opened Wrappers
  import opened Metadata
  import opened Lifecycle
  import opened Invariant
  import opened Preservation
  import opened CompletedParts

  ghost predicate HeldBySome(s: State, u: Id)
  {
    exists a :: a in s.actors && Holds(s.actors[a]) == Some(u)
  }

  predicate IsClaimed(db: Db, u: Id)
  {
    u in db.uploads && db.uploads[u].status != Active
  }

  ghost predicate ClaimsHeld(s: State)
  {
    forall u :: IsClaimed(s.db, u) ==> HeldBySome(s, u)
  }

  /** A crash, or giving a claim back when that fails. */
  predicate LosesClaim(step: Step)
  {
    step.Crash? || (step.Release? && step.outcome.Failed?)
  }

  /** No upload but perhaps u becomes claimed, and no request but its holder gives up a claim. */
  ghost predicate OnlyAbout(s: State, t: State, u: Option<Id>)
  {
    && (forall v: Id :: IsClaimed(t.db, v) && u != Some(v) ==> IsClaimed(s.db, v))
    && (forall a :: a in s.actors && Holds(s.actors[a]).Some? && Holds(s.actors[a]) != u ==>
          a in t.actors && Holds(t.actors[a]) == Holds(s.actors[a]))
  }

  lemma OnlyAboutHolds(s: State, t: State, u: Option<Id>)
    requires ClaimsHeld(s) && OnlyAbout(s, t, u)
    requires u.Some? && IsClaimed(t.db, u.value) ==> HeldBySome(t, u.value)
    ensures ClaimsHeld(t)
  {
    forall v: Id | IsClaimed(t.db, v) && u != Some(v) ensures HeldBySome(t, v) {
      assert HeldBySome(s, v);
      var a :| a in s.actors && Holds(s.actors[a]) == Some(v);
      assert Holds(t.actors[a]) == Some(v);
    }
  }

  // ---- Steps that neither claim nor give up ----

  lemma WritesKeepClaims(s: State, step: Step)
    requires WriteStep(step) && s.next !in s.actors
    ensures OnlyAbout(s, ApplyWrite(s, step), None)
  {
  }

  lemma DeletionsKeepClaims(s: State, step: Step)
    requires DeleteStep(step) && s.next !in s.actors
    ensures OnlyAbout(s, ApplyDelete(s, step), None)
  {
  }

  lemma PartsKeepClaims(s: State, step: Step)
    requires PartStep(step) && s.next !in s.actors
    ensures OnlyAbout(s, ApplyPart(s, step), None)
  {
  }

  lemma SelectionKeepsClaims(s: State, a: Id, minPartSize: int, fails: bool)
    ensures OnlyAbout(s, DoSelectParts(s, a, minPartSize, fails), None)
  {
  }

  lemma CopyingKeepsClaims(s: State, a: Id, fails: bool, cleaned: bool)
    ensures OnlyAbout(s, DoCopyPart(s, a, fails, cleaned), None)
  {
  }

  lemma FinishingKeepsClaims(s: State, a: Id, write: WriteOutcome)
    ensures OnlyAbout(s, DoFinishAssembly(s, a, write), None)
  {
  }

  lemma SettlingKeepsClaims(s: State, a: Id, removed: bool)
    ensures OnlyAbout(s, DoDiscardAssembled(s, a, removed), None)
    ensures OnlyAbout(s, DoUnlinkReplaced(s, a, removed), None)
  {
  }

  lemma RemovalKeepsClaims(s: State, a: Id, files: set<Path>, stops: bool)
    ensures OnlyAbout(s, DoRemovePartFiles(s, a, files, stops), None)
  {
  }

  lemma StaleKeepsClaims(s: State, a: Id, u: Id, outcome: Outcome)
    requires s.next !in s.actors
    ensures OnlyAbout(s, DoBeginStale(s, u), None)
    ensures OnlyAbout(s, DoDeleteStale(s, a, outcome), None)
  {
  }

  lemma BucketsKeepClaims(s: State, step: Step)
    requires BucketStep(step) && s.next !in s.actors
    ensures OnlyAbout(s, ApplyBucket(s, step), None)
  {
  }

  lemma BucketDeletionKeepsClaims(s: State, step: Step)
    requires s.next !in s.actors
    ensures BucketDeleteStep(step) ==> OnlyAbout(s, ApplyBucketDelete(s, step), None)
    ensures BucketDropStep(step) ==> OnlyAbout(s, ApplyBucketDrop(s, step), None)
  {
  }

  lemma RecoveryKeepsClaims(s: State, step: Step)
    ensures TidyStep(step) ==> OnlyAbout(s, ApplyTidy(s, step), None)
    ensures step.FinishRecovery? ==> OnlyAbout(s, ApplyRestart(s, step), None)
  {
  }

  // ---- Steps that do ----

  lemma CompletionClaims(s: State, u: Id, parts: seq<CompletePart>, cond: Conditions)
    requires ClaimsHeld(s) && s.next !in s.actors
    ensures ClaimsHeld(DoBeginComplete(s, u, parts, cond))
  {
    var t := DoBeginComplete(s, u, parts, cond);
    if t != s {
      assert t.actors[s.next].CompleteClaimed? && Holds(t.actors[s.next]) == Some(u);
      OnlyAboutHolds(s, t, Some(u));
    }
  }

  lemma AbortClaims(s: State, u: Id)
    requires ClaimsHeld(s) && s.next !in s.actors
    ensures ClaimsHeld(DoBeginAbort(s, u))
  {
    var t := DoBeginAbort(s, u);
    if t != s {
      assert Holds(t.actors[s.next]) == Some(u);
      OnlyAboutHolds(s, t, Some(u));
    }
  }

  lemma StaleClaims(s: State, a: Id, fails: bool)
    requires ClaimsHeld(s)
    ensures ClaimsHeld(DoClaimStale(s, a, fails))
  {
    var t := DoClaimStale(s, a, fails);
    if a in t.actors && t.actors[a].AbortClaimed? && t != s {
      assert Holds(t.actors[a]) == Some(t.actors[a].upload);
      OnlyAboutHolds(s, t, Some(t.actors[a].upload));
    } else {
      OnlyAboutHolds(s, t, None);
    }
  }

  /** The holder removes its upload, or still holds it. */
  lemma DeletionSettles(s: State, a: Id, outcome: Outcome)
    requires ClaimsHeld(s)
    ensures ClaimsHeld(DoDeleteClaimed(s, a, outcome))
  {
    var t := DoDeleteClaimed(s, a, outcome);
    if a in s.actors && s.actors[a].AbortClaimed? {
      var u := s.actors[a].upload;
      assert IsClaimed(t.db, u) ==> Holds(t.actors[a]) == Some(u);
      OnlyAboutHolds(s, t, Some(u));
    }
  }

  lemma CommitSettles(s: State, a: Id, etag: string, fails: bool)
    requires ClaimsHeld(s)
    ensures ClaimsHeld(DoCommitComplete(s, a, etag, fails))
  {
    var t := DoCommitComplete(s, a, etag, fails);
    if a in s.actors && s.actors[a].Assembled? {
      var u := s.actors[a].upload;
      assert IsClaimed(t.db, u) ==> a in t.actors && Holds(t.actors[a]) == Some(u);
      OnlyAboutHolds(s, t, Some(u));
    }
  }

  lemma ReleaseSettles(s: State, a: Id, outcome: Outcome)
    requires ClaimsHeld(s) && !outcome.Failed?
    ensures ClaimsHeld(DoRelease(s, a, outcome))
  {
    var t := DoRelease(s, a, outcome);
    if a in s.actors && s.actors[a].Releasing? {
      OnlyAboutHolds(s, t, Some(s.actors[a].upload));
    }
  }

  // ---- Every step, every run ----

  lemma CompleteStepHolds(s: State, step: Step)
    requires ClaimsHeld(s) && CompleteStep(step) && s.next !in s.actors
    ensures ClaimsHeld(Apply(s, step))
  {
    match step
    case BeginComplete(u, parts, cond) => CompletionClaims(s, u, parts, cond);
    case SelectParts(a, minPartSize, fails) =>
      SelectionKeepsClaims(s, a, minPartSize, fails);
      OnlyAboutHolds(s, DoSelectParts(s, a, minPartSize, fails), None);
    case CopyPart(a, fails, cleaned) =>
      CopyingKeepsClaims(s, a, fails, cleaned);
      OnlyAboutHolds(s, DoCopyPart(s, a, fails, cleaned), None);
    case FinishAssembly(a, write) =>
      FinishingKeepsClaims(s, a, write);
      OnlyAboutHolds(s, DoFinishAssembly(s, a, write), None);
  }

  lemma CommitStepHolds(s: State, step: Step)
    requires ClaimsHeld(s) && (step.CommitComplete? || step.Release?) && !LosesClaim(step)
    ensures ClaimsHeld(Apply(s, step))
  {
    match step
    case CommitComplete(a, etag, fails) => CommitSettles(s, a, etag, fails);
    case Release(a, outcome) => ReleaseSettles(s, a, outcome);
  }

  lemma SettleStepHolds(s: State, step: Step)
    requires ClaimsHeld(s) && (step.DiscardAssembled? || step.UnlinkReplaced?)
    ensures ClaimsHeld(Apply(s, step))
  {
    SettlingKeepsClaims(s, step.actor, step.removed);
    OnlyAboutHolds(s, Apply(s, step), None);
  }

  lemma AbortStepHolds(s: State, step: Step)
    requires ClaimsHeld(s) && AbortStep(step) && s.next !in s.actors
    ensures ClaimsHeld(Apply(s, step))
  {
    match step
    case BeginAbort(u) => AbortClaims(s, u);
    case DeleteClaimed(a, outcome) => DeletionSettles(s, a, outcome);
    case RemovePartFiles(a, files, stops) =>
      RemovalKeepsClaims(s, a, files, stops);
      OnlyAboutHolds(s, DoRemovePartFiles(s, a, files, stops), None);
  }

  lemma StaleStepHolds(s: State, step: Step)
    requires ClaimsHeld(s) && StaleStep(step) && s.next !in s.actors
    ensures ClaimsHeld(Apply(s, step))
  {
    match step
    case BeginStale(u) =>
      StaleKeepsClaims(s, 0, u, Done);
      OnlyAboutHolds(s, DoBeginStale(s, u), None);
    case ClaimStale(a, fails) => StaleClaims(s, a, fails);
    case DeleteStale(a, outcome) =>
      StaleKeepsClaims(s, a, 0, outcome);
      OnlyAboutHolds(s, DoDeleteStale(s, a, outcome), None);
  }

  lemma OtherStepHolds(s: State, step: Step)
    requires ClaimsHeld(s) && s.next !in s.actors && !LosesClaim(step)
    requires !CompleteStep(step) && !SettleStep(step) && !AbortStep(step) && !StaleStep(step)
    ensures ClaimsHeld(Apply(s, step))
  {
    if WriteStep(step) {
      WritesKeepClaims(s, step);
    } else if DeleteStep(step) {
      DeletionsKeepClaims(s, step);
    } else if PartStep(step) {
      PartsKeepClaims(s, step);
    } else if BucketStep(step) {
      BucketsKeepClaims(s, step);
    } else if BucketDeleteStep(step) || BucketDropStep(step) {
      BucketDeletionKeepsClaims(s, step);
    } else {
      RecoveryKeepsClaims(s, step);
    }
    OnlyAboutHolds(s, Apply(s, step), None);
  }

  lemma StepHolds(s: State, step: Step)
    requires ClaimsHeld(s) && s.next !in s.actors && !LosesClaim(step)
    ensures ClaimsHeld(Apply(s, step))
  {
    if CompleteStep(step) {
      CompleteStepHolds(s, step);
    } else if step.CommitComplete? || step.Release? {
      CommitStepHolds(s, step);
    } else if SettleStep(step) {
      SettleStepHolds(s, step);
    } else if AbortStep(step) {
      AbortStepHolds(s, step);
    } else if StaleStep(step) {
      StaleStepHolds(s, step);
    } else {
      OtherStepHolds(s, step);
    }
  }

  /** An upload is claimed exactly while one request holds it. */
  ghost predicate ClaimsAreHeld(s: State)
  {
    forall u :: u in s.db.uploads ==> (s.db.uploads[u].status != Active <==> HeldBySome(s, u))
  }

  /**
   From a state in which every claim has its holder, such as the empty store, and as long as there is no crash and no
   claim that cannot be given back, an upload is out of reach exactly while some request is completing or aborting it.
   */
  lemma {:induction false} RunHolds(s: State, steps: seq<Step>)
    requires Inv(s) && ClaimsHeld(s) && forall i :: 0 <= i < |steps| ==> !LosesClaim(steps[i])
    ensures ClaimsHeld(RunFrom(s, steps)) && ClaimsAreHeld(RunFrom(s, steps))
  {
    if steps == [] {
      HeldExactly(s);
    } else {
      var init := steps[..|steps| - 1];
      var t := RunFrom(s, init);
      RunHolds(s, init);
      RunFromKeeps(s, init);
      InvIs(t);
      StepHolds(t, steps[|steps| - 1]);
      StepKeeps(t, steps[|steps| - 1]);
      HeldExactly(Apply(t, steps[|steps| - 1]));
    }
  }

  lemma HeldExactly(s: State)
    requires Inv(s) && ClaimsHeld(s)
    ensures ClaimsAreHeld(s)
  {
    InvIs(s);
    forall u | u in s.db.uploads && HeldBySome(s, u) ensures s.db.uploads[u].status != Active {
      var a :| a in s.actors && Holds(s.actors[a]) == Some(u);
      assert ActorOk(s, a, s.actors[a]);
    }
  }

  /** Without any request in flight every upload is active, so clients can go on with it. */
  lemma IdleUploadsAreActive(steps: seq<Step>, u: Id)
    requires forall i :: 0 <= i < |steps| ==> !LosesClaim(steps[i])
    requires Run(steps).actors == map[] && u in Run(steps).db.uploads
    ensures Run(steps).db.uploads[u].status == Active
  {
    InvIs(INITIAL);
    RunHolds(INITIAL, steps);
  }
}
