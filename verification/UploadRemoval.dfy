/** What abort, the stale-upload cleaner and bucket deletion achieve. */
module UploadRemoval {
  import opened Wrappers
  import opened Metadata
  import opened History
  import opened Lifecycle
  import opened Invariant
  import opened Progress
  import opened UploadProgress
  import Guarantees

  /** The upload, its part rows and its part files are gone. */
  function WithoutUpload(s: State, u: Id): State
  {
    s.(db := s.db.(uploads := s.db.uploads - {u}, parts := s.db.parts - (set x | x in s.db.parts && x.upload == u)),
       disk := s.disk - (set p | p in s.disk && p.PartPath? && p.upload == u))
  }

  lemma RowsWithoutUpload(s: State, u: Id, status: Status)
    requires u in s.db.uploads
    ensures DropUpload(Claimed(s, u, status).db, u)
         == s.db.(uploads := s.db.uploads - {u}, parts := s.db.parts - (set x | x in s.db.parts && x.upload == u))
    ensures DropUpload(s.db, u)
         == s.db.(uploads := s.db.uploads - {u}, parts := s.db.parts - (set x | x in s.db.parts && x.upload == u))
  {
    assert s.db.uploads[u := s.db.uploads[u].(status := status)] - {u} == s.db.uploads - {u};
    assert PartsOf(s.db, u) == set x | x in s.db.parts && x.upload == u;
    assert PartsOf(Claimed(s, u, status).db, u) == set x | x in s.db.parts && x.upload == u;
  }

  lemma FilesWithoutUpload(disk: map<Path, File>, u: Id, files: set<Path>)
    requires PartFilesOf(u, disk.Keys) <= files
    ensures disk - PartFilesOf(u, files) == disk - (set p | p in disk && p.PartPath? && p.upload == u)
  {
    forall p | p in disk && p in PartFilesOf(u, files) ensures p in (set q | q in disk && q.PartPath? && q.upload == u) {
    }
    forall p | p in disk && p.PartPath? && p.upload == u ensures p in PartFilesOf(u, files) {
      assert p in PartFilesOf(u, disk.Keys);
    }
  }

  /** The rows are gone; the directory goes, and then the request is over. */
  lemma DirectoryLeaves(s: State, x: State, u: Id, temps: set<Id>, files: set<Path>)
    requires u in s.db.uploads && s.next !in s.actors && temps <= s.temps && PartFilesOf(u, s.disk.Keys) <= files
    requires x == WithDb(s, DropUpload(s.db, u))
    ensures Leaves(s, DoRemovePartFiles(Under(x, RemovingParts(u, None), temps), s.next, files, true), WithoutUpload(s, u))
  {
    RowsWithoutUpload(s, u, Active);
    FilesWithoutUpload(s.disk, u, files);
    EndLeaves(s, DropFiles(x, PartFilesOf(u, files)), RemovingParts(u, None), temps);
  }

  // ---- AbortMultipartUpload ----

  function AbortSteps(n: Id, u: Id, fails: bool, files: set<Path>): seq<Step>
  {
    [BeginAbort(u)] + ([DeleteClaimed(n, if fails then Failed else Done), Release(n, Done)]
                       + [RemovePartFiles(n, files, true)])
  }

  lemma AbortStepsAre(s: State, t: State, u: Id, a: Id, outcome: Outcome, files: set<Path>)
    ensures Apply(s, BeginAbort(u)) == DoBeginAbort(s, u)
    ensures Apply(t, DeleteClaimed(a, outcome)) == DoDeleteClaimed(t, a, outcome)
  {
  }

  lemma RunsOne(s: State, n: Id, files: set<Path>)
    ensures RunFrom(s, [RemovePartFiles(n, files, true)]) == DoRemovePartFiles(s, n, files, true)
  {
    FirstStep(s, [RemovePartFiles(n, files, true)]);
    RemovalStepIs(s, n, files);
  }

  lemma AbortRun(s: State, u: Id, fails: bool, files: set<Path>)
    ensures RunFrom(s, AbortSteps(s.next, u, fails, files))
         == DoRemovePartFiles(DoRelease(DoDeleteClaimed(DoBeginAbort(s, u), s.next, if fails then Failed else Done),
                                        s.next, Done), s.next, files, true)
  {
    var outcome, t := if fails then Failed else Done, DoBeginAbort(s, u);
    AbortStepsAre(s, t, u, s.next, outcome, files);
    SettleStepsAre(DoDeleteClaimed(t, s.next, outcome), s.next);
    ThreeSteps(s, BeginAbort(u), DeleteClaimed(s.next, outcome), Release(s.next, Done),
               [RemovePartFiles(s.next, files, true)]);
    RunsOne(DoRelease(DoDeleteClaimed(t, s.next, outcome), s.next, Done), s.next, files);
  }

  lemma AbortClaims(s: State, u: Id)
    requires s.serving && IsActive(s.db, u)
    ensures DoBeginAbort(s, u) == Under(Claimed(s, u, Aborted), AbortClaimed(u), s.temps)
  {
  }

  lemma ClaimedIsDeleted(s: State, u: Id, fails: bool)
    requires IsActive(s.db, u)
    ensures DoDeleteClaimed(Under(Claimed(s, u, Aborted), AbortClaimed(u), s.temps), s.next, if fails then Failed else Done)
         == if fails then Under(Claimed(s, u, Aborted), Releasing(u), s.temps)
            else Under(WithDb(s, DropUpload(s.db, u)), RemovingParts(u, None), s.temps)
  {
    var pc := if fails then Releasing(u) else RemovingParts(u, None);
    RowsWithoutUpload(s, u, Aborted);
    assert s.actors[s.next := AbortClaimed(u)][s.next := pc] == s.actors[s.next := pc];
  }

  /**
   An abort takes the upload, its part rows and its part files away if and only if the upload is active and its deletion
   does not fail. Otherwise the upload is as it was, and active again if it had been.
   */
  lemma AbortTakesEffect(s: State, u: Id, fails: bool, files: set<Path>)
    requires Inv(s) && s.serving && PartFilesOf(u, s.disk.Keys) <= files
    ensures var t := RunFrom(s, AbortSteps(s.next, u, fails, files));
            if !IsActive(s.db, u) then t == s else Leaves(s, t, if fails then s else WithoutUpload(s, u))
  {
    FreshRequest(s);
    AbortRun(s, u, fails, files);
    if IsActive(s.db, u) {
      AbortClaims(s, u);
      ClaimedIsDeleted(s, u, fails);
      if fails {
        ClaimGivenBack(s, u, Aborted, s.temps);
      } else {
        DirectoryLeaves(s, WithDb(s, DropUpload(s.db, u)), u, s.temps, files);
      }
    }
  }

  // ---- The stale-upload cleaner ----

  function StaleSteps(n: Id, u: Id, files: set<Path>): seq<Step>
  {
    [BeginStale(u)] + ([ClaimStale(n, false), DeleteClaimed(n, Done)]
                       + [DeleteStale(n, Done), RemovePartFiles(n, files, true)])
  }

  lemma StaleStepsAre(s: State, t: State, u: Id, a: Id)
    ensures Apply(s, BeginStale(u)) == DoBeginStale(s, u)
    ensures Apply(t, ClaimStale(a, false)) == DoClaimStale(t, a, false)
    ensures Apply(t, DeleteStale(a, Done)) == DoDeleteStale(t, a, Done)
  {
  }

  lemma StaleRun(s: State, u: Id, files: set<Path>)
    ensures RunFrom(s, StaleSteps(s.next, u, files))
         == DoRemovePartFiles(DoDeleteStale(DoDeleteClaimed(DoClaimStale(DoBeginStale(s, u), s.next, false), s.next, Done),
                                            s.next, Done), s.next, files, true)
  {
    var n, rest := s.next, [DeleteStale(s.next, Done), RemovePartFiles(s.next, files, true)];
    var b := DoBeginStale(s, u);
    var t := DoDeleteClaimed(DoClaimStale(b, n, false), n, Done);
    StaleStepsAre(s, b, u, n);
    StaleStepsAre(s, t, u, n);
    AbortStepsAre(s, DoClaimStale(b, n, false), u, n, Done, files);
    ThreeSteps(s, BeginStale(u), ClaimStale(n, false), DeleteClaimed(n, Done), rest);
    FirstStep(t, rest);
    assert rest[1..] == [RemovePartFiles(n, files, true)];
    RunsOne(DoDeleteStale(t, n, Done), n, files);
  }

  lemma StaleClaims(s: State, u: Id)
    requires s.serving && IsActive(s.db, u)
    ensures DoClaimStale(DoBeginStale(s, u), s.next, false) == Under(Claimed(s, u, Aborted), AbortClaimed(u), s.temps)
  {
    assert s.actors[s.next := StaleSeen(u, Active)][s.next := AbortClaimed(u)] == s.actors[s.next := AbortClaimed(u)];
  }

  lemma StaleDeletes(s: State, u: Id)
    requires s.serving && u in s.db.uploads && s.db.uploads[u].status != Active
    ensures DoDeleteStale(DoDeleteClaimed(DoClaimStale(DoBeginStale(s, u), s.next, false), s.next, Done), s.next, Done)
         == Under(WithDb(s, DropUpload(s.db, u)), RemovingParts(u, None), s.temps)
  {
    var seen := StaleSeen(u, s.db.uploads[u].status);
    assert s.actors[s.next := seen][s.next := RemovingParts(u, None)] == s.actors[s.next := RemovingParts(u, None)];
  }

  /** The cleaner takes away any upload it has listed, claimed or not, with its part rows and part files. */
  lemma CleaningTakesEffect(s: State, u: Id, files: set<Path>)
    requires Inv(s) && s.serving && u in s.db.uploads && PartFilesOf(u, s.disk.Keys) <= files
    ensures Leaves(s, RunFrom(s, StaleSteps(s.next, u, files)), WithoutUpload(s, u))
  {
    FreshRequest(s);
    StaleRun(s, u, files);
    DirectoryLeaves(s, WithDb(s, DropUpload(s.db, u)), u, s.temps, files);
    if IsActive(s.db, u) {
      StaleClaims(s, u);
      ClaimedIsDeleted(s, u, false);
    } else {
      StaleDeletes(s, u);
    }
  }

  // ---- DeleteBucket ----

  /** One upload after the other. */
  function DropSteps(n: Id, k: nat, files: set<Path>): seq<Step>
  {
    if k == 0 then [] else [DropUploadOf(n, Done), RemovePartFiles(n, files, true)] + DropSteps(n, k - 1, files)
  }

  function BucketSteps(n: Id, bucket: Bucket, uploads: seq<Id>, files: set<Path>): seq<Step>
  {
    [BeginBucketDelete(bucket)] + ([ListUploads(n, uploads)] + (DropSteps(n, |uploads|, files) + [DropBucket(n)]))
  }

  /** These uploads, their part rows and their part files are gone. */
  function WithoutUploads(s: State, uploads: set<Id>): State
  {
    s.(db := s.db.(uploads := s.db.uploads - uploads, parts := s.db.parts - (set x | x in s.db.parts && x.upload in uploads)),
       disk := s.disk - (set p | p in s.disk && p.PartPath? && p.upload in uploads))
  }

  function Elements(uploads: seq<Id>): set<Id>
  {
    set u | u in uploads
  }

  lemma OneThenRest(s: State, uploads: seq<Id>)
    requires uploads != []
    ensures WithoutUploads(WithoutUpload(s, uploads[0]), Elements(uploads[1..])) == WithoutUploads(s, Elements(uploads))
  {
    var one, rest, t := uploads[0], Elements(uploads[1..]), WithoutUpload(s, uploads[0]);
    assert Elements(uploads) == {one} + rest;
    assert t.db.uploads - rest == s.db.uploads - Elements(uploads);
    assert t.db.parts - (set x | x in t.db.parts && x.upload in rest)
        == s.db.parts - (set x | x in s.db.parts && x.upload in Elements(uploads));
    assert t.disk - (set p | p in t.disk && p.PartPath? && p.upload in rest)
        == s.disk - (set p | p in s.disk && p.PartPath? && p.upload in Elements(uploads));
  }

  function Deleting(s: State, bucket: Bucket, uploads: seq<Id>): State
  {
    Under(s, DeletingBucket(BucketWork(bucket, uploads)), s.temps)
  }

  lemma DropOne(s: State, bucket: Bucket, uploads: seq<Id>, files: set<Path>)
    requires uploads != [] && uploads[0] in s.db.uploads && s.disk.Keys <= files
    ensures DoRemovePartFiles(DoDropUploadOf(Deleting(s, bucket, uploads), s.next, Done), s.next, files, true)
         == Deleting(WithoutUpload(s, uploads[0]), bucket, uploads[1..])
  {
    var u, work := uploads[0], BucketWork(bucket, uploads[1..]);
    var x := WithDb(s, DropUpload(s.db, u));
    RowsWithoutUpload(s, u, Active);
    FilesWithoutUpload(s.disk, u, files);
    assert s.actors[s.next := DeletingBucket(BucketWork(bucket, uploads))][s.next := RemovingParts(u, Some(work))]
        == s.actors[s.next := RemovingParts(u, Some(work))];
    assert DoDropUploadOf(Deleting(s, bucket, uploads), s.next, Done) == Under(x, RemovingParts(u, Some(work)), s.temps);
    assert s.actors[s.next := RemovingParts(u, Some(work))][s.next := DeletingBucket(work)]
        == s.actors[s.next := DeletingBucket(work)];
  }

  lemma DropStepIs(s: State, a: Id)
    ensures Apply(s, DropUploadOf(a, Done)) == DoDropUploadOf(s, a, Done)
  {
  }

  predicate Distinct(uploads: seq<Id>)
  {
    forall i, j :: 0 <= i < j < |uploads| ==> uploads[i] != uploads[j]
  }

  predicate AllExist(db: Db, uploads: seq<Id>)
  {
    forall i :: 0 <= i < |uploads| ==> uploads[i] in db.uploads
  }

  /** The loop over the listed uploads. */
  lemma {:induction false} DropRun(s: State, bucket: Bucket, uploads: seq<Id>, files: set<Path>)
    requires Distinct(uploads) && AllExist(s.db, uploads) && s.disk.Keys <= files
    ensures RunFrom(Deleting(s, bucket, uploads), DropSteps(s.next, |uploads|, files))
         == Deleting(WithoutUploads(s, Elements(uploads)), bucket, [])
    decreases |uploads|
  {
    if uploads == [] {
      assert WithoutUploads(s, Elements(uploads)) == s;
    } else {
      var t := WithoutUpload(s, uploads[0]);
      DropRound(s, bucket, uploads, files);
      DropRun(t, bucket, uploads[1..], files);
      OneThenRest(s, uploads);
    }
  }

  lemma DropRound(s: State, bucket: Bucket, uploads: seq<Id>, files: set<Path>)
    requires uploads != [] && uploads[0] in s.db.uploads && s.disk.Keys <= files
    ensures RunFrom(Deleting(s, bucket, uploads), DropSteps(s.next, |uploads|, files))
         == RunFrom(Deleting(WithoutUpload(s, uploads[0]), bucket, uploads[1..]), DropSteps(s.next, |uploads| - 1, files))
  {
    var steps := DropSteps(s.next, |uploads|, files);
    TwoSteps(Deleting(s, bucket, uploads), steps);
    assert steps[2..] == DropSteps(s.next, |uploads| - 1, files);
    DropStepIs(Deleting(s, bucket, uploads), s.next);
    RemovalStepIs(DoDropUploadOf(Deleting(s, bucket, uploads), s.next, Done), s.next, files);
    DropOne(s, bucket, uploads, files);
  }

  /** These are the active uploads of the bucket. */
  ghost predicate ListsActive(db: Db, bucket: Bucket, uploads: seq<Id>)
  {
    && Distinct(uploads)
    && forall u :: u in uploads <==> u in db.uploads && db.uploads[u].slot.bucket == bucket && db.uploads[u].status == Active
  }

  lemma ListingStarts(s: State, bucket: Bucket, uploads: seq<Id>)
    requires s.serving && ListsActive(s.db, bucket, uploads) && SlotsIn(s.db, bucket) == {}
    ensures DoListUploads(DoBeginBucketDelete(s, bucket), s.next, uploads) == Deleting(s, bucket, uploads)
    ensures AllExist(s.db, uploads)
  {
    assert forall i :: 0 <= i < |uploads| ==> uploads[i] in uploads;
    assert s.actors[s.next := DeletingBucket(BucketWork(bucket, []))][s.next := DeletingBucket(BucketWork(bucket, uploads))]
        == s.actors[s.next := DeletingBucket(BucketWork(bucket, uploads))];
  }

  lemma BucketStepsAre(s: State, t: State, bucket: Bucket, uploads: seq<Id>, a: Id)
    ensures Apply(s, BeginBucketDelete(bucket)) == DoBeginBucketDelete(s, bucket)
    ensures Apply(t, ListUploads(a, uploads)) == DoListUploads(t, a, uploads)
  {
  }

  lemma LastStepIs(s: State, a: Id)
    ensures RunFrom(s, [DropBucket(a)]) == DoDropBucket(s, a)
  {
    FirstStep(s, [DropBucket(a)]);
  }

  lemma BucketRun(s: State, bucket: Bucket, uploads: seq<Id>, files: set<Path>)
    ensures RunFrom(s, BucketSteps(s.next, bucket, uploads, files))
         == DoDropBucket(RunFrom(DoListUploads(DoBeginBucketDelete(s, bucket), s.next, uploads),
                                 DropSteps(s.next, |uploads|, files)), s.next)
  {
    var n, b := s.next, DoBeginBucketDelete(s, bucket);
    var t := RunFrom(DoListUploads(b, n, uploads), DropSteps(n, |uploads|, files));
    BucketStepsAre(s, b, bucket, uploads, n);
    Guarantees.RunSplits(s, BeginBucketDelete(bucket), [ListUploads(n, uploads)] + (DropSteps(n, |uploads|, files) + [DropBucket(n)]));
    ThreeParts(b, ListUploads(n, uploads), DropSteps(n, |uploads|, files), [DropBucket(n)]);
    LastStepIs(t, n);
  }

  lemma BucketDropped(s: State, x: State, bucket: Bucket)
    requires x.next == s.next && x.temps == s.temps && s.next !in x.actors
    ensures Leaves(s, DoDropBucket(Deleting(x, bucket, []), s.next),
                   if DeleteBucket(x.db, bucket).Ok? then x.(db := x.db.(buckets := x.db.buckets - {bucket})) else x)
  {
    PlainDeletion(x.db, bucket);
    var y := if DeleteBucket(x.db, bucket).Ok? then x.(db := x.db.(buckets := x.db.buckets - {bucket})) else x;
    EndLeaves(s, y, DeletingBucket(BucketWork(bucket, [])), s.temps);
  }

  /** A bucket with objects is refused, and keeps its uploads. */
  lemma FullBucketIsKept(s: State, bucket: Bucket, uploads: seq<Id>, files: set<Path>)
    requires Inv(s) && exists k :: k in s.db.objects && k.bucket == bucket
    ensures RunFrom(s, BucketSteps(s.next, bucket, uploads, files)) == s
  {
    var k :| k in s.db.objects && k.bucket == bucket;
    assert k in SlotsIn(s.db, bucket);
    FreshRequest(s);
    BucketRun(s, bucket, uploads, files);
    DropsContinue(s.next, |uploads|, files);
    OverStays(s, DropSteps(s.next, |uploads|, files), s.next);
  }

  lemma {:induction false} DropsContinue(n: Id, k: nat, files: set<Path>)
    ensures forall i :: 0 <= i < |DropSteps(n, k, files)| ==> Continues(DropSteps(n, k, files)[i], n)
  {
    if k == 0 {
    } else {
      DropsContinue(n, k - 1, files);
    }
  }

  /**
   Without an object in it, the active uploads of the bucket go with their part rows and part files, and then the bucket
   goes if and only if it exists and had no upload that somebody has claimed.
   */
  lemma BucketDeletionTakesEffect(s: State, bucket: Bucket, uploads: seq<Id>, files: set<Path>)
    requires Inv(s) && s.serving && s.disk.Keys <= files && ListsActive(s.db, bucket, uploads)
    requires forall k :: k in s.db.objects ==> k.bucket != bucket
    ensures var t := RunFrom(s, BucketSteps(s.next, bucket, uploads, files));
            var x := WithoutUploads(s, Elements(uploads));
            Leaves(s, t, if bucket in s.db.buckets && forall u :: u in s.db.uploads && s.db.uploads[u].slot.bucket == bucket ==>
                                                                    s.db.uploads[u].status == Active
                         then x.(db := x.db.(buckets := x.db.buckets - {bucket})) else x)
  {
    var x := WithoutUploads(s, Elements(uploads));
    FreshRequest(s);
    BucketRun(s, bucket, uploads, files);
    assert SlotsIn(s.db, bucket) == {};
    ListingStarts(s, bucket, uploads);
    DropRun(s, bucket, uploads, files);
    BucketDropped(s, x, bucket);
    OnlyClaimedStay(s, bucket, uploads);
  }

  lemma OnlyClaimedStay(s: State, bucket: Bucket, uploads: seq<Id>)
    requires ListsActive(s.db, bucket, uploads) && forall k :: k in s.db.objects ==> k.bucket != bucket
    ensures DeleteBucket(WithoutUploads(s, Elements(uploads)).db, bucket).Ok? <==>
              bucket in s.db.buckets && forall u :: u in s.db.uploads && s.db.uploads[u].slot.bucket == bucket ==>
                                                      s.db.uploads[u].status == Active
  {
    var db := WithoutUploads(s, Elements(uploads)).db;
    PlainDeletion(db, bucket);
    forall u | u in s.db.uploads && s.db.uploads[u].slot.bucket == bucket
      ensures u in db.uploads <==> s.db.uploads[u].status != Active
    {
    }
  }
}
