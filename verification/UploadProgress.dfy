/** What requests about multipart uploads achieve, and what they leave when they are refused or fail. */
module UploadProgress {
  import opened Wrappers
  import opened Metadata
  import opened History
  import opened Lifecycle
  import opened Invariant
  import opened Progress
  import opened CompletedParts
  import ETags
  import Guarantees

  predicate IsActive(db: Db, u: Id)
  {
    u in db.uploads && db.uploads[u].status == Active
  }

  // ---- UploadPart ----

  function PartSteps(n: Id, part: PartSlot, bytes: Bytes, etag: string, partial: Bytes, fails: bool): seq<Step>
  {
    [BeginPart(part, bytes, etag, partial)] + ([FinishPart(n, WriteOk), CommitPart(n, fails)] + CleanUp(n))
  }

  /** The part has a row with this tag and size, its file has these bytes, and the file it had before is gone. */
  function WithPart(s: State, part: PartSlot, bytes: Bytes, etag: string): State
  {
    var path := PartPath(part.upload, part.number, s.next);
    var was := if part in s.db.parts then {s.db.parts[part].path} else {};
    s.(db := s.db.(parts := s.db.parts[part := StoredPart(path, |bytes|, etag)]),
       disk := (s.disk - was)[path := File(bytes, true)],
       log := s.log + [PartStored(part, path, etag, bytes)])
  }

  function PartFile(s: State, part: PartSlot): Path
  {
    PartPath(part.upload, part.number, s.next)
  }

  function PartList(row: Option<PartRow>): seq<Path>
  {
    if row.Some? then [row.value.path] else []
  }

  lemma FillPart(s: State, part: PartSlot, bytes: Bytes, etag: string, partial: Bytes)
    requires s.serving && part.upload < s.next
    ensures DoFinishPart(DoBeginPart(s, part, bytes, etag, partial), s.next, WriteOk)
         == Under(PutFile(s, PartFile(s, part), File(bytes, true)), PartWritten(part, bytes, etag), s.temps)
  {
    var path := PartFile(s, part);
    assert s.disk[path := File(partial, false)][path := File(bytes, true)] == s.disk[path := File(bytes, true)];
    assert s.actors[s.next := PartWriting(part, bytes, etag)][s.next := PartWritten(part, bytes, etag)]
        == s.actors[s.next := PartWritten(part, bytes, etag)];
  }

  function StoresPart(s: State, part: PartSlot, bytes: Bytes, etag: string): State
  {
    var path := PartFile(s, part);
    Commit(PutFile(s, path, File(bytes, true)), s.db.(parts := s.db.parts[part := StoredPart(path, |bytes|, etag)]),
           PartStored(part, path, etag, bytes))
  }

  lemma PartCommits(s: State, part: PartSlot, bytes: Bytes, etag: string)
    requires IsActive(s.db, part.upload)
    ensures DoCommitPart(Under(PutFile(s, PartFile(s, part), File(bytes, true)), PartWritten(part, bytes, etag), s.temps),
                         s.next, false)
         == Under(StoresPart(s, part, bytes, etag), Unlinking(PartList(Lookup(s.db.parts, part))), s.temps)
  {
  }

  lemma PartRefused(s: State, part: PartSlot, bytes: Bytes, etag: string, fails: bool)
    requires fails || !IsActive(s.db, part.upload)
    ensures DoCommitPart(Under(PutFile(s, PartFile(s, part), File(bytes, true)), PartWritten(part, bytes, etag), s.temps),
                         s.next, fails)
         == Under(PutFile(s, PartFile(s, part), File(bytes, true)), Discarding(PartFile(s, part)), s.temps)
  {
  }

  lemma ReplacesPart(s: State, part: PartSlot, bytes: Bytes, etag: string)
    requires part in s.db.parts ==> s.db.parts[part].path.id != s.next
    ensures var paths := PartList(Lookup(s.db.parts, part));
            DropFiles(StoresPart(s, part, bytes, etag), set p | p in paths) == WithPart(s, part, bytes, etag)
  {
    var path, f := PartFile(s, part), File(bytes, true);
    var paths := PartList(Lookup(s.db.parts, part));
    var was := if part in s.db.parts then {s.db.parts[part].path} else {};
    assert (set p | p in paths) == was;
    assert s.disk[path := f] - was == (s.disk - was)[path := f];
  }

  lemma PartStepsAre(s: State, t: State, u: State, part: PartSlot, bytes: Bytes, etag: string, partial: Bytes, a: Id,
                     fails: bool)
    ensures Apply(s, BeginPart(part, bytes, etag, partial)) == DoBeginPart(s, part, bytes, etag, partial)
    ensures Apply(t, FinishPart(a, WriteOk)) == DoFinishPart(t, a, WriteOk)
    ensures Apply(u, CommitPart(a, fails)) == DoCommitPart(u, a, fails)
  {
  }

  lemma PartRun(s: State, part: PartSlot, bytes: Bytes, etag: string, partial: Bytes, fails: bool)
    ensures RunFrom(s, PartSteps(s.next, part, bytes, etag, partial, fails))
         == RunFrom(DoCommitPart(DoFinishPart(DoBeginPart(s, part, bytes, etag, partial), s.next, WriteOk), s.next, fails),
                    CleanUp(s.next))
  {
    var b := DoBeginPart(s, part, bytes, etag, partial);
    PartStepsAre(s, b, DoFinishPart(b, s.next, WriteOk), part, bytes, etag, partial, s.next, fails);
    ThreeSteps(s, BeginPart(part, bytes, etag, partial), FinishPart(s.next, WriteOk), CommitPart(s.next, fails),
               CleanUp(s.next));
  }

  lemma OldPartFile(s: State, part: PartSlot)
    requires Inv(s)
    ensures part in s.db.parts ==> s.db.parts[part].path.id != s.next
  {
    InvIs(s);
    FreshRequest(s);
    PartFilesPresent(s);
  }

  lemma PartStores(s: State, part: PartSlot, bytes: Bytes, etag: string, partial: Bytes)
    requires Inv(s) && s.serving && part.upload < s.next && IsActive(s.db, part.upload)
    ensures Leaves(s, RunFrom(s, PartSteps(s.next, part, bytes, etag, partial, false)), WithPart(s, part, bytes, etag))
  {
    FreshRequest(s);
    PartRun(s, part, bytes, etag, partial, false);
    FillPart(s, part, bytes, etag, partial);
    PartCommits(s, part, bytes, etag);
    OldPartFile(s, part);
    ReplacesPart(s, part, bytes, etag);
    CleanUpUnlinks(s, StoresPart(s, part, bytes, etag), PartList(Lookup(s.db.parts, part)), s.temps);
  }

  lemma PartIsDiscarded(s: State, part: PartSlot, bytes: Bytes, etag: string, partial: Bytes, fails: bool)
    requires Inv(s) && s.serving && part.upload < s.next && (fails || !IsActive(s.db, part.upload))
    ensures Leaves(s, RunFrom(s, PartSteps(s.next, part, bytes, etag, partial, fails)), s)
  {
    FreshRequest(s);
    PartRun(s, part, bytes, etag, partial, fails);
    FillPart(s, part, bytes, etag, partial);
    PartRefused(s, part, bytes, etag, fails);
    CleanUpDiscards(s, PartFile(s, part), File(bytes, true), s.temps);
  }

  /**
   An uploaded part is stored with exactly its bytes and its tag, the file it replaced goes, and nothing else changes,
   if and only if the upload is active and the commit does not fail. Otherwise nothing changes.
   */
  lemma PartTakesEffect(s: State, part: PartSlot, bytes: Bytes, etag: string, partial: Bytes, fails: bool)
    requires Inv(s) && s.serving && part.upload < s.next
    ensures Leaves(s, RunFrom(s, PartSteps(s.next, part, bytes, etag, partial, fails)),
                   if !fails && IsActive(s.db, part.upload) then WithPart(s, part, bytes, etag) else s)
  {
    if !fails && IsActive(s.db, part.upload) {
      PartStores(s, part, bytes, etag, partial);
    } else {
      PartIsDiscarded(s, part, bytes, etag, partial, fails);
    }
  }

  /** A part whose digest is wrong changes nothing. */
  lemma WrongPartDigestChangesNothing(s: State, part: PartSlot, bytes: Bytes, etag: string, partial: Bytes)
    requires Inv(s) && s.serving && part.upload < s.next
    ensures Leaves(s, RunFrom(s, [BeginPart(part, bytes, etag, partial)]
                                 + ([FinishPart(s.next, WriteOk), RejectDigest(s.next)] + CleanUp(s.next))), s)
  {
    var b := DoBeginPart(s, part, bytes, etag, partial);
    FreshRequest(s);
    PartStepsAre(s, b, s, part, bytes, etag, partial, s.next, false);
    ThreeSteps(s, BeginPart(part, bytes, etag, partial), FinishPart(s.next, WriteOk), RejectDigest(s.next), CleanUp(s.next));
    FillPart(s, part, bytes, etag, partial);
    RejectsPart(s, part, bytes, etag);
    CleanUpDiscards(s, PartFile(s, part), File(bytes, true), s.temps);
  }

  lemma RejectsPart(s: State, part: PartSlot, bytes: Bytes, etag: string)
    ensures var x := PutFile(s, PartFile(s, part), File(bytes, true));
            Apply(Under(x, PartWritten(part, bytes, etag), s.temps), RejectDigest(s.next))
            == Under(x, Discarding(PartFile(s, part)), s.temps)
  {
    assert s.actors[s.next := PartWritten(part, bytes, etag)][s.next := Discarding(PartFile(s, part))]
        == s.actors[s.next := Discarding(PartFile(s, part))];
  }

  // ---- Creation ----

  /** A bucket is created if it is not there yet, and nothing else changes. */
  lemma BucketIsCreated(s: State, bucket: Bucket)
    requires s.serving
    ensures Apply(s, CreateBucket(bucket)) == s.(db := s.db.(buckets := s.db.buckets + {bucket}))
  {
    if bucket in s.db.buckets {
      assert s.db.buckets + {bucket} == s.db.buckets;
    }
  }

  /** An upload is created, active and for its key, if and only if its bucket exists, and nothing else changes. */
  lemma UploadIsCreated(s: State, slot: Slot)
    requires Inv(s) && s.serving
    ensures Apply(s, CreateUpload(slot)) ==
            if slot.bucket in s.db.buckets
            then s.(next := s.next + 1, db := s.db.(uploads := s.db.uploads[s.next := UploadRow(slot, Active)])) else s
  {
    InvIs(s);
  }

  // ---- CompleteMultipartUpload ----

  function CopySteps(n: Id, k: nat): seq<Step>
  {
    seq(k, i => CopyPart(n, false, true))
  }

  /** The bytes of these parts on disk, one after the other. */
  function FileBytes(disk: map<Path, File>, parts: seq<PartRow>): Bytes
    requires forall i :: 0 <= i < |parts| ==> parts[i].path in disk
  {
    if parts == [] then [] else disk[parts[0].path].bytes + FileBytes(disk, parts[1..])
  }

  lemma CopyOne(s: State, a: Id)
    requires a in s.actors && s.actors[a].Assembling? && s.actors[a].done < |s.actors[a].parts|
    requires s.actors[a].parts[s.actors[a].done].path in s.disk
    ensures var pc := s.actors[a];
            DoCopyPart(s, a, false, true)
            == Become(s, a, pc.(done := pc.done + 1, bytes := pc.bytes + s.disk[pc.parts[pc.done].path].bytes))
  {
  }

  /** The copy loop is through. */
  function Copied(s: State, a: Id): State
    requires a in s.actors && s.actors[a].Assembling? && s.actors[a].done <= |s.actors[a].parts|
    requires forall i :: 0 <= i < |s.actors[a].parts| ==> s.actors[a].parts[i].path in s.disk
  {
    var pc := s.actors[a];
    Become(s, a, pc.(done := |pc.parts|, bytes := pc.bytes + FileBytes(s.disk, pc.parts[pc.done..])))
  }

  lemma CopiedAlready(s: State, a: Id)
    requires a in s.actors && s.actors[a].Assembling? && s.actors[a].done == |s.actors[a].parts|
    requires forall i :: 0 <= i < |s.actors[a].parts| ==> s.actors[a].parts[i].path in s.disk
    ensures Copied(s, a) == s
  {
    var pc := s.actors[a];
    assert pc.parts[pc.done..] == [] && pc.bytes + [] == pc.bytes;
    assert s.actors[a := pc] == s.actors;
  }

  lemma CopiedNext(s: State, a: Id)
    requires a in s.actors && s.actors[a].Assembling? && s.actors[a].done < |s.actors[a].parts|
    requires forall i :: 0 <= i < |s.actors[a].parts| ==> s.actors[a].parts[i].path in s.disk
    ensures var t := DoCopyPart(s, a, false, true);
            && t.disk == s.disk && a in t.actors && t.actors[a].Assembling? && t.actors[a].parts == s.actors[a].parts
            && t.actors[a].done == s.actors[a].done + 1 && Copied(t, a) == Copied(s, a)
  {
    var pc := s.actors[a];
    CopyOne(s, a);
    CopiedBytes(s.disk, pc.parts, pc.done, pc.bytes);
  }

  /** Whatever the number of parts, the copy loop appends the bytes of all that are left. */
  lemma {:induction false} CopyRun(s: State, a: Id, k: nat)
    requires a in s.actors && s.actors[a].Assembling? && s.actors[a].done + k == |s.actors[a].parts|
    requires forall i :: 0 <= i < |s.actors[a].parts| ==> s.actors[a].parts[i].path in s.disk
    ensures RunFrom(s, CopySteps(a, k)) == Copied(s, a)
    decreases k
  {
    if k == 0 {
      CopiedAlready(s, a);
    } else {
      FirstStep(s, CopySteps(a, k));
      assert CopySteps(a, k)[1..] == CopySteps(a, k - 1);
      CopiedNext(s, a);
      CopyRun(DoCopyPart(s, a, false, true), a, k - 1);
    }
  }

  lemma CopiedBytes(disk: map<Path, File>, parts: seq<PartRow>, done: nat, bytes: Bytes)
    requires done < |parts| && forall i :: 0 <= i < |parts| ==> parts[i].path in disk
    ensures bytes + FileBytes(disk, parts[done..]) == bytes + disk[parts[done].path].bytes + FileBytes(disk, parts[done + 1..])
  {
    assert parts[done..][1..] == parts[done + 1..];
  }

  /** Every requested part is stored with the requested tag, and all but the last are large enough. */
  predicate Fits(db: Db, u: Id, requested: seq<CompletePart>, minPartSize: int)
  {
    forall i :: 0 <= i < |requested| ==>
      var x := PartSlot(u, requested[i].number);
      && x in db.parts && ETags.Equal(requested[i].etag, db.parts[x].etag)
      && (i < |requested| - 1 ==> db.parts[x].size >= minPartSize)
  }

  /** The bytes of the stored parts, in the order of the request. */
  function StoredBytes(s: State, u: Id, requested: seq<CompletePart>): Bytes
  {
    if requested == [] then []
    else
      var x := PartSlot(u, requested[0].number);
      (if x in s.db.parts && s.db.parts[x].path in s.disk then s.disk[s.db.parts[x].path].bytes else [])
      + StoredBytes(s, u, requested[1..])
  }

  lemma PartNumbered(db: Db, u: Id, number: int)
    ensures number in PartsByNumber(db, u) <==> PartSlot(u, number) in db.parts
    ensures PartSlot(u, number) in db.parts ==> PartsByNumber(db, u)[number] == db.parts[PartSlot(u, number)]
  {
  }

  lemma FitsMeansMatched(db: Db, u: Id, requested: seq<CompletePart>, minPartSize: int)
    ensures Fits(db, u, requested, minPartSize) <==> Matched(requested, PartsByNumber(db, u), minPartSize).Ok?
  {
    var stored := PartsByNumber(db, u);
    forall i | 0 <= i < |requested|
      ensures PartFits(requested, stored, minPartSize, i) <==>
                && PartSlot(u, requested[i].number) in db.parts
                && ETags.Equal(requested[i].etag, db.parts[PartSlot(u, requested[i].number)].etag)
                && (i < |requested| - 1 ==> db.parts[PartSlot(u, requested[i].number)].size >= minPartSize)
    {
      PartNumbered(db, u, requested[i].number);
    }
  }

  /** These rows are the stored parts that the request names. */
  predicate AreParts(db: Db, u: Id, requested: seq<CompletePart>, parts: seq<PartRow>)
  {
    && |parts| == |requested|
    && forall i :: 0 <= i < |parts| ==>
         PartSlot(u, requested[i].number) in db.parts && parts[i] == db.parts[PartSlot(u, requested[i].number)]
  }

  lemma MatchedAreParts(db: Db, u: Id, requested: seq<CompletePart>, minPartSize: int)
    requires Fits(db, u, requested, minPartSize)
    ensures Matched(requested, PartsByNumber(db, u), minPartSize).Ok?
    ensures AreParts(db, u, requested, Matched(requested, PartsByNumber(db, u), minPartSize).value)
  {
    FitsMeansMatched(db, u, requested, minPartSize);
    var parts := Matched(requested, PartsByNumber(db, u), minPartSize).value;
    forall i | 0 <= i < |parts| ensures parts[i] == db.parts[PartSlot(u, requested[i].number)] {
      PartNumbered(db, u, requested[i].number);
    }
  }

  lemma {:induction false} PartBytes(s: State, u: Id, requested: seq<CompletePart>, parts: seq<PartRow>)
    requires AreParts(s.db, u, requested, parts) && forall i :: 0 <= i < |parts| ==> parts[i].path in s.disk
    ensures FileBytes(s.disk, parts) == StoredBytes(s, u, requested)
  {
    if parts == [] {
    } else {
      PartBytes(s, u, requested[1..], parts[1..]);
    }
  }

  /** The upload is claimed. */
  function Claimed(s: State, u: Id, status: Status): State
    requires u in s.db.uploads
  {
    WithDb(s, WithStatus(s.db, u, status))
  }

  /** Giving the claim back restores the upload. */
  lemma ClaimGivenBack(s: State, u: Id, status: Status, temps: set<Id>)
    requires IsActive(s.db, u) && s.next !in s.actors && temps <= s.temps
    ensures Leaves(s, DoRelease(Under(Claimed(s, u, status), Releasing(u), temps), s.next, Done), s)
  {
    var c := Claimed(s, u, status);
    assert WithStatus(c.db, u, Active).uploads == s.db.uploads;
    EndLeaves(s, s, Releasing(u), temps);
  }

  lemma Claims(s: State, u: Id, parts: seq<CompletePart>, cond: Conditions)
    requires s.serving && IsActive(s.db, u) && Normalize(parts).Ok?
    ensures DoBeginComplete(s, u, parts, cond)
         == Under(Claimed(s, u, Completing), CompleteClaimed(u, s.db.uploads[u].slot, Normalize(parts).value, cond), s.temps)
  {
  }

  lemma ClaimKeepsParts(s: State, u: Id)
    requires u in s.db.uploads
    ensures PartsByNumber(Claimed(s, u, Completing).db, u) == PartsByNumber(s.db, u)
  {
  }

  lemma Selects(c: State, u: Id, slot: Slot, requested: seq<CompletePart>, cond: Conditions, minPartSize: int,
                parts: seq<PartRow>)
    requires Matched(requested, PartsByNumber(c.db, u), minPartSize) == Ok(parts)
    ensures DoSelectParts(Under(c, CompleteClaimed(u, slot, requested, cond), c.temps), c.next, minPartSize, false)
         == Under(c, Assembling(u, slot, requested, cond, parts, 0, []), c.temps + {c.next})
  {
    var t := Under(c, CompleteClaimed(u, slot, requested, cond), c.temps);
    assert t.actors[c.next].CompleteClaimed? && t.db == c.db;
  }

  lemma SelectsNothing(c: State, u: Id, slot: Slot, requested: seq<CompletePart>, cond: Conditions, minPartSize: int,
                       fails: bool)
    requires fails || Matched(requested, PartsByNumber(c.db, u), minPartSize).Err?
    ensures DoSelectParts(Under(c, CompleteClaimed(u, slot, requested, cond), c.temps), c.next, minPartSize, fails)
         == Under(c, Releasing(u), c.temps)
  {
    var t := Under(c, CompleteClaimed(u, slot, requested, cond), c.temps);
    assert t.actors[c.next := Releasing(u)] == c.actors[c.next := Releasing(u)];
    assert DoSelectParts(t, c.next, minPartSize, fails) == Become(t, c.next, Releasing(u));
  }

  lemma Assembles(c: State, u: Id, slot: Slot, requested: seq<CompletePart>, cond: Conditions, parts: seq<PartRow>)
    requires forall i :: 0 <= i < |parts| ==> parts[i].path in c.disk
    ensures RunFrom(Under(c, Assembling(u, slot, requested, cond, parts, 0, []), c.temps + {c.next}),
                    CopySteps(c.next, |parts|))
         == Under(c, Assembling(u, slot, requested, cond, parts, |parts|, FileBytes(c.disk, parts)), c.temps + {c.next})
  {
    var t := Under(c, Assembling(u, slot, requested, cond, parts, 0, []), c.temps + {c.next});
    CopyRun(t, c.next, |parts|);
    AllCopied(t, c.next);
  }

  lemma AllCopied(t: State, a: Id)
    requires a in t.actors && t.actors[a].Assembling? && t.actors[a].done == 0 && t.actors[a].bytes == []
    requires forall i :: 0 <= i < |t.actors[a].parts| ==> t.actors[a].parts[i].path in t.disk
    ensures var pc := t.actors[a];
            Copied(t, a) == Become(t, a, pc.(done := |pc.parts|, bytes := FileBytes(t.disk, pc.parts)))
  {
    var parts := t.actors[a].parts;
    assert parts[0..] == parts && [] + FileBytes(t.disk, parts) == FileBytes(t.disk, parts);
  }

  lemma Finishes(c: State, u: Id, slot: Slot, requested: seq<CompletePart>, cond: Conditions, parts: seq<PartRow>,
                 bytes: Bytes)
    ensures DoFinishAssembly(Under(c, Assembling(u, slot, requested, cond, parts, |parts|, bytes), c.temps + {c.next}),
                             c.next, WriteOk)
         == Under(PutFile(c, ObjectPath(slot.bucket, c.next), File(bytes, true)),
                  Assembled(u, slot, requested, cond, parts, bytes), c.temps - {c.next})
  {
    assert c.temps + {c.next} - {c.next} == c.temps - {c.next};
  }

  // ---- The commit, and what follows it ----

  /** The rows after a completion: the object is there, the upload and its parts are not. */
  function CompletedRows(db: Db, u: Id, slot: Slot, row: ObjectRow): Db
  {
    Db(db.buckets, db.objects[slot := row], db.uploads - {u}, db.parts - PartsOf(db, u))
  }

  function Assembly(c: State, u: Id, slot: Slot, requested: seq<CompletePart>, cond: Conditions, bytes: Bytes, etag: string)
    : State
  {
    var path := ObjectPath(slot.bucket, c.next);
    Commit(PutFile(c, path, File(bytes, true)), CompletedRows(c.db, u, slot, ObjectRow(path, etag)),
           Stored(slot, path, etag, bytes, cond, AssembledFrom(u, requested), Lookup(c.db.objects, slot)))
  }

  lemma CompletionRows(db: Db, u: Id, slot: Slot, row: ObjectRow, cond: Conditions)
    requires u in db.uploads && db.uploads[u].status == Completing
    ensures Accepts(db, slot, cond) ==>
              CompleteUpload(db, u, slot, row, cond) == Ok((CompletedRows(db, u, slot, row), Lookup(db.objects, slot)))
    ensures !Accepts(db, slot, cond) ==>
              CompleteUpload(db, u, slot, row, cond).Err? && !CompleteUpload(db, u, slot, row, cond).error.UploadNotFound?
  {
  }

  lemma Completes(c: State, u: Id, slot: Slot, requested: seq<CompletePart>, cond: Conditions, parts: seq<PartRow>,
                  bytes: Bytes, etag: string, temps: set<Id>)
    requires u in c.db.uploads && c.db.uploads[u].status == Completing && Accepts(c.db, slot, cond)
    ensures DoCommitComplete(Under(PutFile(c, ObjectPath(slot.bucket, c.next), File(bytes, true)),
                                   Assembled(u, slot, requested, cond, parts, bytes), temps), c.next, etag, false)
         == Under(Assembly(c, u, slot, requested, cond, bytes, etag),
                  CompleteSettled(u, PathOf(Lookup(c.db.objects, slot))), temps)
  {
    var path, settled := ObjectPath(slot.bucket, c.next), CompleteSettled(u, PathOf(Lookup(c.db.objects, slot)));
    CompletionRows(c.db, u, slot, ObjectRow(path, etag), cond);
    assert c.actors[c.next := Assembled(u, slot, requested, cond, parts, bytes)][c.next := settled]
        == c.actors[c.next := settled];
  }

  lemma CompletionFails(c: State, u: Id, slot: Slot, requested: seq<CompletePart>, cond: Conditions, parts: seq<PartRow>,
                        bytes: Bytes, etag: string, temps: set<Id>, fails: bool)
    requires u in c.db.uploads && c.db.uploads[u].status == Completing && (fails || !Accepts(c.db, slot, cond))
    ensures var path := ObjectPath(slot.bucket, c.next);
            DoCommitComplete(Under(PutFile(c, path, File(bytes, true)),
                                   Assembled(u, slot, requested, cond, parts, bytes), temps), c.next, etag, fails)
            == Under(PutFile(c, path, File(bytes, true)), CompleteFailed(u, path), temps)
  {
    var path := ObjectPath(slot.bucket, c.next);
    CompletionRows(c.db, u, slot, ObjectRow(path, etag), cond);
    assert c.actors[c.next := Assembled(u, slot, requested, cond, parts, bytes)][c.next := CompleteFailed(u, path)]
        == c.actors[c.next := CompleteFailed(u, path)];
  }

  /** What a completer does after its commit: clean up and give the claim back, or clean up what it replaced. */
  function SettleSteps(n: Id, files: set<Path>): seq<Step>
  {
    [DiscardAssembled(n, true), Release(n, Done)] + [UnlinkReplaced(n, true), RemovePartFiles(n, files, true)]
  }

  lemma SettleRun(s: State, n: Id, files: set<Path>)
    ensures RunFrom(s, SettleSteps(n, files))
         == DoRemovePartFiles(DoUnlinkReplaced(DoRelease(DoDiscardAssembled(s, n, true), n, Done), n, true), n, files, true)
  {
    var t := DoRelease(DoDiscardAssembled(s, n, true), n, Done);
    SettleStepsAre(s, n);
    SettleStepsAre(DoDiscardAssembled(s, n, true), n);
    SettleStepsAre(t, n);
    RemovalStepIs(DoUnlinkReplaced(t, n, true), n, files);
    TwoSteps(s, SettleSteps(n, files));
    TwoSteps(t, SettleSteps(n, files)[2..]);
  }

  lemma SettleStepsAre(s: State, n: Id)
    ensures Apply(s, DiscardAssembled(n, true)) == DoDiscardAssembled(s, n, true)
    ensures Apply(s, Release(n, Done)) == DoRelease(s, n, Done)
    ensures Apply(s, UnlinkReplaced(n, true)) == DoUnlinkReplaced(s, n, true)
  {
  }

  lemma RemovalStepIs(s: State, n: Id, files: set<Path>)
    ensures Apply(s, RemovePartFiles(n, files, true)) == DoRemovePartFiles(s, n, files, true)
  {
  }

  /** A request that is over is not brought back by these steps. */
  lemma SettledForGood(s: State, n: Id, files: set<Path>)
    requires n !in s.actors
    ensures DoRemovePartFiles(DoUnlinkReplaced(s, n, true), n, files, true) == s
  {
  }

  lemma FailureIsSettled(s: State, u: Id, path: Path, f: File, temps: set<Id>, files: set<Path>)
    requires IsActive(s.db, u) && s.next !in s.actors && temps <= s.temps && path !in s.disk
    ensures Leaves(s, RunFrom(Under(PutFile(Claimed(s, u, Completing), path, f), CompleteFailed(u, path), temps),
                              SettleSteps(s.next, files)), s)
  {
    var c, n := Claimed(s, u, Completing), s.next;
    var t := Under(PutFile(c, path, f), CompleteFailed(u, path), temps);
    SettleRun(t, n, files);
    assert s.disk[path := f] - {path} == s.disk;
    assert c.actors[n := CompleteFailed(u, path)][n := Releasing(u)] == c.actors[n := Releasing(u)];
    assert DoDiscardAssembled(t, n, true) == Under(c, Releasing(u), temps);
    ClaimGivenBack(s, u, Completing, temps);
    SettledForGood(DoRelease(Under(c, Releasing(u), temps), n, Done), n, files);
  }

  lemma ReleaseIsSettled(s: State, u: Id, temps: set<Id>, files: set<Path>)
    requires IsActive(s.db, u) && s.next !in s.actors && temps <= s.temps
    ensures Leaves(s, RunFrom(Under(Claimed(s, u, Completing), Releasing(u), temps), SettleSteps(s.next, files)), s)
  {
    var t := Under(Claimed(s, u, Completing), Releasing(u), temps);
    SettleRun(t, s.next, files);
    assert DoDiscardAssembled(t, s.next, true) == t;
    ClaimGivenBack(s, u, Completing, temps);
    SettledForGood(DoRelease(t, s.next, Done), s.next, files);
  }

  lemma SuccessIsSettled(s: State, x: State, u: Id, was: Option<Path>, temps: set<Id>, files: set<Path>)
    requires x.next == s.next && s.next !in x.actors && temps <= s.temps
    ensures Leaves(s, RunFrom(Under(x, CompleteSettled(u, was), temps), SettleSteps(s.next, files)),
                   DropFiles(DropFiles(x, if was.Some? then {was.value} else {}), PartFilesOf(u, files)))
  {
    var t, n := Under(x, CompleteSettled(u, was), temps), s.next;
    SettleRun(t, n, files);
    assert DoRelease(DoDiscardAssembled(t, n, true), n, Done) == t;
    PartsRemoved(s, x, u, was, temps, files);
  }

  lemma PartsRemoved(s: State, x: State, u: Id, was: Option<Path>, temps: set<Id>, files: set<Path>)
    requires x.next == s.next && s.next !in x.actors && temps <= s.temps
    ensures Leaves(s, DoRemovePartFiles(DoUnlinkReplaced(Under(x, CompleteSettled(u, was), temps), s.next, true), s.next,
                                        files, true),
                   DropFiles(DropFiles(x, if was.Some? then {was.value} else {}), PartFilesOf(u, files)))
  {
    var y, n := DropFiles(x, if was.Some? then {was.value} else {}), s.next;
    assert DropFiles(x, {}) == x;
    assert x.actors[n := CompleteSettled(u, was)][n := RemovingParts(u, None)] == x.actors[n := RemovingParts(u, None)];
    assert DoUnlinkReplaced(Under(x, CompleteSettled(u, was), temps), n, true) == Under(y, RemovingParts(u, None), temps);
    EndLeaves(s, DropFiles(y, PartFilesOf(u, files)), RemovingParts(u, None), temps);
  }

  // ---- The whole completion ----

  /** From the matching of the parts on. */
  function AssemblySteps(n: Id, minPartSize: int, selectFails: bool, k: nat, etag: string, commitFails: bool,
                         files: set<Path>): seq<Step>
  {
    [SelectParts(n, minPartSize, selectFails)] + (CopySteps(n, k) + CommitSteps(n, etag, commitFails, files))
  }

  function CommitSteps(n: Id, etag: string, fails: bool, files: set<Path>): seq<Step>
  {
    [FinishAssembly(n, WriteOk), CommitComplete(n, etag, fails)] + SettleSteps(n, files)
  }

  function CompleteSteps(n: Id, u: Id, parts: seq<CompletePart>, cond: Conditions, minPartSize: int, selectFails: bool,
                         etag: string, commitFails: bool, files: set<Path>): seq<Step>
  {
    [BeginComplete(u, parts, cond)]
    + AssemblySteps(n, minPartSize, selectFails, if Normalize(parts).Ok? then |Normalize(parts).value| else 0, etag,
                    commitFails, files)
  }

  /**
   The key has a row with this tag whose file has the bytes of the requested parts in order. The upload, its part rows
   and part files, and the file the key had before are gone.
   */
  function WithCompleted(s: State, u: Id, requested: seq<CompletePart>, cond: Conditions, etag: string): State
    requires u in s.db.uploads
  {
    var slot, bytes := s.db.uploads[u].slot, StoredBytes(s, u, requested);
    var path, was := ObjectPath(slot.bucket, s.next), Lookup(s.db.objects, slot);
    s.(db := Db(s.db.buckets, s.db.objects[slot := ObjectRow(path, etag)], s.db.uploads - {u},
                s.db.parts - (set x | x in s.db.parts && x.upload == u)),
       disk := (s.disk - PathsIn(was) - (set p | p in s.disk && p.PartPath? && p.upload == u))[path := File(bytes, true)],
       log := s.log + [Stored(slot, path, etag, bytes, cond, AssembledFrom(u, requested), was)])
  }

  lemma CommitRun(s: State, n: Id, etag: string, fails: bool, files: set<Path>)
    ensures RunFrom(s, CommitSteps(n, etag, fails, files))
         == RunFrom(DoCommitComplete(DoFinishAssembly(s, n, WriteOk), n, etag, fails), SettleSteps(n, files))
  {
    var t := DoFinishAssembly(s, n, WriteOk);
    assert Apply(s, FinishAssembly(n, WriteOk)) == t;
    CommitStepIs(t, n, etag, fails);
    TwoSteps(s, CommitSteps(n, etag, fails, files));
    assert CommitSteps(n, etag, fails, files)[2..] == SettleSteps(n, files);
  }

  lemma CommitStepIs(t: State, n: Id, etag: string, fails: bool)
    ensures Apply(t, CommitComplete(n, etag, fails)) == DoCommitComplete(t, n, etag, fails)
  {
  }

  lemma AssemblyRun(s: State, minPartSize: int, selectFails: bool, k: nat, rest: seq<Step>, a: Id)
    ensures RunFrom(s, [SelectParts(a, minPartSize, selectFails)] + (CopySteps(a, k) + rest))
         == RunFrom(RunFrom(DoSelectParts(s, a, minPartSize, selectFails), CopySteps(a, k)), rest)
  {
    ThreeParts(s, SelectParts(a, minPartSize, selectFails), CopySteps(a, k), rest);
    assert Apply(s, SelectParts(a, minPartSize, selectFails)) == DoSelectParts(s, a, minPartSize, selectFails);
  }

  lemma {:induction false} NothingToCopy(s: State, a: Id, k: nat)
    requires a in s.actors && !s.actors[a].Assembling?
    ensures RunFrom(s, CopySteps(a, k)) == s
  {
    if k == 0 {
    } else {
      assert CopySteps(a, k)[..k - 1] == CopySteps(a, k - 1);
      NothingToCopy(s, a, k - 1);
    }
  }

  lemma NothingToCommit(s: State, a: Id, u: Id, etag: string, fails: bool)
    requires a in s.actors && s.actors[a] == Releasing(u)
    ensures DoCommitComplete(DoFinishAssembly(s, a, WriteOk), a, etag, fails) == s
  {
  }

  /** Parts that do not fit give the claim back. */
  lemma MisfitRun(s: State, u: Id, requested: seq<CompletePart>, cond: Conditions, minPartSize: int, selectFails: bool,
                  etag: string, commitFails: bool, files: set<Path>)
    requires IsActive(s.db, u) && s.next !in s.actors && (selectFails || !Fits(s.db, u, requested, minPartSize))
    ensures var t := Under(Claimed(s, u, Completing), CompleteClaimed(u, s.db.uploads[u].slot, requested, cond), s.temps);
            Leaves(s, RunFrom(t, AssemblySteps(s.next, minPartSize, selectFails, |requested|, etag, commitFails, files)), s)
  {
    var c, n, slot := Claimed(s, u, Completing), s.next, s.db.uploads[u].slot;
    var t, r := Under(c, CompleteClaimed(u, slot, requested, cond), s.temps), Under(c, Releasing(u), s.temps);
    ClaimKeepsParts(s, u);
    FitsMeansMatched(s.db, u, requested, minPartSize);
    SelectsNothing(c, u, slot, requested, cond, minPartSize, selectFails);
    AssemblyRun(t, minPartSize, selectFails, |requested|, CommitSteps(n, etag, commitFails, files), n);
    NothingToCopy(r, n, |requested|);
    NothingToCommit(r, n, u, etag, commitFails);
    CommitRun(r, n, etag, commitFails, files);
    ReleaseIsSettled(s, u, s.temps, files);
  }

  /** Parts that fit are joined, up to the commit. */
  lemma FitRun(s: State, u: Id, requested: seq<CompletePart>, cond: Conditions, minPartSize: int, etag: string,
               commitFails: bool, files: set<Path>) returns (parts: seq<PartRow>)
    requires Inv(s) && IsActive(s.db, u) && Fits(s.db, u, requested, minPartSize)
    ensures var c, slot, bytes := Claimed(s, u, Completing), s.db.uploads[u].slot, StoredBytes(s, u, requested);
            RunFrom(Under(c, CompleteClaimed(u, slot, requested, cond), s.temps),
                    AssemblySteps(s.next, minPartSize, false, |requested|, etag, commitFails, files))
            == RunFrom(DoCommitComplete(Under(PutFile(c, ObjectPath(slot.bucket, s.next), File(bytes, true)),
                                              Assembled(u, slot, requested, cond, parts, bytes), s.temps - {s.next}),
                                        s.next, etag, commitFails),
                       SettleSteps(s.next, files))
  {
    var c, n, slot := Claimed(s, u, Completing), s.next, s.db.uploads[u].slot;
    ClaimKeepsParts(s, u);
    MatchedAreParts(s.db, u, requested, minPartSize);
    parts := Matched(requested, PartsByNumber(s.db, u), minPartSize).value;
    PartsOnDisk(s, u, requested, parts);
    PartBytes(s, u, requested, parts);
    Selects(c, u, slot, requested, cond, minPartSize, parts);
    AssemblyRun(Under(c, CompleteClaimed(u, slot, requested, cond), s.temps), minPartSize, false, |requested|,
                CommitSteps(n, etag, commitFails, files), n);
    Assembles(c, u, slot, requested, cond, parts);
    var bytes := FileBytes(s.disk, parts);
    CommitRun(Under(c, Assembling(u, slot, requested, cond, parts, |parts|, bytes), s.temps + {n}), n, etag, commitFails,
              files);
    Finishes(c, u, slot, requested, cond, parts, bytes);
  }

  lemma PartsOnDisk(s: State, u: Id, requested: seq<CompletePart>, parts: seq<PartRow>)
    requires Inv(s) && AreParts(s.db, u, requested, parts)
    ensures forall i :: 0 <= i < |parts| ==> parts[i].path in s.disk
  {
    InvIs(s);
    PartFilesPresent(s);
  }

  lemma RefusedRun(s: State, u: Id, requested: seq<CompletePart>, cond: Conditions, minPartSize: int, etag: string,
                   commitFails: bool, files: set<Path>)
    requires Inv(s) && IsActive(s.db, u) && Fits(s.db, u, requested, minPartSize)
    requires commitFails || !Satisfied(Lookup(s.db.objects, s.db.uploads[u].slot), cond)
    ensures var t := Under(Claimed(s, u, Completing), CompleteClaimed(u, s.db.uploads[u].slot, requested, cond), s.temps);
            Leaves(s, RunFrom(t, AssemblySteps(s.next, minPartSize, false, |requested|, etag, commitFails, files)), s)
  {
    var c, slot, temps := Claimed(s, u, Completing), s.db.uploads[u].slot, s.temps - {s.next};
    var path, bytes := ObjectPath(slot.bucket, s.next), StoredBytes(s, u, requested);
    FreshRequest(s);
    var parts := FitRun(s, u, requested, cond, minPartSize, etag, commitFails, files);
    CompletionFails(c, u, slot, requested, cond, parts, bytes, etag, temps, commitFails);
    FailureIsSettled(s, u, path, File(bytes, true), temps, files);
  }

  lemma AcceptedRun(s: State, u: Id, requested: seq<CompletePart>, cond: Conditions, minPartSize: int, etag: string,
                    files: set<Path>)
    requires Inv(s) && IsActive(s.db, u) && Fits(s.db, u, requested, minPartSize) && PartFilesOf(u, s.disk.Keys) <= files
    requires Satisfied(Lookup(s.db.objects, s.db.uploads[u].slot), cond)
    ensures var t := Under(Claimed(s, u, Completing), CompleteClaimed(u, s.db.uploads[u].slot, requested, cond), s.temps);
            Leaves(s, RunFrom(t, AssemblySteps(s.next, minPartSize, false, |requested|, etag, false, files)),
                   WithCompleted(s, u, requested, cond, etag))
  {
    var c, slot, temps := Claimed(s, u, Completing), s.db.uploads[u].slot, s.temps - {s.next};
    var bytes, was := StoredBytes(s, u, requested), PathOf(Lookup(s.db.objects, slot));
    FreshRequest(s);
    InvIs(s);
    var parts := FitRun(s, u, requested, cond, minPartSize, etag, false, files);
    Completes(c, u, slot, requested, cond, parts, bytes, etag, temps);
    SuccessIsSettled(s, Assembly(c, u, slot, requested, cond, bytes, etag), u, was, temps, files);
    AssemblyReplaces(s, u, requested, cond, etag, files);
  }

  /** What is left once the replaced file and the part files are gone. */
  lemma AssemblyReplaces(s: State, u: Id, requested: seq<CompletePart>, cond: Conditions, etag: string, files: set<Path>)
    requires u in s.db.uploads && PartFilesOf(u, s.disk.Keys) <= files
    requires s.db.uploads[u].slot in s.db.objects ==> s.db.objects[s.db.uploads[u].slot].path.id != s.next
    ensures var slot, bytes := s.db.uploads[u].slot, StoredBytes(s, u, requested);
            var x, was := Assembly(Claimed(s, u, Completing), u, slot, requested, cond, bytes, etag),
                          PathOf(Lookup(s.db.objects, slot));
            DropFiles(DropFiles(x, if was.Some? then {was.value} else {}), PartFilesOf(u, files))
            == WithCompleted(s, u, requested, cond, etag)
  {
    var c, slot := Claimed(s, u, Completing), s.db.uploads[u].slot;
    var path, f := ObjectPath(slot.bucket, s.next), File(StoredBytes(s, u, requested), true);
    DiskReplaces(s.disk, path, f, PathsIn(Lookup(s.db.objects, slot)), u, files);
    assert PartsOf(c.db, u) == set x | x in s.db.parts && x.upload == u;
    assert c.db.uploads - {u} == s.db.uploads - {u};
  }

  lemma DiskReplaces(disk: map<Path, File>, path: Path, f: File, was: set<Path>, u: Id, files: set<Path>)
    requires path.ObjectPath? && path !in was && PartFilesOf(u, disk.Keys) <= files
    ensures disk[path := f] - was - PartFilesOf(u, files)
         == (disk - was - (set p | p in disk && p.PartPath? && p.upload == u))[path := f]
  {
    var parts := set p | p in disk && p.PartPath? && p.upload == u;
    assert parts == PartFilesOf(u, disk.Keys);
    forall p | p in disk && p in PartFilesOf(u, files) ensures p in parts {
    }
  }

  lemma ClaimStepIs(s: State, u: Id, parts: seq<CompletePart>, cond: Conditions)
    ensures Apply(s, BeginComplete(u, parts, cond)) == DoBeginComplete(s, u, parts, cond)
  {
  }

  lemma UnclaimedRun(s: State, u: Id, parts: seq<CompletePart>, cond: Conditions, minPartSize: int, selectFails: bool,
                     etag: string, commitFails: bool, files: set<Path>)
    requires Inv(s) && (!IsActive(s.db, u) || Normalize(parts).Err?)
    ensures RunFrom(s, CompleteSteps(s.next, u, parts, cond, minPartSize, selectFails, etag, commitFails, files)) == s
  {
    var k := if Normalize(parts).Ok? then |Normalize(parts).value| else 0;
    var rest := AssemblySteps(s.next, minPartSize, selectFails, k, etag, commitFails, files);
    FreshRequest(s);
    Guarantees.RunSplits(s, BeginComplete(u, parts, cond), rest);
    ClaimStepIs(s, u, parts, cond);
    assert DoBeginComplete(s, u, parts, cond) == s;
    AssemblyContinues(s.next, minPartSize, selectFails, k, etag, commitFails, files);
    OverStays(s, rest, s.next);
  }

  lemma AssemblyContinues(n: Id, minPartSize: int, selectFails: bool, k: nat, etag: string, commitFails: bool,
                          files: set<Path>)
    ensures var steps := AssemblySteps(n, minPartSize, selectFails, k, etag, commitFails, files);
            forall i :: 0 <= i < |steps| ==> Continues(steps[i], n)
  {
  }

  /**
   A completion takes effect if and only if the upload is active, the part list is in order, every named part is stored
   with its tag and large enough, the conditions hold and nothing fails. Then the key holds the bytes of the parts in
   order, whatever their number, and the upload is gone with its part files. Otherwise nothing has changed in the end:
   the upload is active again, with all of its parts, and can be completed later.
   */
  lemma CompletionTakesEffect(s: State, u: Id, parts: seq<CompletePart>, cond: Conditions, minPartSize: int,
                              selectFails: bool, etag: string, commitFails: bool, files: set<Path>)
    requires Inv(s) && s.serving && PartFilesOf(u, s.disk.Keys) <= files
    ensures var t := RunFrom(s, CompleteSteps(s.next, u, parts, cond, minPartSize, selectFails, etag, commitFails, files));
            var requested := Normalize(parts);
            if !IsActive(s.db, u) || requested.Err? then t == s
            else Leaves(s, t, if !selectFails && !commitFails && Fits(s.db, u, requested.value, minPartSize)
                                 && Satisfied(Lookup(s.db.objects, s.db.uploads[u].slot), cond)
                              then WithCompleted(s, u, requested.value, cond, etag) else s)
  {
    if !IsActive(s.db, u) || Normalize(parts).Err? {
      UnclaimedRun(s, u, parts, cond, minPartSize, selectFails, etag, commitFails, files);
    } else {
      var requested := Normalize(parts).value;
      FreshRequest(s);
      ClaimedRun(s, u, parts, cond, minPartSize, selectFails, etag, commitFails, files);
      if selectFails || !Fits(s.db, u, requested, minPartSize) {
        MisfitRun(s, u, requested, cond, minPartSize, selectFails, etag, commitFails, files);
      } else if commitFails || !Satisfied(Lookup(s.db.objects, s.db.uploads[u].slot), cond) {
        RefusedRun(s, u, requested, cond, minPartSize, etag, commitFails, files);
      } else {
        AcceptedRun(s, u, requested, cond, minPartSize, etag, files);
      }
    }
  }

  lemma ClaimedRun(s: State, u: Id, parts: seq<CompletePart>, cond: Conditions, minPartSize: int, selectFails: bool,
                   etag: string, commitFails: bool, files: set<Path>)
    requires s.serving && IsActive(s.db, u) && Normalize(parts).Ok?
    ensures var requested := Normalize(parts).value;
            RunFrom(s, CompleteSteps(s.next, u, parts, cond, minPartSize, selectFails, etag, commitFails, files))
            == RunFrom(Under(Claimed(s, u, Completing), CompleteClaimed(u, s.db.uploads[u].slot, requested, cond), s.temps),
                       AssemblySteps(s.next, minPartSize, selectFails, |requested|, etag, commitFails, files))
  {
    Guarantees.RunSplits(s, BeginComplete(u, parts, cond),
                         AssemblySteps(s.next, minPartSize, selectFails, |Normalize(parts).value|, etag, commitFails, files));
    Claims(s, u, parts, cond);
    ClaimStepIs(s, u, parts, cond);
  }
}
