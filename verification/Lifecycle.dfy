/**
 Requests, the stale-upload cleaner, crashes and startup reconciliation as one transition system.

 A state holds the database rows, the files on disk and the program counter of every request in
 flight. A step lets one request do one thing: commit one transaction, or create, read or remove
 one file. Any request may step at any time, and any step may fail. The in-process upload lock is
 not consulted, so every interleaving of the real server, and more, is a run of this system.

 A request draws one UUID, which is its own number: numbers are never reused, not even by
 the requests that come after a crash.
 */
module Lifecycle {
  import opened Wrappers
  import opened Metadata
  import opened History
  import opened CompletedParts

  /** Only a complete file ends with the bytes its writer meant. */
  datatype File = File(bytes: Bytes, complete: bool)

  datatype BucketWork = BucketWork(bucket: Bucket, pending: seq<Id>)

  /** Where a request is. The name says what it has done or does next. */
  datatype Actor =
    // PutObject, CopyObject
    | Writing(slot: Slot, bytes: Bytes, etag: string, cond: Conditions, origin: Origin)
    | Written(slot: Slot, bytes: Bytes, etag: string, cond: Conditions, origin: Origin)
    | Discarding(path: Path)
    | Unlinking(paths: seq<Path>)
    // DeleteObject, EmptyBucket
    | DeleteLoaded(slot: Slot, path: Path)
    | EmptyListing(bucket: Bucket, paths: seq<Path>)
    // UploadPart, UploadPartCopy
    | PartWriting(part: PartSlot, bytes: Bytes, etag: string)
    | PartWritten(part: PartSlot, bytes: Bytes, etag: string)
    // CompleteMultipartUpload
    | CompleteClaimed(upload: Id, slot: Slot, requested: seq<CompletePart>, cond: Conditions)
    | Assembling(upload: Id, slot: Slot, requested: seq<CompletePart>, cond: Conditions,
                 parts: seq<PartRow>, done: nat, bytes: Bytes)
    | Assembled(upload: Id, slot: Slot, requested: seq<CompletePart>, cond: Conditions,
                parts: seq<PartRow>, bytes: Bytes)
    | CompleteFailed(upload: Id, path: Path)
    | CompleteSettled(upload: Id, replaced: Option<Path>)
    // AbortMultipartUpload, the cleaner, and any claim given back
    | AbortClaimed(upload: Id)
    | Releasing(upload: Id)
    | StaleSeen(upload: Id, status: Status)
    | RemovingParts(upload: Id, after: Option<BucketWork>)
    // DeleteBucket
    | DeletingBucket(work: BucketWork)

  datatype State = State(
    serving: bool,
    next: Id,
    db: Db,
    disk: map<Path, File>,
    temps: set<Id>,
    actors: map<Id, Actor>,
    log: Log)

  const INITIAL := State(true, 0, EMPTY_DB, map[], {}, map[], [])

  /**
   How the writing of a file ends: under its final name, failed with the temporary file removed or not, or failed
   after the rename with the final file left behind.
   */
  datatype WriteOutcome = WriteOk | WriteFailed(cleaned: bool) | WriteOrphaned

  /** An autocommitted statement that reports an error may have been persisted all the same. */
  datatype Outcome = Done | Failed | Lost

  datatype Step =
    | CreateBucket(bucket: Bucket)
    | CreateUpload(slot: Slot)
    | BeginPut(slot: Slot, bytes: Bytes, etag: string, cond: Conditions)
    | BeginCopy(source: Path, slot: Slot, cond: Conditions)
    | FinishWrite(actor: Id, write: WriteOutcome)
    | RejectDigest(actor: Id)
    | CommitWrite(actor: Id, fails: bool)
    | Discard(actor: Id, removed: bool)
    | Unlink(actor: Id, removed: bool, stops: bool)
    | BeginDelete(slot: Slot, path: Path)
    | DeleteRow(actor: Id, outcome: Outcome)
    | BeginEmpty(bucket: Bucket)
    | ListPage(actor: Id, slots: seq<Slot>)
    | DeleteAllRows(actor: Id, outcome: Outcome)
    | BeginPart(part: PartSlot, bytes: Bytes, etag: string, partial: Bytes)
    | FinishPart(actor: Id, write: WriteOutcome)
    | CommitPart(actor: Id, fails: bool)
    | BeginComplete(upload: Id, parts: seq<CompletePart>, cond: Conditions)
    | SelectParts(actor: Id, minPartSize: int, fails: bool)
    | CopyPart(actor: Id, fails: bool, cleaned: bool)
    | FinishAssembly(actor: Id, write: WriteOutcome)
    | CommitComplete(actor: Id, etag: string, fails: bool)
    | DiscardAssembled(actor: Id, removed: bool)
    | UnlinkReplaced(actor: Id, removed: bool)
    | Release(actor: Id, outcome: Outcome)
    | BeginAbort(upload: Id)
    | BeginStale(upload: Id)
    | ClaimStale(actor: Id, fails: bool)
    | DeleteStale(actor: Id, outcome: Outcome)
    | DeleteClaimed(actor: Id, outcome: Outcome)
    | RemovePartFiles(actor: Id, files: set<Path>, stops: bool)
    | BeginBucketDelete(bucket: Bucket)
    | ListUploads(actor: Id, uploads: seq<Id>)
    | DropUploadOf(actor: Id, outcome: Outcome)
    | DropBucket(actor: Id)
    | ForceDelete(bucket: Bucket, paths: seq<Path>)
    | Crash
    | PurgeTemp(id: Id)
    | RemoveOrphan(path: Path)
    | RemoveOrphanParts(path: Path)
    | FinishRecovery

  // ---- Small changes of state ----

  function Spawn(s: State, pc: Actor): State
  {
    s.(next := s.next + 1, actors := s.actors[s.next := pc])
  }

  function Become(s: State, a: Id, pc: Actor): State
  {
    s.(actors := s.actors[a := pc])
  }

  function End(s: State, a: Id): State
  {
    s.(actors := s.actors - {a})
  }

  function PutFile(s: State, p: Path, f: File): State
  {
    s.(disk := s.disk[p := f])
  }

  function DropFiles(s: State, ps: set<Path>): State
  {
    s.(disk := s.disk - ps)
  }

  function DropTemp(s: State, a: Id): State
  {
    s.(temps := s.temps - {a})
  }

  /** The removal of the temporary file of a failed write may fail, too. */
  function Abandon(s: State, a: Id, cleaned: bool): State
  {
    if cleaned then DropTemp(s, a) else s
  }

  function Commit(s: State, db: Db, e: Event): State
  {
    s.(db := db, log := s.log + [e])
  }

  function WithDb(s: State, db: Db): State
  {
    s.(db := db)
  }

  // ---- Creation of buckets and uploads ----

  function DoCreateBucket(s: State, bucket: Bucket): State
  {
    var r := Metadata.CreateBucket(s.db, bucket);
    if s.serving && r.Ok? then WithDb(s, r.value.0) else s
  }

  function DoCreateUpload(s: State, slot: Slot): State
  {
    var r := Metadata.CreateUpload(s.db, s.next, slot);
    if s.serving && r.Ok? then WithDb(s, r.value.0).(next := s.next + 1) else s
  }

  // ---- PutObject and CopyObject ----

  function DoBeginPut(s: State, slot: Slot, bytes: Bytes, etag: string, cond: Conditions): State
  {
    if s.serving then Spawn(s.(temps := s.temps + {s.next}), Writing(slot, bytes, etag, cond, Uploaded)) else s
  }

  /**
   The source row may come from the cache, so any version the source key ever had can be read, as
   long as its file can still be opened. The open file keeps its bytes.
   */
  function DoBeginCopy(s: State, source: Path, slot: Slot, cond: Conditions): State
  {
    if s.serving && source in Versions(s.log) && Versions(s.log)[source].ObjectVersion? && source in s.disk then
      Spawn(s.(temps := s.temps + {s.next}),
            Writing(slot, s.disk[source].bytes, Versions(s.log)[source].etag, cond, CopiedFrom(source)))
    else s
  }

  function DoFinishWrite(s: State, a: Id, write: WriteOutcome): State
  {
    if a in s.actors && s.actors[a].Writing? then
      var pc := s.actors[a];
      var named := PutFile(DropTemp(s, a), ObjectPath(pc.slot.bucket, a), File(pc.bytes, true));
      match write
      case WriteOk => Become(named, a, Written(pc.slot, pc.bytes, pc.etag, pc.cond, pc.origin))
      case WriteFailed(cleaned) => End(Abandon(s, a, cleaned), a)
      case WriteOrphaned => End(named, a)
    else s
  }

  function DoRejectDigest(s: State, a: Id): State
  {
    if a in s.actors && s.actors[a].Written? then
      Become(s, a, Discarding(ObjectPath(s.actors[a].slot.bucket, a)))
    else if a in s.actors && s.actors[a].PartWritten? then
      Become(s, a, Discarding(PartPath(s.actors[a].part.upload, s.actors[a].part.number, a)))
    else s
  }

  function PathOf(row: Option<ObjectRow>): Option<Path>
  {
    if row.Some? then Some(row.value.path) else None
  }

  function DoCommitWrite(s: State, a: Id, fails: bool): State
  {
    if a in s.actors && s.actors[a].Written? then
      var pc := s.actors[a];
      var path := ObjectPath(pc.slot.bucket, a);
      var r := Replace(s.db, pc.slot, ObjectRow(path, pc.etag), pc.cond);
      if fails || r.Err? then Become(s, a, Discarding(path))
      else
        var (db, existing) := r.value;
        var e := Stored(pc.slot, path, pc.etag, pc.bytes, pc.cond, pc.origin, existing);
        Become(Commit(s, db, e), a, Unlinking(if existing.Some? then [existing.value.path] else []))
    else s
  }

  function DoDiscard(s: State, a: Id, removed: bool): State
  {
    if a in s.actors && s.actors[a].Discarding? then
      End(if removed then DropFiles(s, {s.actors[a].path}) else s, a)
    else s
  }

  function DoUnlink(s: State, a: Id, removed: bool, stops: bool): State
  {
    if a in s.actors && s.actors[a].Unlinking? then
      var paths := s.actors[a].paths;
      if paths == [] then End(s, a)
      else
        var t := if removed then DropFiles(s, {paths[0]}) else s;
        if stops then End(t, a) else Become(t, a, Unlinking(paths[1..]))
    else s
  }

  // ---- DeleteObject and EmptyBucket ----

  /** The loaded row may be a cached one: any version the key ever had. */
  function DoBeginDelete(s: State, slot: Slot, path: Path): State
  {
    if s.serving && path in Versions(s.log) && Versions(s.log)[path].ObjectVersion? && Versions(s.log)[path].slot == slot then
      Spawn(s, DeleteLoaded(slot, path))
    else s
  }

  function DoDeleteRow(s: State, a: Id, outcome: Outcome): State
  {
    if a in s.actors && s.actors[a].DeleteLoaded? then
      var pc := s.actors[a];
      var r := DeleteObject(s.db, pc.slot);
      if r.Err? || outcome.Failed? then End(s, a)
      else
        var t := Commit(s, r.value.0, Removed({pc.slot}));
        if outcome.Done? then Become(t, a, Unlinking([pc.path])) else End(t, a)
    else s
  }

  function DoBeginEmpty(s: State, bucket: Bucket): State
  {
    if s.serving then Spawn(s, EmptyListing(bucket, [])) else s
  }

  predicate RowsIn(db: Db, bucket: Bucket, slots: seq<Slot>)
  {
    forall i :: 0 <= i < |slots| ==> slots[i] in db.objects && slots[i].bucket == bucket
  }

  function PathsOf(db: Db, slots: seq<Slot>): seq<Path>
    requires forall i :: 0 <= i < |slots| ==> slots[i] in db.objects
  {
    seq(|slots|, i requires 0 <= i < |slots| => db.objects[slots[i]].path)
  }

  function DoListPage(s: State, a: Id, slots: seq<Slot>): State
  {
    if a in s.actors && s.actors[a].EmptyListing? && RowsIn(s.db, s.actors[a].bucket, slots) then
      var pc := s.actors[a];
      Become(s, a, EmptyListing(pc.bucket, pc.paths + PathsOf(s.db, slots)))
    else s
  }

  function DoDeleteAllRows(s: State, a: Id, outcome: Outcome): State
  {
    if a in s.actors && s.actors[a].EmptyListing? then
      var pc := s.actors[a];
      if outcome.Failed? then End(s, a)
      else
        var t := Commit(s, DeleteAllInBucket(s.db, pc.bucket), Removed(SlotsIn(s.db, pc.bucket)));
        if outcome.Done? then Become(t, a, Unlinking(pc.paths)) else End(t, a)
    else s
  }

  // ---- UploadPart ----

  /** The part file is filled under its final name, so it is visible while partial. */
  function DoBeginPart(s: State, part: PartSlot, bytes: Bytes, etag: string, partial: Bytes): State
  {
    if s.serving && part.upload < s.next then
      PutFile(Spawn(s, PartWriting(part, bytes, etag)), PartPath(part.upload, part.number, s.next), File(partial, false))
    else s
  }

  function DoFinishPart(s: State, a: Id, write: WriteOutcome): State
  {
    if a in s.actors && s.actors[a].PartWriting? then
      var pc := s.actors[a];
      var path := PartPath(pc.part.upload, pc.part.number, a);
      if path !in s.disk then End(s, a)
      else
        match write
        case WriteOk => Become(PutFile(s, path, File(pc.bytes, true)), a, PartWritten(pc.part, pc.bytes, pc.etag))
        case WriteFailed(cleaned) => End(if cleaned then DropFiles(s, {path}) else s, a)
        case WriteOrphaned => End(s, a)
    else s
  }

  function DoCommitPart(s: State, a: Id, fails: bool): State
  {
    if a in s.actors && s.actors[a].PartWritten? then
      var pc := s.actors[a];
      var path := PartPath(pc.part.upload, pc.part.number, a);
      var r := AddPart(s.db, pc.part, StoredPart(path, |pc.bytes|, pc.etag));
      if fails || r.Err? then Become(s, a, Discarding(path))
      else
        var (db, existing) := r.value;
        Become(Commit(s, db, PartStored(pc.part, path, pc.etag, pc.bytes)), a,
               Unlinking(if existing.Some? then [existing.value.path] else []))
    else s
  }

  // ---- CompleteMultipartUpload ----

  /** Load, normalize the request and claim. An upload never changes its slot, so one read of it is enough. */
  function DoBeginComplete(s: State, upload: Id, parts: seq<CompletePart>, cond: Conditions): State
  {
    var r := ClaimUpload(s.db, upload, Completing);
    if s.serving && Normalize(parts).Ok? && r.Ok? then
      Spawn(WithDb(s, r.value.0), CompleteClaimed(upload, s.db.uploads[upload].slot, Normalize(parts).value, cond))
    else s
  }

  function DoSelectParts(s: State, a: Id, minPartSize: int, fails: bool): State
  {
    if a in s.actors && s.actors[a].CompleteClaimed? then
      var pc := s.actors[a];
      var r := Matched(pc.requested, PartsByNumber(s.db, pc.upload), minPartSize);
      if fails || r.Err? then Become(s, a, Releasing(pc.upload))
      else
        Become(s.(temps := s.temps + {a}), a,
               Assembling(pc.upload, pc.slot, pc.requested, pc.cond, r.value, 0, []))
    else s
  }

  function DoCopyPart(s: State, a: Id, fails: bool, cleaned: bool): State
  {
    if a in s.actors && s.actors[a].Assembling? && s.actors[a].done < |s.actors[a].parts| then
      var pc := s.actors[a];
      var path := pc.parts[pc.done].path;
      if fails || path !in s.disk then Become(Abandon(s, a, cleaned), a, Releasing(pc.upload))
      else Become(s, a, pc.(done := pc.done + 1, bytes := pc.bytes + s.disk[path].bytes))
    else s
  }

  function DoFinishAssembly(s: State, a: Id, write: WriteOutcome): State
  {
    if a in s.actors && s.actors[a].Assembling? && s.actors[a].done >= |s.actors[a].parts| then
      var pc := s.actors[a];
      var named := PutFile(DropTemp(s, a), ObjectPath(pc.slot.bucket, a), File(pc.bytes, true));
      match write
      case WriteOk => Become(named, a, Assembled(pc.upload, pc.slot, pc.requested, pc.cond, pc.parts, pc.bytes))
      case WriteFailed(cleaned) => Become(Abandon(s, a, cleaned), a, Releasing(pc.upload))
      case WriteOrphaned => Become(named, a, Releasing(pc.upload))
    else s
  }

  /** A missing upload settles the claim; every other failure gives it back. */
  function DoCommitComplete(s: State, a: Id, etag: string, fails: bool): State
  {
    if a in s.actors && s.actors[a].Assembled? then
      var pc := s.actors[a];
      var path := ObjectPath(pc.slot.bucket, a);
      var r := CompleteUpload(s.db, pc.upload, pc.slot, ObjectRow(path, etag), pc.cond);
      if fails then Become(s, a, CompleteFailed(pc.upload, path))
      else if r.Err? then
        Become(s, a, if r.error.UploadNotFound? then Discarding(path) else CompleteFailed(pc.upload, path))
      else
        var (db, existing) := r.value;
        var origin := AssembledFrom(pc.upload, pc.requested);
        var e := Stored(pc.slot, path, etag, pc.bytes, pc.cond, origin, existing);
        Become(Commit(s, db, e), a, CompleteSettled(pc.upload, PathOf(existing)))
    else s
  }

  function DoDiscardAssembled(s: State, a: Id, removed: bool): State
  {
    if a in s.actors && s.actors[a].CompleteFailed? then
      Become(if removed then DropFiles(s, {s.actors[a].path}) else s, a, Releasing(s.actors[a].upload))
    else s
  }

  function DoUnlinkReplaced(s: State, a: Id, removed: bool): State
  {
    if a in s.actors && s.actors[a].CompleteSettled? then
      var pc := s.actors[a];
      Become(if removed && pc.replaced.Some? then DropFiles(s, {pc.replaced.value}) else s, a,
             RemovingParts(pc.upload, None))
    else s
  }

  function DoRelease(s: State, a: Id, outcome: Outcome): State
  {
    if a in s.actors && s.actors[a].Releasing? then
      var r := SetUploadStatus(s.db, s.actors[a].upload, Active);
      End(if r.Ok? && !outcome.Failed? then WithDb(s, r.value.0) else s, a)
    else s
  }

  // ---- AbortMultipartUpload and the cleaner ----

  function DoBeginAbort(s: State, upload: Id): State
  {
    var r := ClaimUpload(s.db, upload, Aborted);
    if s.serving && r.Ok? then Spawn(WithDb(s, r.value.0), AbortClaimed(upload)) else s
  }

  function DoBeginStale(s: State, upload: Id): State
  {
    if s.serving && upload in s.db.uploads then Spawn(s, StaleSeen(upload, s.db.uploads[upload].status)) else s
  }

  function DoClaimStale(s: State, a: Id, fails: bool): State
  {
    if a in s.actors && s.actors[a].StaleSeen? && s.actors[a].status == Active then
      var r := ClaimUpload(s.db, s.actors[a].upload, Aborted);
      if fails || r.Err? then End(s, a)
      else Become(WithDb(s, r.value.0), a, AbortClaimed(s.actors[a].upload))
    else s
  }

  /** An upload that was already claimed when the cleaner listed it is deleted without a claim. */
  function DoDeleteStale(s: State, a: Id, outcome: Outcome): State
  {
    if a in s.actors && s.actors[a].StaleSeen? && s.actors[a].status != Active then
      var r := DeleteUpload(s.db, s.actors[a].upload);
      if r.Err? || outcome.Failed? then End(s, a)
      else
        var t := WithDb(s, r.value.0);
        if outcome.Done? then Become(t, a, RemovingParts(s.actors[a].upload, None)) else End(t, a)
    else s
  }

  function DoDeleteClaimed(s: State, a: Id, outcome: Outcome): State
  {
    if a in s.actors && s.actors[a].AbortClaimed? then
      var upload := s.actors[a].upload;
      var r := DeleteUpload(s.db, upload);
      if r.Err? || outcome.Failed? then Become(s, a, Releasing(upload))
      else
        var t := WithDb(s, r.value.0);
        Become(t, a, if outcome.Done? then RemovingParts(upload, None) else Releasing(upload))
    else s
  }

  function PartFilesOf(upload: Id, paths: set<Path>): set<Path>
  {
    set p | p in paths && p.PartPath? && p.upload == upload
  }

  /** Removing a directory is not atomic: any of its files go at each step. */
  function DoRemovePartFiles(s: State, a: Id, paths: set<Path>, stops: bool): State
  {
    if a in s.actors && s.actors[a].RemovingParts? then
      var pc := s.actors[a];
      var t := DropFiles(s, PartFilesOf(pc.upload, paths));
      if !stops then t
      else if pc.after.Some? then Become(t, a, DeletingBucket(pc.after.value))
      else End(t, a)
    else s
  }

  // ---- DeleteBucket, with and without force ----

  /** A bucket that holds objects is refused before any of its uploads is touched. */
  function DoBeginBucketDelete(s: State, bucket: Bucket): State
  {
    if s.serving && SlotsIn(s.db, bucket) == {} then Spawn(s, DeletingBucket(BucketWork(bucket, []))) else s
  }

  predicate ActiveUploadsIn(db: Db, bucket: Bucket, uploads: seq<Id>)
  {
    forall i :: 0 <= i < |uploads| ==> uploads[i] in db.uploads && db.uploads[uploads[i]].slot.bucket == bucket
                                       && db.uploads[uploads[i]].status == Active
  }

  function DoListUploads(s: State, a: Id, uploads: seq<Id>): State
  {
    if a in s.actors && s.actors[a].DeletingBucket? && s.actors[a].work.pending == []
       && ActiveUploadsIn(s.db, s.actors[a].work.bucket, uploads) then
      Become(s, a, DeletingBucket(BucketWork(s.actors[a].work.bucket, uploads)))
    else s
  }

  function DoDropUploadOf(s: State, a: Id, outcome: Outcome): State
  {
    if a in s.actors && s.actors[a].DeletingBucket? && s.actors[a].work.pending != [] then
      var work := s.actors[a].work;
      var upload := work.pending[0];
      var r := DeleteUpload(s.db, upload);
      if r.Err? || outcome.Failed? then End(s, a)
      else
        var t := WithDb(s, r.value.0);
        if outcome.Done? then Become(t, a, RemovingParts(upload, Some(BucketWork(work.bucket, work.pending[1..]))))
        else End(t, a)
    else s
  }

  function DoDropBucket(s: State, a: Id): State
  {
    if a in s.actors && s.actors[a].DeletingBucket? && s.actors[a].work.pending == [] then
      var r := DeleteBucket(s.db, s.actors[a].work.bucket);
      End(if r.Ok? then WithDb(s, r.value.0) else s, a)
    else s
  }

  predicate NamesPath(rows: map<Slot, ObjectRow>, p: Path)
  {
    exists k :: k in rows && rows[k].path == p
  }

  predicate ExactlyPaths(paths: seq<Path>, rows: map<Slot, ObjectRow>)
  {
    && (forall i :: 0 <= i < |paths| ==> NamesPath(rows, paths[i]))
    && (forall k :: k in rows ==> rows[k].path in paths)
  }

  function DoForceDelete(s: State, bucket: Bucket, paths: seq<Path>): State
  {
    var r := DeleteWithObjects(s.db, bucket);
    if s.serving && r.Ok? && ExactlyPaths(paths, r.value.1) then
      Spawn(Commit(s, r.value.0, Removed(r.value.1.Keys)), Unlinking(paths))
    else s
  }

  // ---- Crash and startup reconciliation ----

  /** Requests are lost. Rows, files and temporary files stay as they are. */
  function DoCrash(s: State): State
  {
    s.(serving := false, actors := map[])
  }

  function DoPurgeTemp(s: State, id: Id): State
  {
    if s.serving then s else DropTemp(s, id)
  }

  predicate Orphan(db: Db, p: Path)
  {
    p.ObjectPath? && forall k :: k in db.objects && k.bucket == p.bucket ==> db.objects[k].path != p
  }

  predicate OrphanPart(db: Db, p: Path)
  {
    p.PartPath? && p.upload !in db.uploads
  }

  predicate Leftover(db: Db, p: Path)
  {
    Orphan(db, p) || OrphanPart(db, p)
  }

  function DoRemoveOrphan(s: State, p: Path): State
  {
    if !s.serving && Orphan(s.db, p) then DropFiles(s, {p}) else s
  }

  function DoRemoveOrphanParts(s: State, p: Path): State
  {
    if !s.serving && OrphanPart(s.db, p) then DropFiles(s, {p}) else s
  }

  /** Every directory has been walked. */
  predicate Reconciled(s: State)
  {
    && s.temps == {}
    && (forall p :: p in s.disk ==> !Leftover(s.db, p))
  }

  function DoFinishRecovery(s: State): State
  {
    if !s.serving && Reconciled(s) then s.(serving := true) else s
  }

  // ---- Runs ----

  /** PutObject and CopyObject. */
  predicate WriteStep(step: Step)
  {
    || step.BeginPut? || step.BeginCopy? || step.FinishWrite? || step.RejectDigest? || step.CommitWrite? || step.Discard?
    || step.Unlink?
  }

  function ApplyWrite(s: State, step: Step): State
    requires WriteStep(step)
  {
    match step
    case BeginPut(slot, bytes, etag, cond) => DoBeginPut(s, slot, bytes, etag, cond)
    case BeginCopy(source, slot, cond) => DoBeginCopy(s, source, slot, cond)
    case FinishWrite(a, write) => DoFinishWrite(s, a, write)
    case RejectDigest(a) => DoRejectDigest(s, a)
    case CommitWrite(a, fails) => DoCommitWrite(s, a, fails)
    case Discard(a, removed) => DoDiscard(s, a, removed)
    case Unlink(a, removed, stops) => DoUnlink(s, a, removed, stops)
  }

  /** DeleteObject and EmptyBucket. */
  predicate DeleteStep(step: Step)
  {
    step.BeginDelete? || step.DeleteRow? || step.BeginEmpty? || step.ListPage? || step.DeleteAllRows?
  }

  function ApplyDelete(s: State, step: Step): State
    requires DeleteStep(step)
  {
    match step
    case BeginDelete(slot, path) => DoBeginDelete(s, slot, path)
    case DeleteRow(a, outcome) => DoDeleteRow(s, a, outcome)
    case BeginEmpty(bucket) => DoBeginEmpty(s, bucket)
    case ListPage(a, slots) => DoListPage(s, a, slots)
    case DeleteAllRows(a, outcome) => DoDeleteAllRows(s, a, outcome)
  }

  /** UploadPart and UploadPartCopy. */
  predicate PartStep(step: Step)
  {
    step.BeginPart? || step.FinishPart? || step.CommitPart?
  }

  function ApplyPart(s: State, step: Step): State
    requires PartStep(step)
  {
    match step
    case BeginPart(part, bytes, etag, partial) => DoBeginPart(s, part, bytes, etag, partial)
    case FinishPart(a, write) => DoFinishPart(s, a, write)
    case CommitPart(a, fails) => DoCommitPart(s, a, fails)
  }

  /** CompleteMultipartUpload up to the assembled file. */
  predicate CompleteStep(step: Step)
  {
    step.BeginComplete? || step.SelectParts? || step.CopyPart? || step.FinishAssembly?
  }

  function ApplyComplete(s: State, step: Step): State
    requires CompleteStep(step)
  {
    match step
    case BeginComplete(upload, parts, cond) => DoBeginComplete(s, upload, parts, cond)
    case SelectParts(a, minPartSize, fails) => DoSelectParts(s, a, minPartSize, fails)
    case CopyPart(a, fails, cleaned) => DoCopyPart(s, a, fails, cleaned)
    case FinishAssembly(a, write) => DoFinishAssembly(s, a, write)
  }

  /** The commit of a completion, and what follows it. */
  predicate SettleStep(step: Step)
  {
    step.CommitComplete? || step.DiscardAssembled? || step.UnlinkReplaced? || step.Release?
  }

  function ApplySettle(s: State, step: Step): State
    requires SettleStep(step)
  {
    match step
    case CommitComplete(a, etag, fails) => DoCommitComplete(s, a, etag, fails)
    case DiscardAssembled(a, removed) => DoDiscardAssembled(s, a, removed)
    case UnlinkReplaced(a, removed) => DoUnlinkReplaced(s, a, removed)
    case Release(a, outcome) => DoRelease(s, a, outcome)
  }

  /** AbortMultipartUpload, and the removal of part files. */
  predicate AbortStep(step: Step)
  {
    step.BeginAbort? || step.DeleteClaimed? || step.RemovePartFiles?
  }

  function ApplyAbort(s: State, step: Step): State
    requires AbortStep(step)
  {
    match step
    case BeginAbort(upload) => DoBeginAbort(s, upload)
    case DeleteClaimed(a, outcome) => DoDeleteClaimed(s, a, outcome)
    case RemovePartFiles(a, paths, stops) => DoRemovePartFiles(s, a, paths, stops)
  }

  /** The stale-upload cleaner. */
  predicate StaleStep(step: Step)
  {
    step.BeginStale? || step.ClaimStale? || step.DeleteStale?
  }

  function ApplyStale(s: State, step: Step): State
    requires StaleStep(step)
  {
    match step
    case BeginStale(upload) => DoBeginStale(s, upload)
    case ClaimStale(a, fails) => DoClaimStale(s, a, fails)
    case DeleteStale(a, outcome) => DoDeleteStale(s, a, outcome)
  }

  /** Creation, and forced deletion of a bucket. */
  predicate BucketStep(step: Step)
  {
    step.CreateBucket? || step.CreateUpload? || step.ForceDelete?
  }

  function ApplyBucket(s: State, step: Step): State
    requires BucketStep(step)
  {
    match step
    case CreateBucket(bucket) => DoCreateBucket(s, bucket)
    case CreateUpload(slot) => DoCreateUpload(s, slot)
    case ForceDelete(bucket, paths) => DoForceDelete(s, bucket, paths)
  }

  /** DeleteBucket up to the list of its uploads. */
  predicate BucketDeleteStep(step: Step)
  {
    step.BeginBucketDelete? || step.ListUploads?
  }

  function ApplyBucketDelete(s: State, step: Step): State
    requires BucketDeleteStep(step)
  {
    match step
    case BeginBucketDelete(bucket) => DoBeginBucketDelete(s, bucket)
    case ListUploads(a, uploads) => DoListUploads(s, a, uploads)
  }

  /** DeleteBucket from there on. */
  predicate BucketDropStep(step: Step)
  {
    step.DropUploadOf? || step.DropBucket?
  }

  function ApplyBucketDrop(s: State, step: Step): State
    requires BucketDropStep(step)
  {
    match step
    case DropUploadOf(a, outcome) => DoDropUploadOf(s, a, outcome)
    case DropBucket(a) => DoDropBucket(s, a)
  }

  /** The walk over the data directory after a crash. */
  predicate TidyStep(step: Step)
  {
    step.PurgeTemp? || step.RemoveOrphan? || step.RemoveOrphanParts?
  }

  function ApplyTidy(s: State, step: Step): State
    requires TidyStep(step)
  {
    match step
    case PurgeTemp(id) => DoPurgeTemp(s, id)
    case RemoveOrphan(path) => DoRemoveOrphan(s, path)
    case RemoveOrphanParts(path) => DoRemoveOrphanParts(s, path)
  }

  /** A crash, and the end of the recovery. */
  predicate RestartStep(step: Step)
  {
    step.Crash? || step.FinishRecovery?
  }

  function ApplyRestart(s: State, step: Step): State
    requires RestartStep(step)
  {
    match step
    case Crash => DoCrash(s)
    case FinishRecovery => DoFinishRecovery(s)
  }

  function Apply(s: State, step: Step): State
  {
    if WriteStep(step) then ApplyWrite(s, step)
    else if DeleteStep(step) then ApplyDelete(s, step)
    else if PartStep(step) then ApplyPart(s, step)
    else if CompleteStep(step) then ApplyComplete(s, step)
    else if SettleStep(step) then ApplySettle(s, step)
    else if AbortStep(step) then ApplyAbort(s, step)
    else if StaleStep(step) then ApplyStale(s, step)
    else if BucketStep(step) then ApplyBucket(s, step)
    else if BucketDeleteStep(step) then ApplyBucketDelete(s, step)
    else if BucketDropStep(step) then ApplyBucketDrop(s, step)
    else if TidyStep(step) then ApplyTidy(s, step)
    else ApplyRestart(s, step)
  }

  function RunFrom(s: State, steps: seq<Step>): State
  {
    if steps == [] then s else Apply(RunFrom(s, steps[..|steps| - 1]), steps[|steps| - 1])
  }

  /** Any interleaving from an empty store. */
  function Run(steps: seq<Step>): State
  {
    RunFrom(INITIAL, steps)
  }
}
