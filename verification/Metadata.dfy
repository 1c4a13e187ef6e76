/**
 The SQLite rows behind the object store and the transactions that change them.

 Every function below is one immediate transaction or one autocommitted statement: it either
 returns the rows after COMMIT, or an error and no change at all.
 */
module Metadata {
  import opened Wrappers
  import CompletedParts
  import ETags

  type Bucket = string

  /** A UUID. Drawn fresh and never reused. */
  type Id = nat

  type Bytes = seq<bv8>

  /** UNIQUE(bucket_name, key) */
  datatype Slot = Slot(bucket: Bucket, key: string)

  /** A storage path: bucket/uuid for objects, .tmp/multipart/upload/number.tmp-uuid for parts. */
  datatype Path =
    | ObjectPath(bucket: Bucket, id: Id)
    | PartPath(upload: Id, number: int, id: Id)

  datatype ObjectRow = ObjectRow(path: Path, etag: string)

  datatype Status = Active | Completing | Aborted

  datatype UploadRow = UploadRow(slot: Slot, status: Status)

  datatype PartSlot = PartSlot(upload: Id, number: int)

  type PartRow = CompletedParts.StoredPart<Path>

  datatype Db = Db(
    buckets: set<Bucket>,
    objects: map<Slot, ObjectRow>,
    uploads: map<Id, UploadRow>,
    parts: map<PartSlot, PartRow>)

  const EMPTY_DB := Db({}, map[], map[], map[])

  datatype Conditions = Conditions(ifMatch: string, ifNoneMatch: string)

  datatype DbError =
    | UploadNotFound | UploadAlreadyClaimed | PreconditionFailed | ObjectNotFound
    | BucketNotFound | BucketHasUploads | ForeignKey | Constraint

  type Tx<+T> = Result<(Db, T), DbError>

  /** What the REFERENCES clauses of the schema demand. */
  predicate ForeignKeys(db: Db)
  {
    && (forall k :: k in db.objects ==> k.bucket in db.buckets)
    && (forall u :: u in db.uploads ==> db.uploads[u].slot.bucket in db.buckets)
    && (forall x :: x in db.parts ==> x.upload in db.uploads)
  }

  function Lookup<K, V>(rows: map<K, V>, k: K): (r: Option<V>)
  {
    if k in rows then Some(rows[k]) else None
  }

  // ---- Preconditions of conditional writes ----

  function CheckWritePreconditions(existing: Option<ObjectRow>, cond: Conditions): Option<DbError>
  {
    if existing.None? then
      if cond.ifMatch != "" then Some(ObjectNotFound) else None
    else if cond.ifMatch != "" && cond.ifMatch != "*" && !ETags.Equal(cond.ifMatch, existing.value.etag) then
      Some(PreconditionFailed)
    else if cond.ifNoneMatch == "*" || (cond.ifNoneMatch != "" && ETags.Equal(cond.ifNoneMatch, existing.value.etag)) then
      Some(PreconditionFailed)
    else None
  }

  predicate Satisfied(existing: Option<ObjectRow>, cond: Conditions)
  {
    CheckWritePreconditions(existing, cond).None?
  }

  /**
   The single-value subset of sections 13.1.1 and 13.1.2 of RFC 9110. A missing key under If-Match
   is reported as not found rather than as a failed precondition.
   */
  lemma PreconditionsMeaning(existing: Option<ObjectRow>, cond: Conditions)
    ensures Satisfied(existing, cond) <==>
              && (cond.ifMatch != "" ==> existing.Some?
                                         && (cond.ifMatch == "*" || ETags.Equal(cond.ifMatch, existing.value.etag)))
              && (cond.ifNoneMatch != "" && existing.Some? ==>
                    cond.ifNoneMatch != "*" && !ETags.Equal(cond.ifNoneMatch, existing.value.etag))
    ensures CheckWritePreconditions(existing, cond) == Some(ObjectNotFound) <==> existing.None? && cond.ifMatch != ""
  {
  }

  // ---- Objects ----

  function Upsert(db: Db, slot: Slot, row: ObjectRow): Db
  {
    db.(objects := db.objects[slot := row])
  }

  /** Check and replace in one transaction; the result is the row that was replaced. */
  function Replace(db: Db, slot: Slot, row: ObjectRow, cond: Conditions): (r: Tx<Option<ObjectRow>>)
    ensures r.Ok? && ForeignKeys(db) ==> ForeignKeys(r.value.0)
  {
    var existing := Lookup(db.objects, slot);
    var failed := CheckWritePreconditions(existing, cond);
    if failed.Some? then Err(failed.value)
    else if slot.bucket !in db.buckets then Err(ForeignKey)
    else Ok((Upsert(db, slot, row), existing))
  }

  function DeleteObject(db: Db, slot: Slot): (r: Tx<()>)
    ensures r.Ok? && ForeignKeys(db) ==> ForeignKeys(r.value.0)
  {
    if slot in db.objects then Ok((db.(objects := db.objects - {slot}), ())) else Err(ObjectNotFound)
  }

  function SlotsIn(db: Db, bucket: Bucket): set<Slot>
  {
    set k | k in db.objects && k.bucket == bucket
  }

  function DeleteAllInBucket(db: Db, bucket: Bucket): (r: Db)
    ensures ForeignKeys(db) ==> ForeignKeys(r)
  {
    db.(objects := db.objects - SlotsIn(db, bucket))
  }

  // ---- Buckets ----

  function CreateBucket(db: Db, bucket: Bucket): (r: Tx<()>)
    ensures r.Ok? && ForeignKeys(db) ==> ForeignKeys(r.value.0)
  {
    if bucket in db.buckets then Err(Constraint) else Ok((db.(buckets := db.buckets + {bucket}), ()))
  }

  predicate HasUploads(db: Db, bucket: Bucket)
  {
    exists u :: u in db.uploads && db.uploads[u].slot.bucket == bucket
  }

  function DeleteBucket(db: Db, bucket: Bucket): (r: Tx<()>)
    ensures r.Ok? && ForeignKeys(db) ==> ForeignKeys(r.value.0)
  {
    if bucket !in db.buckets then Err(BucketNotFound)
    else if SlotsIn(db, bucket) != {} || HasUploads(db, bucket) then Err(ForeignKey)
    else
      assert forall k :: k in db.objects ==> k in SlotsIn(db, bucket) || k.bucket != bucket;
      Ok((db.(buckets := db.buckets - {bucket}), ()))
  }

  /** Forced deletion: the object rows of the bucket and the bucket itself, or nothing. */
  function DeleteWithObjects(db: Db, bucket: Bucket): (r: Tx<map<Slot, ObjectRow>>)
    ensures r.Ok? && ForeignKeys(db) ==> ForeignKeys(r.value.0)
  {
    if HasUploads(db, bucket) then Err(BucketHasUploads)
    else if bucket !in db.buckets then Err(BucketNotFound)
    else
      var doomed := SlotsIn(db, bucket);
      var removed := map k | k in doomed :: db.objects[k];
      var rest := DeleteAllInBucket(db, bucket);
      Ok((rest.(buckets := rest.buckets - {bucket}), removed))
  }

  /**
   All or nothing. It fails exactly when an upload is pending or the bucket is missing; otherwise
   the bucket is gone, the returned rows are exactly those that disappeared, and nothing that
   could refer to the bucket is left.
   */
  lemma ForcedDeletion(db: Db, bucket: Bucket)
    requires ForeignKeys(db)
    ensures DeleteWithObjects(db, bucket).Err? <==> HasUploads(db, bucket) || bucket !in db.buckets
    ensures DeleteWithObjects(db, bucket).Ok? ==>
              var (after, removed) := DeleteWithObjects(db, bucket).value;
              && after.buckets == db.buckets - {bucket}
              && after.uploads == db.uploads && after.parts == db.parts
              && after.objects + removed == db.objects
              && after.objects.Keys !! removed.Keys
              && (forall k :: k in removed ==> k.bucket == bucket)
              && (forall k :: k in after.objects ==> k.bucket != bucket)
              && !HasUploads(after, bucket)
  {
    var r := DeleteWithObjects(db, bucket);
    if r.Ok? {
      var (after, removed) := r.value;
      assert forall k :: k in db.objects ==> k in after.objects || k in removed;
      assert after.objects + removed == db.objects;
    }
  }

  // ---- Multipart uploads ----

  function CreateUpload(db: Db, id: Id, slot: Slot): (r: Tx<()>)
    ensures r.Ok? && ForeignKeys(db) ==> ForeignKeys(r.value.0)
  {
    if id in db.uploads then Err(Constraint)
    else if slot.bucket !in db.buckets then Err(ForeignKey)
    else Ok((db.(uploads := db.uploads[id := UploadRow(slot, Active)]), ()))
  }

  function WithStatus(db: Db, id: Id, status: Status): (r: Db)
    requires id in db.uploads
    ensures ForeignKeys(db) ==> ForeignKeys(r)
  {
    db.(uploads := db.uploads[id := db.uploads[id].(status := status)])
  }

  /** Only an active upload can be claimed. */
  function ClaimUpload(db: Db, id: Id, status: Status): (r: Tx<()>)
    ensures r.Ok? && ForeignKeys(db) ==> ForeignKeys(r.value.0)
  {
    if id !in db.uploads then Err(UploadNotFound)
    else if db.uploads[id].status != Active then Err(UploadAlreadyClaimed)
    else Ok((WithStatus(db, id, status), ()))
  }

  function SetUploadStatus(db: Db, id: Id, status: Status): (r: Tx<()>)
    ensures r.Ok? && ForeignKeys(db) ==> ForeignKeys(r.value.0)
  {
    if id !in db.uploads then Err(UploadNotFound) else Ok((WithStatus(db, id, status), ()))
  }

  function PartsOf(db: Db, id: Id): set<PartSlot>
  {
    set x | x in db.parts && x.upload == id
  }

  /** Deleting an upload cascades to its part rows. */
  function DropUpload(db: Db, id: Id): (r: Db)
    ensures ForeignKeys(db) ==> ForeignKeys(r)
  {
    db.(uploads := db.uploads - {id}, parts := db.parts - PartsOf(db, id))
  }

  function DeleteUpload(db: Db, id: Id): (r: Tx<()>)
    ensures r.Ok? && ForeignKeys(db) ==> ForeignKeys(r.value.0)
  {
    if id in db.uploads then Ok((DropUpload(db, id), ())) else Err(UploadNotFound)
  }

  /** The result is the row of the part that was replaced. */
  function AddPart(db: Db, x: PartSlot, row: PartRow): (r: Tx<Option<PartRow>>)
    ensures r.Ok? && ForeignKeys(db) ==> ForeignKeys(r.value.0)
  {
    if x.upload !in db.uploads then Err(UploadNotFound)
    else if db.uploads[x.upload].status != Active then Err(UploadAlreadyClaimed)
    else Ok((db.(parts := db.parts[x := row]), Lookup(db.parts, x)))
  }

  /** Verify the claim, replace the object and remove the upload in one transaction. */
  function CompleteUpload(db: Db, id: Id, slot: Slot, row: ObjectRow, cond: Conditions): (r: Tx<Option<ObjectRow>>)
    ensures r.Ok? && ForeignKeys(db) ==> ForeignKeys(r.value.0)
  {
    if id !in db.uploads then Err(UploadNotFound)
    else if db.uploads[id].status != Completing then Err(UploadAlreadyClaimed)
    else
      var stored := Replace(db, slot, row, cond);
      if stored.Err? then Err(stored.error)
      else Ok((DropUpload(stored.value.0, id), stored.value.1))
  }

  /**
   A completion commits exactly when its upload is still claimed for completion, its bucket exists and its conditions
   hold against the current row. Then it returns that row, and takes the upload and its parts away, and nothing else.
   */
  lemma CompletionTransaction(db: Db, id: Id, slot: Slot, row: ObjectRow, cond: Conditions)
    ensures CompleteUpload(db, id, slot, row, cond).Ok? <==>
              && id in db.uploads && db.uploads[id].status == Completing
              && slot.bucket in db.buckets && Satisfied(Lookup(db.objects, slot), cond)
    ensures CompleteUpload(db, id, slot, row, cond).Ok? ==>
              var (after, replaced) := CompleteUpload(db, id, slot, row, cond).value;
              && replaced == Lookup(db.objects, slot)
              && after.objects == db.objects[slot := row] && after.buckets == db.buckets
              && (forall u :: u in after.uploads <==> u in db.uploads && u != id)
              && (forall u :: u in after.uploads ==> after.uploads[u] == db.uploads[u])
              && (forall x :: x in after.parts <==> x in db.parts && x.upload != id)
              && (forall x :: x in after.parts ==> after.parts[x] == db.parts[x])
  {
  }

  /**
   A plain bucket deletion succeeds exactly when the bucket exists and neither an object nor an upload is in it, and
   then takes away the bucket and nothing else.
   */
  lemma PlainDeletion(db: Db, bucket: Bucket)
    ensures DeleteBucket(db, bucket).Ok? <==>
              && bucket in db.buckets
              && (forall k :: k in db.objects ==> k.bucket != bucket)
              && (forall u :: u in db.uploads ==> db.uploads[u].slot.bucket != bucket)
    ensures DeleteBucket(db, bucket).Ok? ==>
              DeleteBucket(db, bucket).value.0 == db.(buckets := db.buckets - {bucket})
    ensures DeleteBucket(db, bucket) == Err(BucketNotFound) <==> bucket !in db.buckets
  {
    if k :| k in db.objects && k.bucket == bucket {
      assert k in SlotsIn(db, bucket);
    }
  }

  /** The stored parts of an upload by number. */
  function PartsByNumber(db: Db, id: Id): map<int, PartRow>
  {
    map x | x in db.parts && x.upload == id :: x.number := db.parts[x]
  }
}
