/**
 Conservation of files. Every object file is named by an object row and every part file by a part row, or some
 request in flight has yet to commit or remove it, unless one of a few steps has leaked it.
 */
module Accounting {
  import opened Wrappers
  import opened Metadata
  import opened History
  import opened Lifecycle
  import opened Invariant
  import opened Preservation
  import CompletedParts
  import Guarantees

  datatype Kind = ObjectFiles | PartFiles

  predicate IsOf(kind: Kind, p: Path)
  {
    p.ObjectPath? <==> kind.ObjectFiles?
  }

  ghost predicate ObjectNamed(db: Db, p: Path)
  {
    exists k :: k in db.objects && db.objects[k].path == p
  }

  ghost predicate PartNamed(db: Db, p: Path)
  {
    exists x :: x in db.parts && db.parts[x].path == p
  }

  ghost predicate Named(db: Db, p: Path)
  {
    ObjectNamed(db, p) || PartNamed(db, p)
  }

  /** Requests that still have a file to commit or to remove. */
  predicate Owing(pc: Actor)
  {
    || pc.Written? || pc.Discarding? || pc.Unlinking? || pc.PartWriting? || pc.PartWritten? || pc.Assembled?
    || pc.CompleteFailed? || pc.CompleteSettled? || pc.RemovingParts?
  }

  predicate PartOf(p: Path, upload: Id)
  {
    p.PartPath? && p.upload == upload
  }

  predicate Owes(pc: Actor, a: Id, p: Path)
  {
    match pc
    case Written(slot, _, _, _, _) => p == ObjectPath(slot.bucket, a)
    case Discarding(path) => p == path
    case Unlinking(paths) => p in paths
    case PartWriting(part, _, _) => p == PartPath(part.upload, part.number, a)
    case PartWritten(part, _, _) => p == PartPath(part.upload, part.number, a)
    case Assembled(_, slot, _, _, _, _) => p == ObjectPath(slot.bucket, a)
    case CompleteFailed(_, path) => p == path
    case CompleteSettled(upload, replaced) => replaced == Some(p) || PartOf(p, upload)
    case RemovingParts(upload, _) => PartOf(p, upload)
    case _ => false
  }

  ghost predicate OwedBy(s: State, a: Id, p: Path)
  {
    a in s.actors && Owes(s.actors[a], a, p)
  }

  ghost predicate Accounted(s: State, p: Path)
  {
    Named(s.db, p) || exists a: Id :: OwedBy(s, a, p)
  }

  ghost predicate AllAccounted(s: State, kind: Kind)
  {
    forall p :: p in s.disk && IsOf(kind, p) ==> Accounted(s, p)
  }

  // ---- Leaks ----

  /**
   A file that could not be finished or removed, a DELETE or EmptyBucket that lost track, an upload deletion that
   persists but is reported as failed, a part directory that is given up before it is empty, or a crash.
   */
  ghost predicate Leaky(s: State, step: Step, kind: Kind)
  {
    match step
    case FinishWrite(_, write) => kind.ObjectFiles? && write.WriteOrphaned?
    case FinishAssembly(_, write) => kind.ObjectFiles? && write.WriteOrphaned?
    case FinishPart(_, write) => kind.PartFiles? && (write.WriteOrphaned? || (write.WriteFailed? && !write.cleaned))
    case Discard(a, removed) => !removed && a in s.actors && s.actors[a].Discarding? && IsOf(kind, s.actors[a].path)
    case DiscardAssembled(a, removed) => !removed && a in s.actors && s.actors[a].CompleteFailed? && IsOf(kind, s.actors[a].path)
    case UnlinkReplaced(a, removed) => !removed && a in s.actors && s.actors[a].CompleteSettled?
                                       && s.actors[a].replaced.Some? && IsOf(kind, s.actors[a].replaced.value)
    case Unlink(a, removed, stops) => LosesPaths(s, a, removed, stops, kind)
    case DeleteRow(a, outcome) => kind.ObjectFiles? && LosesRow(s, a, outcome)
    case DeleteAllRows(a, outcome) => kind.ObjectFiles? && LosesRows(s, a, outcome)
    case DeleteStale(a, outcome) => kind.PartFiles? && outcome.Lost?
    case DeleteClaimed(a, outcome) => kind.PartFiles? && outcome.Lost?
    case DropUploadOf(a, outcome) => kind.PartFiles? && outcome.Lost?
    case RemovePartFiles(a, files, stops) => kind.PartFiles? && LeavesParts(s, a, files, stops)
    case Crash => true
    case _ => false
  }

  ghost predicate LosesPaths(s: State, a: Id, removed: bool, stops: bool, kind: Kind)
  {
    && a in s.actors && s.actors[a].Unlinking? && s.actors[a].paths != []
    && ((!removed && IsOf(kind, s.actors[a].paths[0]))
        || (stops && exists p :: p in s.actors[a].paths[1..] && IsOf(kind, p)))
  }

  /** The deletion persists but is reported as failed, or the key was overwritten since it was loaded. */
  ghost predicate LosesRow(s: State, a: Id, outcome: Outcome)
  {
    && a in s.actors && s.actors[a].DeleteLoaded? && s.actors[a].slot in s.db.objects
    && (outcome.Lost? || (outcome.Done? && s.db.objects[s.actors[a].slot].path != s.actors[a].path))
  }

  /** Likewise for a bucket: some row that goes was not in the listing. */
  ghost predicate LosesRows(s: State, a: Id, outcome: Outcome)
  {
    && a in s.actors && s.actors[a].EmptyListing?
    && (outcome.Lost? || (outcome.Done? && exists k :: k in SlotsIn(s.db, s.actors[a].bucket)
                                                      && s.db.objects[k].path !in s.actors[a].paths))
  }

  /** The directory is given up while it holds a file that no other request will see to. */
  ghost predicate LeavesParts(s: State, a: Id, files: set<Path>, stops: bool)
  {
    && stops && a in s.actors && s.actors[a].RemovingParts?
    && exists p :: p in s.disk && PartOf(p, s.actors[a].upload) && p !in files && !OwedByAnother(s, a, p)
  }

  ghost predicate OwedByAnother(s: State, a: Id, p: Path)
  {
    exists b: Id :: b != a && OwedBy(s, b, p)
  }

  // ---- Steps that neither name, write nor owe files ----

  ghost predicate Quiet(s: State, t: State)
  {
    && t.db.objects == s.db.objects && t.db.parts == s.db.parts
    && t.disk.Keys <= s.disk.Keys
    && (forall a :: a in s.actors && Owing(s.actors[a]) ==> a in t.actors && t.actors[a] == s.actors[a])
  }

  lemma QuietKeeps(s: State, t: State, kind: Kind)
    requires Quiet(s, t) && AllAccounted(s, kind)
    ensures AllAccounted(t, kind)
  {
    forall p | p in t.disk && IsOf(kind, p) ensures Accounted(t, p) {
      assert p in s.disk.Keys && Accounted(s, p);
      if !Named(s.db, p) {
        var a: Id :| OwedBy(s, a, p);
        assert OwedBy(t, a, p);
      }
    }
  }

  lemma StartsAreQuiet(s: State, slot: Slot, bytes: Bytes, etag: string, cond: Conditions, path: Path)
    requires s.next !in s.actors
    ensures Quiet(s, DoBeginPut(s, slot, bytes, etag, cond))
    ensures Quiet(s, DoBeginCopy(s, path, slot, cond))
    ensures Quiet(s, DoBeginDelete(s, slot, path))
    ensures Quiet(s, DoBeginEmpty(s, slot.bucket))
  {
  }

  lemma ListingIsQuiet(s: State, a: Id, slots: seq<Slot>)
    ensures Quiet(s, DoListPage(s, a, slots))
  {
  }

  lemma ClaimsAreQuiet(s: State, upload: Id, parts: seq<CompletedParts.CompletePart>, cond: Conditions)
    requires s.next !in s.actors
    ensures Quiet(s, DoBeginComplete(s, upload, parts, cond))
    ensures Quiet(s, DoBeginAbort(s, upload))
    ensures Quiet(s, DoBeginStale(s, upload))
  {
  }

  lemma SelectionIsQuiet(s: State, a: Id, minPartSize: int, fails: bool)
    ensures Quiet(s, DoSelectParts(s, a, minPartSize, fails))
  {
  }

  lemma AssemblyIsQuiet(s: State, a: Id, fails: bool, cleaned: bool)
    ensures Quiet(s, DoCopyPart(s, a, fails, cleaned))
    ensures Quiet(s, DoClaimStale(s, a, fails))
  {
  }

  lemma ReleaseIsQuiet(s: State, a: Id, outcome: Outcome)
    ensures Quiet(s, DoRelease(s, a, outcome))
  {
  }

  lemma CreationIsQuiet(s: State, slot: Slot)
    requires s.next !in s.actors
    ensures Quiet(s, DoCreateBucket(s, slot.bucket))
    ensures Quiet(s, DoCreateUpload(s, slot))
    ensures Quiet(s, DoBeginBucketDelete(s, slot.bucket))
  {
  }

  lemma BucketDeletionIsQuiet(s: State, a: Id, uploads: seq<Id>)
    ensures Quiet(s, DoListUploads(s, a, uploads))
    ensures Quiet(s, DoDropBucket(s, a))
  {
  }

  lemma RecoveryIsQuiet(s: State, id: Id, path: Path)
    ensures Quiet(s, DoPurgeTemp(s, id))
    ensures Quiet(s, DoRemoveOrphan(s, path))
    ensures Quiet(s, DoRemoveOrphanParts(s, path))
    ensures Quiet(s, DoFinishRecovery(s))
  {
  }

  // ---- Steps that do ----

  /** The step of request a leaves the debts of all others. */
  ghost predicate OnlyItsOwn(s: State, t: State, a: Id)
  {
    forall b :: b in s.actors && b != a ==> b in t.actors && t.actors[b] == s.actors[b]
  }

  lemma OthersStillOwe(s: State, t: State, a: Id, p: Path)
    requires OnlyItsOwn(s, t, a) && Accounted(s, p)
    requires Named(s.db, p) ==> Accounted(t, p)
    requires OwedBy(s, a, p) ==> Accounted(t, p)
    ensures Accounted(t, p)
  {
    if !Named(s.db, p) && !OwedBy(s, a, p) {
      var b: Id :| OwedBy(s, b, p);
      assert OwedBy(t, b, p);
    }
  }

  /** No row changes, and what request a owed it still owes, or has removed. */
  lemma RowsKeptAccount(s: State, t: State, a: Id, kind: Kind)
    requires AllAccounted(s, kind) && OnlyItsOwn(s, t, a)
    requires t.db.objects == s.db.objects && t.db.parts == s.db.parts
    requires forall p :: p in t.disk && IsOf(kind, p) && (p !in s.disk || OwedBy(s, a, p)) ==> OwedBy(t, a, p)
    ensures AllAccounted(t, kind)
  {
    forall p | p in t.disk && IsOf(kind, p) ensures Accounted(t, p) {
      if p in s.disk {
        OthersStillOwe(s, t, a, p);
      } else {
        assert OwedBy(t, a, p);
      }
    }
  }

  lemma FinishWriteAccounts(s: State, a: Id, write: WriteOutcome, kind: Kind)
    requires AllAccounted(s, kind) && !Leaky(s, FinishWrite(a, write), kind)
    ensures AllAccounted(DoFinishWrite(s, a, write), kind)
  {
    RowsKeptAccount(s, DoFinishWrite(s, a, write), a, kind);
  }

  lemma RejectDigestAccounts(s: State, a: Id, kind: Kind)
    requires AllAccounted(s, kind)
    ensures AllAccounted(DoRejectDigest(s, a), kind)
  {
    RowsKeptAccount(s, DoRejectDigest(s, a), a, kind);
  }

  lemma DiscardAccounts(s: State, a: Id, removed: bool, kind: Kind)
    requires AllAccounted(s, kind) && !Leaky(s, Discard(a, removed), kind)
    ensures AllAccounted(DoDiscard(s, a, removed), kind)
  {
    RowsKeptAccount(s, DoDiscard(s, a, removed), a, kind);
  }

  lemma UnlinkAccounts(s: State, a: Id, removed: bool, stops: bool, kind: Kind)
    requires AllAccounted(s, kind) && !LosesPaths(s, a, removed, stops, kind)
    ensures AllAccounted(DoUnlink(s, a, removed, stops), kind)
  {
    var t := DoUnlink(s, a, removed, stops);
    if t != s && s.actors[a].paths != [] {
      var paths := s.actors[a].paths;
      assert forall p :: p in paths ==> p == paths[0] || p in paths[1..];
    }
    RowsKeptAccount(s, t, a, kind);
  }

  lemma BeginPartAccounts(s: State, part: PartSlot, bytes: Bytes, etag: string, partial: Bytes, kind: Kind)
    requires AllAccounted(s, kind) && s.next !in s.actors
    ensures AllAccounted(DoBeginPart(s, part, bytes, etag, partial), kind)
  {
    RowsKeptAccount(s, DoBeginPart(s, part, bytes, etag, partial), s.next, kind);
  }

  lemma FinishPartAccounts(s: State, a: Id, write: WriteOutcome, kind: Kind)
    requires AllAccounted(s, kind) && !Leaky(s, FinishPart(a, write), kind)
    ensures AllAccounted(DoFinishPart(s, a, write), kind)
  {
    RowsKeptAccount(s, DoFinishPart(s, a, write), a, kind);
  }

  lemma FinishAssemblyAccounts(s: State, a: Id, write: WriteOutcome, kind: Kind)
    requires AllAccounted(s, kind) && !Leaky(s, FinishAssembly(a, write), kind)
    ensures AllAccounted(DoFinishAssembly(s, a, write), kind)
  {
    var t := DoFinishAssembly(s, a, write);
    AfterAssembly(s, a, write);
    RowsKeptAccount(s, t, a, kind);
  }

  lemma AfterAssembly(s: State, a: Id, write: WriteOutcome)
    ensures var t := DoFinishAssembly(s, a, write);
            && OnlyItsOwn(s, t, a) && t.db == s.db
            && (forall p :: OwedBy(s, a, p) ==> OwedBy(t, a, p))
            && (forall p :: p in t.disk && p !in s.disk ==> p.ObjectPath? && (!write.WriteOrphaned? ==> OwedBy(t, a, p)))
  {
  }

  lemma DiscardAssembledAccounts(s: State, a: Id, removed: bool, kind: Kind)
    requires AllAccounted(s, kind) && !Leaky(s, DiscardAssembled(a, removed), kind)
    ensures AllAccounted(DoDiscardAssembled(s, a, removed), kind)
  {
    RowsKeptAccount(s, DoDiscardAssembled(s, a, removed), a, kind);
  }

  /** From the replaced file and the part files, the part files are left. */
  lemma AfterUnlinkReplaced(s: State, a: Id, removed: bool, p: Path)
    requires OwedBy(s, a, p) && p in DoUnlinkReplaced(s, a, removed).disk
    requires s.actors[a].CompleteSettled? && !removed ==> s.actors[a].replaced != Some(p)
    ensures OwedBy(DoUnlinkReplaced(s, a, removed), a, p)
  {
  }

  lemma UnlinkReplacedAccounts(s: State, a: Id, removed: bool, kind: Kind)
    requires AllAccounted(s, kind) && !Leaky(s, UnlinkReplaced(a, removed), kind)
    ensures AllAccounted(DoUnlinkReplaced(s, a, removed), kind)
  {
    var t := DoUnlinkReplaced(s, a, removed);
    forall p | p in t.disk && IsOf(kind, p) && OwedBy(s, a, p) ensures OwedBy(t, a, p) {
      AfterUnlinkReplaced(s, a, removed, p);
    }
    RowsKeptAccount(s, t, a, kind);
  }

  lemma RemovePartFilesAccounts(s: State, a: Id, files: set<Path>, stops: bool, kind: Kind)
    requires AllAccounted(s, kind) && !Leaky(s, RemovePartFiles(a, files, stops), kind)
    ensures AllAccounted(DoRemovePartFiles(s, a, files, stops), kind)
  {
    var t := DoRemovePartFiles(s, a, files, stops);
    forall p | p in t.disk && IsOf(kind, p) ensures Accounted(t, p) {
      if OwedBy(s, a, p) && !OwedBy(t, a, p) {
        assert OwedByAnother(s, a, p);
        var b: Id :| b != a && OwedBy(s, b, p);
        assert OwedBy(t, b, p);
      }
      OthersStillOwe(s, t, a, p);
    }
  }

  // ---- Steps that change rows ----

  lemma RowsChangedAccount(s: State, t: State, a: Id, kind: Kind)
    requires AllAccounted(s, kind) && OnlyItsOwn(s, t, a) && t.disk == s.disk
    requires forall p :: OwedBy(s, a, p) ==> Accounted(t, p)
    requires forall p :: ObjectNamed(s.db, p) ==> Accounted(t, p)
    requires forall p :: PartNamed(s.db, p) && IsOf(kind, p) ==> Accounted(t, p)
    ensures AllAccounted(t, kind)
  {
    forall p | p in t.disk && IsOf(kind, p) ensures Accounted(t, p) {
      OthersStillOwe(s, t, a, p);
    }
  }

  lemma PartsStayNamed(s: State, t: State)
    requires t.db.parts == s.db.parts
    ensures forall p :: PartNamed(s.db, p) ==> Accounted(t, p)
  {
    forall p | PartNamed(s.db, p) ensures Accounted(t, p) {
      assert PartNamed(t.db, p);
    }
  }

  lemma ObjectsStayNamed(s: State, t: State)
    requires t.db.objects == s.db.objects
    ensures forall p :: ObjectNamed(s.db, p) ==> Accounted(t, p)
  {
    forall p | ObjectNamed(s.db, p) ensures Accounted(t, p) {
      assert ObjectNamed(t.db, p);
    }
  }

  /** A row is written, and its request owes the file of the row it replaced. */
  lemma StoredRowNames(s: State, t: State, a: Id, slot: Slot, row: ObjectRow)
    requires t.db.objects == s.db.objects[slot := row]
    requires slot in s.db.objects ==> OwedBy(t, a, s.db.objects[slot].path)
    ensures Accounted(t, row.path)
    ensures forall p :: ObjectNamed(s.db, p) ==> Accounted(t, p)
  {
    assert t.db.objects[slot].path == row.path && ObjectNamed(t.db, row.path);
    forall p | ObjectNamed(s.db, p) ensures Accounted(t, p) {
      var k :| k in s.db.objects && s.db.objects[k].path == p;
      assert k != slot ==> t.db.objects[k].path == p && ObjectNamed(t.db, p);
    }
  }

  lemma CommitWriteAccounts(s: State, a: Id, fails: bool, kind: Kind)
    requires AllAccounted(s, kind)
    ensures AllAccounted(DoCommitWrite(s, a, fails), kind)
  {
    var t := DoCommitWrite(s, a, fails);
    if t != s && t.actors[a].Discarding? {
      RowsKeptAccount(s, t, a, kind);
    } else if t != s {
      var pc := s.actors[a];
      StoredRowNames(s, t, a, pc.slot, ObjectRow(ObjectPath(pc.slot.bucket, a), pc.etag));
      PartsStayNamed(s, t);
      RowsChangedAccount(s, t, a, kind);
    }
  }

  /** Object rows go, and the request that deleted them owes their files. */
  lemma DroppedRowsAccount(s: State, t: State, a: Id, slots: set<Slot>, kind: Kind)
    requires AllAccounted(s, kind) && OnlyItsOwn(s, t, a) && t.disk == s.disk
    requires t.db.objects == s.db.objects - slots && t.db.parts == s.db.parts
    requires forall p :: !OwedBy(s, a, p)
    requires forall k :: k in slots && k in s.db.objects && IsOf(kind, s.db.objects[k].path) ==>
                           OwedBy(t, a, s.db.objects[k].path)
    ensures AllAccounted(t, kind)
  {
    forall p | p in t.disk && IsOf(kind, p) ensures Accounted(t, p) {
      PartsStayNamed(s, t);
      if k :| k in s.db.objects && s.db.objects[k].path == p {
        assert k !in slots ==> t.db.objects[k].path == p && ObjectNamed(t.db, p);
      }
      OthersStillOwe(s, t, a, p);
    }
  }

  lemma DeleteRowIsQuiet(s: State, a: Id, outcome: Outcome)
    requires a in s.actors && s.actors[a].DeleteLoaded? ==> s.actors[a].slot !in s.db.objects || outcome.Failed?
    ensures Quiet(s, DoDeleteRow(s, a, outcome))
  {
  }

  lemma DeleteRowAccounts(s: State, a: Id, outcome: Outcome, kind: Kind)
    requires ObjectRowsOk(s) && AllAccounted(s, kind) && !Leaky(s, DeleteRow(a, outcome), kind)
    ensures AllAccounted(DoDeleteRow(s, a, outcome), kind)
  {
    var t := DoDeleteRow(s, a, outcome);
    if a in s.actors && s.actors[a].DeleteLoaded? && s.actors[a].slot in s.db.objects && !outcome.Failed? {
      DroppedRowsAccount(s, t, a, {s.actors[a].slot}, kind);
    } else {
      DeleteRowIsQuiet(s, a, outcome);
      QuietKeeps(s, t, kind);
    }
  }

  lemma DeleteAllRowsAccounts(s: State, a: Id, outcome: Outcome, kind: Kind)
    requires ObjectRowsOk(s) && AllAccounted(s, kind) && !Leaky(s, DeleteAllRows(a, outcome), kind)
    ensures AllAccounted(DoDeleteAllRows(s, a, outcome), kind)
  {
    var t := DoDeleteAllRows(s, a, outcome);
    if a in s.actors && s.actors[a].EmptyListing? {
      DroppedRowsAccount(s, t, a, if outcome.Failed? then {} else SlotsIn(s.db, s.actors[a].bucket), kind);
    }
  }

  lemma ForceDeleteAccounts(s: State, bucket: Bucket, paths: seq<Path>, kind: Kind)
    requires AllAccounted(s, kind) && s.next !in s.actors
    ensures AllAccounted(DoForceDelete(s, bucket, paths), kind)
  {
    var t, r := DoForceDelete(s, bucket, paths), DeleteWithObjects(s.db, bucket);
    if s.serving && r.Ok? && ExactlyPaths(paths, r.value.1) {
      forall k | k in SlotsIn(s.db, bucket) ensures OwedBy(t, s.next, s.db.objects[k].path) {
        assert r.value.1[k].path in paths;
      }
      DroppedRowsAccount(s, t, s.next, SlotsIn(s.db, bucket), kind);
    }
  }

  /** A part row is written, and its request owes the file of the row it replaced. */
  lemma CommitPartAccounts(s: State, a: Id, fails: bool, kind: Kind)
    requires AllAccounted(s, kind)
    ensures AllAccounted(DoCommitPart(s, a, fails), kind)
  {
    var t := DoCommitPart(s, a, fails);
    if t != s && t.actors[a].Discarding? {
      RowsKeptAccount(s, t, a, kind);
    } else if t != s {
      var x := s.actors[a].part;
      assert PartNamed(t.db, t.db.parts[x].path);
      ObjectsStayNamed(s, t);
      forall p | PartNamed(s.db, p) ensures Accounted(t, p) {
        var y :| y in s.db.parts && s.db.parts[y].path == p;
        assert if y == x then OwedBy(t, a, p) else t.db.parts[y].path == p && PartNamed(t.db, p);
      }
      RowsChangedAccount(s, t, a, kind);
    }
  }

  /** An upload goes with its part rows, and whoever deleted it owes the part files. */
  lemma DroppedPartsNames(s: State, t: State, a: Id, u: Id, kind: Kind)
    requires PartRowsOk(s) && t.db.parts == s.db.parts - PartsOf(s.db, u)
    requires kind.PartFiles? ==> forall p :: PartOf(p, u) ==> OwedBy(t, a, p)
    ensures forall p :: PartNamed(s.db, p) && IsOf(kind, p) ==> Accounted(t, p)
  {
    forall p | PartNamed(s.db, p) && IsOf(kind, p) ensures Accounted(t, p) {
      var x :| x in s.db.parts && s.db.parts[x].path == p;
      assert PartRowOk(s, x);
      assert if x.upload == u then OwedBy(t, a, p) else t.db.parts[x].path == p && PartNamed(t.db, p);
    }
  }

  /** The request has nothing to see to before, and all the files of the upload afterwards. */
  predicate TakesOver(s: State, t: State, a: Id, u: Id, kind: Kind)
  {
    && a in s.actors && !Owing(s.actors[a])
    && (kind.PartFiles? ==> a in t.actors && t.actors[a].RemovingParts? && t.actors[a].upload == u)
  }

  lemma DroppedUploadAccounts(s: State, t: State, a: Id, u: Id, kind: Kind)
    requires PartRowsOk(s) && AllAccounted(s, kind) && OnlyItsOwn(s, t, a)
    requires t.db == DropUpload(s.db, u) && t.disk == s.disk && TakesOver(s, t, a, u, kind)
    ensures AllAccounted(t, kind)
  {
    DroppedPartsNames(s, t, a, u, kind);
    ObjectsStayNamed(s, t);
    RowsChangedAccount(s, t, a, kind);
  }

  lemma DeleteStaleIsQuiet(s: State, a: Id, outcome: Outcome)
    requires a in s.actors && s.actors[a].StaleSeen?
    requires s.actors[a].upload !in s.db.uploads || outcome.Failed?
    ensures Quiet(s, DoDeleteStale(s, a, outcome))
  {
  }

  lemma DeleteStaleTakesOver(s: State, a: Id, outcome: Outcome, kind: Kind)
    requires a in s.actors && s.actors[a].StaleSeen? && s.actors[a].status != Active
    requires s.actors[a].upload in s.db.uploads && !outcome.Failed? && (kind.PartFiles? ==> outcome.Done?)
    ensures var t := DoDeleteStale(s, a, outcome);
            && OnlyItsOwn(s, t, a) && t.db == DropUpload(s.db, s.actors[a].upload) && t.disk == s.disk
            && TakesOver(s, t, a, s.actors[a].upload, kind)
  {
  }

  lemma DeleteStaleAccounts(s: State, a: Id, outcome: Outcome, kind: Kind)
    requires PartRowsOk(s) && AllAccounted(s, kind) && !(kind.PartFiles? && outcome.Lost?)
    ensures AllAccounted(DoDeleteStale(s, a, outcome), kind)
  {
    if a in s.actors && s.actors[a].StaleSeen? && s.actors[a].status != Active {
      if s.actors[a].upload !in s.db.uploads || outcome.Failed? {
        DeleteStaleIsQuiet(s, a, outcome);
        QuietKeeps(s, DoDeleteStale(s, a, outcome), kind);
      } else {
        DeleteStaleTakesOver(s, a, outcome, kind);
        DroppedUploadAccounts(s, DoDeleteStale(s, a, outcome), a, s.actors[a].upload, kind);
      }
    }
  }

  lemma DeleteClaimedIsQuiet(s: State, a: Id, outcome: Outcome)
    requires a in s.actors && s.actors[a].AbortClaimed?
    requires s.actors[a].upload !in s.db.uploads || outcome.Failed?
    ensures Quiet(s, DoDeleteClaimed(s, a, outcome))
  {
  }

  lemma DeleteClaimedTakesOver(s: State, a: Id, outcome: Outcome, kind: Kind)
    requires a in s.actors && s.actors[a].AbortClaimed?
    requires s.actors[a].upload in s.db.uploads && !outcome.Failed? && (kind.PartFiles? ==> outcome.Done?)
    ensures var t := DoDeleteClaimed(s, a, outcome);
            && OnlyItsOwn(s, t, a) && t.db == DropUpload(s.db, s.actors[a].upload) && t.disk == s.disk
            && TakesOver(s, t, a, s.actors[a].upload, kind)
  {
  }

  lemma DeleteClaimedAccounts(s: State, a: Id, outcome: Outcome, kind: Kind)
    requires PartRowsOk(s) && AllAccounted(s, kind) && !(kind.PartFiles? && outcome.Lost?)
    ensures AllAccounted(DoDeleteClaimed(s, a, outcome), kind)
  {
    if a in s.actors && s.actors[a].AbortClaimed? {
      if s.actors[a].upload !in s.db.uploads || outcome.Failed? {
        DeleteClaimedIsQuiet(s, a, outcome);
        QuietKeeps(s, DoDeleteClaimed(s, a, outcome), kind);
      } else {
        DeleteClaimedTakesOver(s, a, outcome, kind);
        DroppedUploadAccounts(s, DoDeleteClaimed(s, a, outcome), a, s.actors[a].upload, kind);
      }
    }
  }

  lemma DropUploadOfIsQuiet(s: State, a: Id, outcome: Outcome)
    requires a in s.actors && s.actors[a].DeletingBucket? && s.actors[a].work.pending != []
    requires s.actors[a].work.pending[0] !in s.db.uploads || outcome.Failed?
    ensures Quiet(s, DoDropUploadOf(s, a, outcome))
  {
  }

  lemma DropUploadOfTakesOver(s: State, a: Id, outcome: Outcome, kind: Kind)
    requires a in s.actors && s.actors[a].DeletingBucket? && s.actors[a].work.pending != []
    requires s.actors[a].work.pending[0] in s.db.uploads && !outcome.Failed? && (kind.PartFiles? ==> outcome.Done?)
    ensures var t := DoDropUploadOf(s, a, outcome);
            && OnlyItsOwn(s, t, a) && t.db == DropUpload(s.db, s.actors[a].work.pending[0]) && t.disk == s.disk
            && TakesOver(s, t, a, s.actors[a].work.pending[0], kind)
  {
  }

  lemma DropUploadOfAccounts(s: State, a: Id, outcome: Outcome, kind: Kind)
    requires PartRowsOk(s) && AllAccounted(s, kind) && !(kind.PartFiles? && outcome.Lost?)
    ensures AllAccounted(DoDropUploadOf(s, a, outcome), kind)
  {
    if a in s.actors && s.actors[a].DeletingBucket? && s.actors[a].work.pending != [] {
      if s.actors[a].work.pending[0] !in s.db.uploads || outcome.Failed? {
        DropUploadOfIsQuiet(s, a, outcome);
        QuietKeeps(s, DoDropUploadOf(s, a, outcome), kind);
      } else {
        DropUploadOfTakesOver(s, a, outcome, kind);
        DroppedUploadAccounts(s, DoDropUploadOf(s, a, outcome), a, s.actors[a].work.pending[0], kind);
      }
    }
  }

  /** A completion that does not commit still owes its file. */
  lemma AfterFailedCommit(s: State, a: Id, etag: string, fails: bool)
    requires DoCommitComplete(s, a, etag, fails).log == s.log
    ensures var t := DoCommitComplete(s, a, etag, fails);
            && OnlyItsOwn(s, t, a) && t.db == s.db && t.disk == s.disk
            && (forall p :: OwedBy(s, a, p) ==> OwedBy(t, a, p))
  {
  }

  lemma CompletedNames(s: State, a: Id, etag: string)
    requires DoCommitComplete(s, a, etag, false).log != s.log
    ensures var t, pc := DoCommitComplete(s, a, etag, false), s.actors[a];
            && OnlyItsOwn(s, t, a) && t.disk == s.disk
            && t.db.objects == s.db.objects[pc.slot := ObjectRow(ObjectPath(pc.slot.bucket, a), etag)]
            && t.db.parts == s.db.parts - PartsOf(s.db, pc.upload)
            && (pc.slot in s.db.objects ==> OwedBy(t, a, s.db.objects[pc.slot].path))
            && (forall p :: PartOf(p, pc.upload) ==> OwedBy(t, a, p))
            && (forall p :: OwedBy(s, a, p) ==> p == ObjectPath(pc.slot.bucket, a))
  {
  }

  lemma CommitCompleteAccounts(s: State, a: Id, etag: string, fails: bool, kind: Kind)
    requires PartRowsOk(s) && AllAccounted(s, kind)
    ensures AllAccounted(DoCommitComplete(s, a, etag, fails), kind)
  {
    var t := DoCommitComplete(s, a, etag, fails);
    if t.log == s.log {
      AfterFailedCommit(s, a, etag, fails);
      RowsKeptAccount(s, t, a, kind);
    } else {
      var pc := s.actors[a];
      CompletedNames(s, a, etag);
      StoredRowNames(s, t, a, pc.slot, ObjectRow(ObjectPath(pc.slot.bucket, a), etag));
      DroppedPartsNames(s, t, a, pc.upload, kind);
      RowsChangedAccount(s, t, a, kind);
    }
  }

  // ---- Every step ----

  /** What a step may rely on. */
  ghost predicate Ready(s: State, kind: Kind)
  {
    AllAccounted(s, kind) && s.next !in s.actors && ObjectRowsOk(s) && PartRowsOk(s)
  }

  lemma ReadyIn(s: State, kind: Kind)
    requires Inv(s) && AllAccounted(s, kind)
    ensures Ready(s, kind)
  {
    InvIs(s);
  }

  lemma WriteStepAccounts(s: State, step: Step, kind: Kind)
    requires Ready(s, kind) && WriteStep(step) && !Leaky(s, step, kind)
    ensures AllAccounted(ApplyWrite(s, step), kind)
  {
    match step
    case BeginPut(slot, bytes, etag, cond) =>
      StartsAreQuiet(s, slot, bytes, etag, cond, ObjectPath(slot.bucket, 0));
      QuietKeeps(s, DoBeginPut(s, slot, bytes, etag, cond), kind);
    case BeginCopy(source, slot, cond) =>
      StartsAreQuiet(s, slot, [], "", cond, source);
      QuietKeeps(s, DoBeginCopy(s, source, slot, cond), kind);
    case FinishWrite(a, write) => FinishWriteAccounts(s, a, write, kind);
    case RejectDigest(a) => RejectDigestAccounts(s, a, kind);
    case CommitWrite(a, fails) => CommitWriteAccounts(s, a, fails, kind);
    case Discard(a, removed) => DiscardAccounts(s, a, removed, kind);
    case Unlink(a, removed, stops) => UnlinkAccounts(s, a, removed, stops, kind);
  }

  lemma DeleteStepAccounts(s: State, step: Step, kind: Kind)
    requires Ready(s, kind) && DeleteStep(step) && !Leaky(s, step, kind)
    ensures AllAccounted(ApplyDelete(s, step), kind)
  {
    match step
    case BeginDelete(slot, path) =>
      StartsAreQuiet(s, slot, [], "", Conditions("", ""), path);
      QuietKeeps(s, DoBeginDelete(s, slot, path), kind);
    case DeleteRow(a, outcome) => DeleteRowAccounts(s, a, outcome, kind);
    case BeginEmpty(bucket) =>
      StartsAreQuiet(s, Slot(bucket, ""), [], "", Conditions("", ""), ObjectPath(bucket, 0));
      QuietKeeps(s, DoBeginEmpty(s, bucket), kind);
    case ListPage(a, slots) =>
      ListingIsQuiet(s, a, slots);
      QuietKeeps(s, DoListPage(s, a, slots), kind);
    case DeleteAllRows(a, outcome) => DeleteAllRowsAccounts(s, a, outcome, kind);
  }

  lemma PartStepAccounts(s: State, step: Step, kind: Kind)
    requires Ready(s, kind) && PartStep(step) && !Leaky(s, step, kind)
    ensures AllAccounted(ApplyPart(s, step), kind)
  {
    match step
    case BeginPart(part, bytes, etag, partial) => BeginPartAccounts(s, part, bytes, etag, partial, kind);
    case FinishPart(a, write) => FinishPartAccounts(s, a, write, kind);
    case CommitPart(a, fails) => CommitPartAccounts(s, a, fails, kind);
  }

  lemma CompleteStepAccounts(s: State, step: Step, kind: Kind)
    requires Ready(s, kind) && CompleteStep(step) && !Leaky(s, step, kind)
    ensures AllAccounted(ApplyComplete(s, step), kind)
  {
    match step
    case BeginComplete(upload, parts, cond) =>
      ClaimsAreQuiet(s, upload, parts, cond);
      QuietKeeps(s, DoBeginComplete(s, upload, parts, cond), kind);
    case SelectParts(a, minPartSize, fails) =>
      SelectionIsQuiet(s, a, minPartSize, fails);
      QuietKeeps(s, DoSelectParts(s, a, minPartSize, fails), kind);
    case CopyPart(a, fails, cleaned) =>
      AssemblyIsQuiet(s, a, fails, cleaned);
      QuietKeeps(s, DoCopyPart(s, a, fails, cleaned), kind);
    case FinishAssembly(a, write) => FinishAssemblyAccounts(s, a, write, kind);
  }

  lemma SettleStepAccounts(s: State, step: Step, kind: Kind)
    requires Ready(s, kind) && SettleStep(step) && !Leaky(s, step, kind)
    ensures AllAccounted(ApplySettle(s, step), kind)
  {
    match step
    case CommitComplete(a, etag, fails) => CommitCompleteAccounts(s, a, etag, fails, kind);
    case DiscardAssembled(a, removed) => DiscardAssembledAccounts(s, a, removed, kind);
    case UnlinkReplaced(a, removed) => UnlinkReplacedAccounts(s, a, removed, kind);
    case Release(a, outcome) =>
      ReleaseIsQuiet(s, a, outcome);
      QuietKeeps(s, DoRelease(s, a, outcome), kind);
  }

  lemma AbortStepAccounts(s: State, step: Step, kind: Kind)
    requires Ready(s, kind) && AbortStep(step) && !Leaky(s, step, kind)
    ensures AllAccounted(ApplyAbort(s, step), kind)
  {
    match step
    case BeginAbort(upload) =>
      ClaimsAreQuiet(s, upload, [], Conditions("", ""));
      QuietKeeps(s, DoBeginAbort(s, upload), kind);
    case DeleteClaimed(a, outcome) => DeleteClaimedAccounts(s, a, outcome, kind);
    case RemovePartFiles(a, files, stops) => RemovePartFilesAccounts(s, a, files, stops, kind);
  }

  lemma StaleStepAccounts(s: State, step: Step, kind: Kind)
    requires Ready(s, kind) && StaleStep(step) && !Leaky(s, step, kind)
    ensures AllAccounted(ApplyStale(s, step), kind)
  {
    match step
    case BeginStale(upload) =>
      ClaimsAreQuiet(s, upload, [], Conditions("", ""));
      QuietKeeps(s, DoBeginStale(s, upload), kind);
    case ClaimStale(a, fails) =>
      AssemblyIsQuiet(s, a, fails, false);
      QuietKeeps(s, DoClaimStale(s, a, fails), kind);
    case DeleteStale(a, outcome) => DeleteStaleAccounts(s, a, outcome, kind);
  }

  lemma BucketStepAccounts(s: State, step: Step, kind: Kind)
    requires Ready(s, kind) && BucketStep(step) && !Leaky(s, step, kind)
    ensures AllAccounted(ApplyBucket(s, step), kind)
  {
    match step
    case CreateBucket(bucket) =>
      CreationIsQuiet(s, Slot(bucket, ""));
      QuietKeeps(s, DoCreateBucket(s, bucket), kind);
    case CreateUpload(slot) =>
      CreationIsQuiet(s, slot);
      QuietKeeps(s, DoCreateUpload(s, slot), kind);
    case ForceDelete(bucket, paths) => ForceDeleteAccounts(s, bucket, paths, kind);
  }

  lemma BucketDeleteStepAccounts(s: State, step: Step, kind: Kind)
    requires Ready(s, kind) && BucketDeleteStep(step) && !Leaky(s, step, kind)
    ensures AllAccounted(ApplyBucketDelete(s, step), kind)
  {
    match step
    case BeginBucketDelete(bucket) =>
      CreationIsQuiet(s, Slot(bucket, ""));
      QuietKeeps(s, DoBeginBucketDelete(s, bucket), kind);
    case ListUploads(a, uploads) =>
      BucketDeletionIsQuiet(s, a, uploads);
      QuietKeeps(s, DoListUploads(s, a, uploads), kind);
  }

  lemma BucketDropStepAccounts(s: State, step: Step, kind: Kind)
    requires Ready(s, kind) && BucketDropStep(step) && !Leaky(s, step, kind)
    ensures AllAccounted(ApplyBucketDrop(s, step), kind)
  {
    match step
    case DropUploadOf(a, outcome) => DropUploadOfAccounts(s, a, outcome, kind);
    case DropBucket(a) =>
      BucketDeletionIsQuiet(s, a, []);
      QuietKeeps(s, DoDropBucket(s, a), kind);
  }

  lemma TidyStepAccounts(s: State, step: Step, kind: Kind)
    requires Ready(s, kind) && TidyStep(step)
    ensures AllAccounted(ApplyTidy(s, step), kind)
  {
    match step
    case PurgeTemp(id) =>
      RecoveryIsQuiet(s, id, ObjectPath("", 0));
      QuietKeeps(s, DoPurgeTemp(s, id), kind);
    case RemoveOrphan(path) =>
      RecoveryIsQuiet(s, 0, path);
      QuietKeeps(s, DoRemoveOrphan(s, path), kind);
    case RemoveOrphanParts(path) =>
      RecoveryIsQuiet(s, 0, path);
      QuietKeeps(s, DoRemoveOrphanParts(s, path), kind);
  }

  lemma RestartStepAccounts(s: State, step: Step, kind: Kind)
    requires Ready(s, kind) && RestartStep(step) && !Leaky(s, step, kind)
    ensures AllAccounted(ApplyRestart(s, step), kind)
  {
    RecoveryIsQuiet(s, 0, ObjectPath("", 0));
    QuietKeeps(s, DoFinishRecovery(s), kind);
  }

  lemma StepAccounts(s: State, step: Step, kind: Kind)
    requires Inv(s) && AllAccounted(s, kind) && !Leaky(s, step, kind)
    ensures AllAccounted(Apply(s, step), kind)
  {
    ReadyIn(s, kind);
    if WriteStep(step) {
      WriteStepAccounts(s, step, kind);
    } else if DeleteStep(step) {
      DeleteStepAccounts(s, step, kind);
    } else if PartStep(step) {
      PartStepAccounts(s, step, kind);
    } else if CompleteStep(step) {
      CompleteStepAccounts(s, step, kind);
    } else if SettleStep(step) {
      SettleStepAccounts(s, step, kind);
    } else if AbortStep(step) {
      AbortStepAccounts(s, step, kind);
    } else if StaleStep(step) {
      StaleStepAccounts(s, step, kind);
    } else if BucketStep(step) {
      BucketStepAccounts(s, step, kind);
    } else if BucketDeleteStep(step) {
      BucketDeleteStepAccounts(s, step, kind);
    } else if BucketDropStep(step) {
      BucketDropStepAccounts(s, step, kind);
    } else if TidyStep(step) {
      TidyStepAccounts(s, step, kind);
    } else {
      RestartStepAccounts(s, step, kind);
    }
  }

  // ---- Runs ----

  ghost predicate NoLeak(s: State, more: seq<Step>, kind: Kind)
  {
    forall i :: 0 <= i < |more| ==> !Leaky(RunFrom(s, more[..i]), more[i], kind)
  }

  lemma NoLeakBefore(s: State, more: seq<Step>, kind: Kind)
    requires more != [] && NoLeak(s, more, kind)
    ensures NoLeak(s, more[..|more| - 1], kind)
    ensures !Leaky(RunFrom(s, more[..|more| - 1]), more[|more| - 1], kind)
  {
    var init := more[..|more| - 1];
    forall i | 0 <= i < |init| ensures !Leaky(RunFrom(s, init[..i]), init[i], kind) {
      assert init[..i] == more[..i] && init[i] == more[i];
    }
  }

  /** As long as nothing leaks, every file of the kind stays accounted for, whatever interleaves. */
  lemma {:induction false} RunAccounts(s: State, more: seq<Step>, kind: Kind)
    requires Inv(s) && AllAccounted(s, kind) && NoLeak(s, more, kind)
    ensures AllAccounted(RunFrom(s, more), kind)
  {
    if more == [] {
      assert RunFrom(s, more) == s;
    } else {
      var init := more[..|more| - 1];
      NoLeakBefore(s, more, kind);
      RunAccounts(s, init, kind);
      RunFromKeeps(s, init);
      StepAccounts(RunFrom(s, init), more[|more| - 1], kind);
    }
  }

  /** A finished recovery has accounted for every object file that leaked before. */
  lemma RecoveryAccounts(steps: seq<Step>)
    requires !Run(steps).serving && Apply(Run(steps), FinishRecovery).serving
    ensures AllAccounted(Apply(Run(steps), FinishRecovery), ObjectFiles)
  {
    var t := Apply(Run(steps), FinishRecovery);
    Guarantees.RecoveryIsExact(steps);
    forall p | p in t.disk && IsOf(ObjectFiles, p) ensures Accounted(t, p) {
      assert p in Guarantees.ObjectFiles(t);
    }
  }

  function FilesOf(s: State, kind: Kind): set<Path>
  {
    set p | p in s.disk && IsOf(kind, p)
  }

  function NamedFiles(s: State, kind: Kind): set<Path>
  {
    if kind.ObjectFiles? then set k | k in s.db.objects :: s.db.objects[k].path
    else set x | x in s.db.parts :: s.db.parts[x].path
  }

  lemma ExactWhenIdle(t: State, kind: Kind)
    requires Inv(t) && AllAccounted(t, kind) && t.actors == map[]
    ensures FilesOf(t, kind) == NamedFiles(t, kind)
  {
    InvIs(t);
    forall x | x in t.db.parts ensures t.db.parts[x].path.PartPath? && t.db.parts[x].path in t.disk {
      assert PartRowOk(t, x);
    }
    forall p | p in t.disk && IsOf(kind, p) ensures p in NamedFiles(t, kind) {
      assert !exists a: Id :: OwedBy(t, a, p);
      assert Named(t.db, p);
    }
  }

  /**
   From the empty store, or for object files from a finished recovery, and without a leak: a store in which no
   request is left holds exactly the files that its rows name. Every failed precondition, bad digest, overwrite,
   deletion, completion and abort has cleaned up behind itself.
   */
  lemma QuietStoreIsExact(steps: seq<Step>, more: seq<Step>, kind: Kind)
    requires AllAccounted(Run(steps), kind) && NoLeak(Run(steps), more, kind)
    requires RunFrom(Run(steps), more).actors == map[]
    ensures FilesOf(RunFrom(Run(steps), more), kind) == NamedFiles(RunFrom(Run(steps), more), kind)
  {
    RunKeeps(steps);
    RunAccounts(Run(steps), more, kind);
    RunFromKeeps(Run(steps), more);
    ExactWhenIdle(RunFrom(Run(steps), more), kind);
  }

  /** So from the empty store on, files and rows are one to one. */
  lemma IdleFilesAreTheRows(steps: seq<Step>)
    requires NoLeak(INITIAL, steps, ObjectFiles) && NoLeak(INITIAL, steps, PartFiles) && Run(steps).actors == map[]
    ensures Run(steps).disk.Keys == NamedFiles(Run(steps), ObjectFiles) + NamedFiles(Run(steps), PartFiles)
  {
    assert Run([]) == INITIAL;
    QuietStoreIsExact([], steps, ObjectFiles);
    QuietStoreIsExact([], steps, PartFiles);
    var t := Run(steps);
    assert t.disk.Keys == FilesOf(t, ObjectFiles) + FilesOf(t, PartFiles);
  }
}
