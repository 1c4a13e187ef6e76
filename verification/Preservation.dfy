/** Every step keeps the invariant: one lemma a step. */
module Preservation {
  import opened Wrappers
  import opened Metadata
  import opened History
  import opened Lifecycle
  import opened Invariant
  import opened CompletedParts

  /** Nothing but the program counter of a changes. */
  lemma Turned(s: State, a: Id, pc: Actor, temps: set<Id>)
    requires Inv(s) && a in s.actors && ActorOk(s, a, pc)
    requires Holds(pc).Some? ==> Holds(pc) == Holds(s.actors[a])
    ensures Inv(Become(s.(temps := temps), a, pc))
  {
    InvAt(s, a);
    var t := Become(s.(temps := temps), a, pc);
    EffectNone(s, t, s.actors, a);
    ActorNone(s, t, a, pc);
    Moved(s, t, a, pc);
  }

  lemma Stopped(s: State, a: Id, temps: set<Id>)
    requires Inv(s) && a in s.actors
    ensures Inv(End(s.(temps := temps), a))
  {
    InvAt(s, a);
    var t := End(s.(temps := temps), a);
    EffectNone(s, t, s.actors, a);
    Ended(s, t, a);
  }

  /** What a request relies on does not mention temporary files or program counters. */
  lemma ActorNone(s: State, t: State, a: Id, pc: Actor)
    requires ActorOk(s, a, pc)
    requires t.db == s.db && t.disk == s.disk && t.log == s.log && t.next == s.next
    ensures ActorOk(t, a, pc)
  {
    assert Keeps(s, t, a, pc) by {
      if Holds(pc).Some? && Holds(pc).value in t.db.uploads {
        assert ClaimKept(s, t, Holds(pc).value);
      }
    }
    ActorKept(s, t, a, pc);
  }

  /** A request starts without touching rows or files. */
  lemma Started(s: State, pc: Actor, temps: set<Id>)
    requires Inv(s) && s.serving && Holds(pc).None?
    requires ActorOk(s.(next := s.next + 1), s.next, pc)
    ensures Inv(Spawn(s.(temps := temps), pc))
  {
    InvIs(s);
    var t := Spawn(s.(temps := temps), pc);
    EffectNone(s, t, s.actors, s.next);
    ActorNone(s.(next := s.next + 1), t, s.next, pc);
    Moved(s, t, s.next, pc);
  }

  lemma FreshUncommitted(s: State)
    requires WorldOk(s)
    ensures Uncommitted(s, s.next)
  {
  }

  /** Request a writes a file under its own number and moves on. */
  lemma WroteFile(s: State, a: Id, p: Path, f: File, pc: Actor, temps: set<Id>)
    requires Inv(s) && a in s.actors && Uncommitted(s, a) && p.id == a
    requires ActorOk(PutFile(s, p, f), a, pc)
    requires Holds(pc).Some? ==> Holds(pc) == Holds(s.actors[a])
    ensures Inv(Become(PutFile(s.(temps := temps), p, f), a, pc))
  {
    InvAt(s, a);
    var t := Become(PutFile(s.(temps := temps), p, f), a, pc);
    EffectFile(s, t, s.actors, a, p, f);
    ActorNone(PutFile(s, p, f), t, a, pc);
    Moved(s, t, a, pc);
  }

  lemma WroteFileAndStopped(s: State, a: Id, p: Path, f: File, temps: set<Id>)
    requires Inv(s) && a in s.actors && Uncommitted(s, a) && p.id == a
    ensures Inv(End(PutFile(s.(temps := temps), p, f), a))
  {
    InvAt(s, a);
    var t := End(PutFile(s.(temps := temps), p, f), a);
    EffectFile(s, t, s.actors, a, p, f);
    Ended(s, t, a);
  }

  /** Request a removes files it may remove and moves on. */
  lemma Dropped(s: State, a: Id, ps: set<Path>, pc: Actor)
    requires Inv(s) && a in s.actors
    requires forall p :: p in ps ==> MayDrop(s, a, p)
    requires ActorOk(DropFiles(s, ps), a, pc)
    requires Holds(pc).Some? ==> Holds(pc) == Holds(s.actors[a])
    ensures Inv(Become(DropFiles(s, ps), a, pc))
  {
    InvAt(s, a);
    var t := Become(DropFiles(s, ps), a, pc);
    EffectDrop(s, t, s.actors, a, ps);
    ActorNone(DropFiles(s, ps), t, a, pc);
    Moved(s, t, a, pc);
  }

  lemma DroppedAndStopped(s: State, a: Id, ps: set<Path>)
    requires Inv(s) && a in s.actors
    requires forall p :: p in ps ==> MayDrop(s, a, p)
    ensures Inv(End(DropFiles(s, ps), a))
  {
    InvAt(s, a);
    var t := End(DropFiles(s, ps), a);
    EffectDrop(s, t, s.actors, a, ps);
    Ended(s, t, a);
  }

  // ---- PutObject and CopyObject ----

  lemma BeginPutKeeps(s: State, slot: Slot, bytes: Bytes, etag: string, cond: Conditions)
    requires Inv(s)
    ensures Inv(DoBeginPut(s, slot, bytes, etag, cond))
  {
    InvIs(s);
    if s.serving {
      FreshUncommitted(s);
      Started(s, Writing(slot, bytes, etag, cond, Uploaded), s.temps + {s.next});
    }
  }

  lemma BeginCopyKeeps(s: State, source: Path, slot: Slot, cond: Conditions)
    requires Inv(s)
    ensures Inv(DoBeginCopy(s, source, slot, cond))
  {
    InvIs(s);
    if DoBeginCopy(s, source, slot, cond) != s {
      FreshUncommitted(s);
      var pc := Writing(slot, s.disk[source].bytes, Versions(s.log)[source].etag, cond, CopiedFrom(source));
      Started(s, pc, s.temps + {s.next});
    }
  }

  lemma FinishWriteKeeps(s: State, a: Id, write: WriteOutcome)
    requires Inv(s)
    ensures Inv(DoFinishWrite(s, a, write))
  {
    InvAt(s, a);
    if a in s.actors && s.actors[a].Writing? {
      var pc := s.actors[a];
      var p, f, temps := ObjectPath(pc.slot.bucket, a), File(pc.bytes, true), s.temps - {a};
      match write
      case WriteOk =>
        WroteFile(s, a, p, f, Written(pc.slot, pc.bytes, pc.etag, pc.cond, pc.origin), temps);
      case WriteFailed(cleaned) => Stopped(s, a, if cleaned then temps else s.temps);
      case WriteOrphaned => WroteFileAndStopped(s, a, p, f, temps);
    }
  }

  lemma RejectDigestKeeps(s: State, a: Id)
    requires Inv(s)
    ensures Inv(DoRejectDigest(s, a))
  {
    InvAt(s, a);
    if a in s.actors && s.actors[a].Written? {
      Turned(s, a, Discarding(ObjectPath(s.actors[a].slot.bucket, a)), s.temps);
    } else if a in s.actors && s.actors[a].PartWritten? {
      Turned(s, a, Discarding(PartPath(s.actors[a].part.upload, s.actors[a].part.number, a)), s.temps);
    }
  }

  lemma CommitWriteKeeps(s: State, a: Id, fails: bool)
    requires Inv(s)
    ensures Inv(DoCommitWrite(s, a, fails))
  {
    InvAt(s, a);
    if a in s.actors && s.actors[a].Written? {
      var pc := s.actors[a];
      var path := ObjectPath(pc.slot.bucket, a);
      var r := Replace(s.db, pc.slot, ObjectRow(path, pc.etag), pc.cond);
      if fails || r.Err? {
        Turned(s, a, Discarding(path), s.temps);
      } else {
        var (db, existing) := r.value;
        var e := Stored(pc.slot, path, pc.etag, pc.bytes, pc.cond, pc.origin, existing);
        var t := DoCommitWrite(s, a, fails);
        EffectStore(s, t, s.actors, a, e);
        ReplacedDroppable(s, t, e);
        Moved(s, t, a, t.actors[a]);
      }
    }
  }

  /** The row a commit replaced names a version nothing refers to any more. */
  lemma ReplacedDroppable(s: State, t: State, e: Event)
    requires WorldOk(s) && e.Stored? && EventOk(s.log, e)
    requires t.db.objects == s.db.objects[e.slot := ObjectRow(e.path, e.etag)]
    requires forall x :: x in t.db.parts ==> x in s.db.parts && t.db.parts[x] == s.db.parts[x]
    requires t.log == s.log + [e]
    ensures e.replaced.Some? ==> Droppable(t, [e.replaced.value.path])
  {
    if e.replaced.Some? {
      var p := e.replaced.value.path;
      AppendUnfolds(s.log, e);
      RowsAreVersions(s.log);
      forall x | x in t.db.parts ensures t.db.parts[x].path != p {
        assert PartRowOk(s, x);
      }
    }
  }

  lemma DiscardKeeps(s: State, a: Id, removed: bool)
    requires Inv(s)
    ensures Inv(DoDiscard(s, a, removed))
  {
    InvAt(s, a);
    if a in s.actors && s.actors[a].Discarding? {
      if removed {
        DroppedAndStopped(s, a, {s.actors[a].path});
      } else {
        Stopped(s, a, s.temps);
      }
    }
  }

  lemma UnlinkKeeps(s: State, a: Id, removed: bool, stops: bool)
    requires Inv(s)
    ensures Inv(DoUnlink(s, a, removed, stops))
  {
    InvAt(s, a);
    if a in s.actors && s.actors[a].Unlinking? {
      var paths := s.actors[a].paths;
      if paths == [] {
        Stopped(s, a, s.temps);
      } else {
        assert MayDrop(s, a, paths[0]);
        var ps := if removed then {paths[0]} else {};
        assert DropFiles(s, {}) == s;
        if stops {
          DroppedAndStopped(s, a, ps);
        } else {
          Dropped(s, a, ps, Unlinking(paths[1..]));
        }
      }
    }
  }

  // ---- DeleteObject and EmptyBucket ----

  lemma BeginDeleteKeeps(s: State, slot: Slot, path: Path)
    requires Inv(s)
    ensures Inv(DoBeginDelete(s, slot, path))
  {
    InvIs(s);
    if DoBeginDelete(s, slot, path) != s {
      Started(s, DeleteLoaded(slot, path), s.temps);
    }
  }

  lemma DeleteRowKeeps(s: State, a: Id, outcome: Outcome)
    requires Inv(s)
    ensures Inv(DoDeleteRow(s, a, outcome))
  {
    InvAt(s, a);
    if a in s.actors && s.actors[a].DeleteLoaded? {
      var pc := s.actors[a];
      var r := DeleteObject(s.db, pc.slot);
      if r.Err? || outcome.Failed? {
        Stopped(s, a, s.temps);
      } else {
        var t := DoDeleteRow(s, a, outcome);
        EffectRemove(s, t, s.actors, a, {pc.slot});
        if outcome.Done? {
          VersionsDroppable(s, t, {pc.slot}, [pc.path]);
          Moved(s, t, a, t.actors[a]);
        } else {
          Ended(s, t, a);
        }
      }
    }
  }

  /** Once the rows of these keys are gone, no version these keys ever had is referred to. */
  lemma VersionsDroppable(s: State, t: State, slots: set<Slot>, paths: seq<Path>)
    requires WorldOk(s)
    requires t.db.objects == s.db.objects - slots && t.db.parts == s.db.parts
    requires t.log == s.log + [Removed(slots)]
    requires forall i :: 0 <= i < |paths| ==>
               paths[i] in Versions(s.log) && Versions(s.log)[paths[i]].ObjectVersion?
               && (Versions(s.log)[paths[i]].slot in slots || Versions(s.log)[paths[i]].slot !in s.db.objects)
    ensures Droppable(t, paths)
  {
    AppendUnfolds(s.log, Removed(slots));
    RowsAreVersions(s.log);
    forall i | 0 <= i < |paths| ensures Unreferenced(t.db, paths[i]) {
      forall x | x in t.db.parts ensures t.db.parts[x].path != paths[i] {
        assert PartRowOk(s, x);
      }
    }
  }

  lemma BeginEmptyKeeps(s: State, bucket: Bucket)
    requires Inv(s)
    ensures Inv(DoBeginEmpty(s, bucket))
  {
    InvIs(s);
    if s.serving {
      Started(s, EmptyListing(bucket, []), s.temps);
    }
  }

  lemma ListPageKeeps(s: State, a: Id, slots: seq<Slot>)
    requires Inv(s)
    ensures Inv(DoListPage(s, a, slots))
  {
    InvAt(s, a);
    if a in s.actors && s.actors[a].EmptyListing? && RowsIn(s.db, s.actors[a].bucket, slots) {
      var pc := s.actors[a];
      var paths := pc.paths + PathsOf(s.db, slots);
      RowsAreVersions(s.log);
      forall i | 0 <= i < |paths| ensures CommittedIn(s, pc.bucket, paths[i]) {
        if i < |pc.paths| {
          assert CommittedIn(s, pc.bucket, pc.paths[i]);
        } else {
          assert paths[i] == s.db.objects[slots[i - |pc.paths|]].path;
        }
      }
      Turned(s, a, EmptyListing(pc.bucket, paths), s.temps);
    }
  }

  lemma DeleteAllRowsKeeps(s: State, a: Id, outcome: Outcome)
    requires Inv(s)
    ensures Inv(DoDeleteAllRows(s, a, outcome))
  {
    InvAt(s, a);
    if a in s.actors && s.actors[a].EmptyListing? {
      var pc := s.actors[a];
      if outcome.Failed? {
        Stopped(s, a, s.temps);
      } else {
        var t := DoDeleteAllRows(s, a, outcome);
        var slots := SlotsIn(s.db, pc.bucket);
        EffectRemove(s, t, s.actors, a, slots);
        if outcome.Done? {
          forall i | 0 <= i < |pc.paths|
            ensures pc.paths[i] in Versions(s.log) && Versions(s.log)[pc.paths[i]].ObjectVersion?
                    && (Versions(s.log)[pc.paths[i]].slot in slots || Versions(s.log)[pc.paths[i]].slot !in s.db.objects)
          {
            assert CommittedIn(s, pc.bucket, pc.paths[i]);
          }
          VersionsDroppable(s, t, slots, pc.paths);
          Moved(s, t, a, t.actors[a]);
        } else {
          Ended(s, t, a);
        }
      }
    }
  }

  // ---- UploadPart ----

  lemma BeginPartKeeps(s: State, part: PartSlot, bytes: Bytes, etag: string, partial: Bytes)
    requires Inv(s)
    ensures Inv(DoBeginPart(s, part, bytes, etag, partial))
  {
    InvIs(s);
    if s.serving && part.upload < s.next {
      FreshUncommitted(s);
      var t := DoBeginPart(s, part, bytes, etag, partial);
      EffectFile(s, t, s.actors, s.next, PartPath(part.upload, part.number, s.next), File(partial, false));
      Moved(s, t, s.next, t.actors[s.next]);
    }
  }

  lemma FinishPartKeeps(s: State, a: Id, write: WriteOutcome)
    requires Inv(s)
    ensures Inv(DoFinishPart(s, a, write))
  {
    InvAt(s, a);
    if a in s.actors && s.actors[a].PartWriting? {
      var pc := s.actors[a];
      var path := PartPath(pc.part.upload, pc.part.number, a);
      if path !in s.disk {
        Stopped(s, a, s.temps);
      } else {
        match write
        case WriteOk => WroteFile(s, a, path, File(pc.bytes, true), PartWritten(pc.part, pc.bytes, pc.etag), s.temps);
        case WriteFailed(cleaned) =>
          if cleaned {
            DroppedAndStopped(s, a, {path});
          } else {
            Stopped(s, a, s.temps);
          }
        case WriteOrphaned => Stopped(s, a, s.temps);
      }
    }
  }

  lemma CommitPartKeeps(s: State, a: Id, fails: bool)
    requires Inv(s)
    ensures Inv(DoCommitPart(s, a, fails))
  {
    InvAt(s, a);
    if a in s.actors && s.actors[a].PartWritten? {
      var pc := s.actors[a];
      var path := PartPath(pc.part.upload, pc.part.number, a);
      var row := StoredPart(path, |pc.bytes|, pc.etag);
      var r := AddPart(s.db, pc.part, row);
      if fails || r.Err? {
        Turned(s, a, Discarding(path), s.temps);
      } else {
        var t := DoCommitPart(s, a, fails);
        ActiveNotHeld(s, a, pc.part.upload);
        EffectAddPart(s, t, s.actors, a, pc.part, row, pc.bytes);
        ReplacedPartDroppable(s, t, a, pc.part, row, pc.bytes);
        Moved(s, t, a, t.actors[a]);
      }
    }
  }

  /** An active upload has no claimer. */
  lemma ActiveNotHeld(s: State, a: Id, u: Id)
    requires Inv(s) && u in s.db.uploads && s.db.uploads[u].status == Active
    ensures NoOtherHolds(s.actors, a, Some(u))
  {
    InvAt(s, a);
    forall b | b in s.actors && b != a ensures Holds(s.actors[b]) != Some(u) {
      assert ActorOk(s, b, s.actors[b]);
    }
  }

  lemma ReplacedPartDroppable(s: State, t: State, a: Id, x: PartSlot, row: PartRow, bytes: Bytes)
    requires WorldOk(s) && Uncommitted(s, a) && row.path == PartPath(x.upload, x.number, a)
    requires t.db == s.db.(parts := s.db.parts[x := row])
    requires t.log == s.log + [PartStored(x, row.path, row.etag, bytes)]
    ensures x in s.db.parts ==> Droppable(t, [s.db.parts[x].path])
  {
    if x in s.db.parts {
      var p := s.db.parts[x].path;
      assert PartRowOk(s, x);
      AppendUnfolds(s.log, PartStored(x, row.path, row.etag, bytes));
      RowsAreVersions(s.log);
      forall y | y in t.db.parts ensures t.db.parts[y].path != p {
        if y != x {
          assert PartRowOk(s, y);
        }
      }
    }
  }

  // ---- CompleteMultipartUpload ----

  /** A request claims an active upload: it starts, or moves on, as its only claimer. */
  lemma Claimed(s: State, t: State, a: Id, u: Id, status: Status, pc: Actor)
    requires Inv(s) && s.serving && ClaimUpload(s.db, u, status).Ok? && status != Active
    requires a in s.actors || a == s.next
    requires t.db == ClaimUpload(s.db, u, status).value.0 && t.disk == s.disk && t.log == s.log
    requires t.serving && t.actors == s.actors[a := pc] && s.next <= t.next && a < t.next
    requires ActorOk(t, a, pc) && Holds(pc) == Some(u)
    ensures Inv(t)
  {
    InvAt(s, a);
    ActiveNotHeld(s, a, u);
    EffectStatus(s, t, s.actors, a, u, status);
    Moved(s, t, a, pc);
  }

  lemma BeginCompleteKeeps(s: State, upload: Id, parts: seq<CompletePart>, cond: Conditions)
    requires Inv(s)
    ensures Inv(DoBeginComplete(s, upload, parts, cond))
  {
    InvIs(s);
    var t := DoBeginComplete(s, upload, parts, cond);
    if s.serving && Normalize(parts).Ok? && ClaimUpload(s.db, upload, Completing).Ok? {
      FreshUncommitted(s);
      NormalizedMeaning(parts);
      assert NormalForm(Normalize(parts).value);
      Claimed(s, t, s.next, upload, Completing, t.actors[s.next]);
    }
  }

  lemma SelectPartsKeeps(s: State, a: Id, minPartSize: int, fails: bool)
    requires Inv(s)
    ensures Inv(DoSelectParts(s, a, minPartSize, fails))
  {
    InvAt(s, a);
    if a in s.actors && s.actors[a].CompleteClaimed? {
      var pc := s.actors[a];
      var r := Matched(pc.requested, PartsByNumber(s.db, pc.upload), minPartSize);
      if fails || r.Err? {
        Turned(s, a, Releasing(pc.upload), s.temps);
      } else {
        assert PartsCurrent(s, pc.upload, pc.requested, r.value) by {
          forall i | 0 <= i < |r.value|
            ensures PartSlot(pc.upload, pc.requested[i].number) in s.db.parts
            ensures s.db.parts[PartSlot(pc.upload, pc.requested[i].number)] == r.value[i]
            ensures RightPart(s.log, pc.requested[i], r.value[i])
          {
            assert PartFits(pc.requested, PartsByNumber(s.db, pc.upload), minPartSize, i);
            assert PartRowOk(s, PartSlot(pc.upload, pc.requested[i].number));
          }
        }
        Turned(s, a, Assembling(pc.upload, pc.slot, pc.requested, pc.cond, r.value, 0, []), s.temps + {a});
      }
    }
  }

  lemma CopyPartKeeps(s: State, a: Id, fails: bool, cleaned: bool)
    requires Inv(s)
    ensures Inv(DoCopyPart(s, a, fails, cleaned))
  {
    InvAt(s, a);
    if a in s.actors && s.actors[a].Assembling? && s.actors[a].done < |s.actors[a].parts| {
      var pc := s.actors[a];
      var path := pc.parts[pc.done].path;
      if fails || path !in s.disk {
        Turned(s, a, Releasing(pc.upload), if cleaned then s.temps - {a} else s.temps);
      } else {
        var paths := Paths(pc.parts);
        assert paths[..pc.done + 1][..pc.done] == paths[..pc.done];
        assert Joined(Versions(s.log), paths[..pc.done + 1]) == pc.bytes + s.disk[path].bytes;
        Turned(s, a, pc.(done := pc.done + 1, bytes := pc.bytes + s.disk[path].bytes), s.temps);
      }
    }
  }

  lemma FinishAssemblyKeeps(s: State, a: Id, write: WriteOutcome)
    requires Inv(s)
    ensures Inv(DoFinishAssembly(s, a, write))
  {
    InvAt(s, a);
    if a in s.actors && s.actors[a].Assembling? && s.actors[a].done >= |s.actors[a].parts| {
      var pc := s.actors[a];
      var p, f, temps := ObjectPath(pc.slot.bucket, a), File(pc.bytes, true), s.temps - {a};
      match write
      case WriteOk =>
        assert Paths(pc.parts)[..pc.done] == Paths(pc.parts);
        WroteFile(s, a, p, f, Assembled(pc.upload, pc.slot, pc.requested, pc.cond, pc.parts, pc.bytes), temps);
      case WriteFailed(cleaned) => Turned(s, a, Releasing(pc.upload), if cleaned then temps else s.temps);
      case WriteOrphaned => WroteFile(s, a, p, f, Releasing(pc.upload), temps);
    }
  }

  /** A completer never meets an upload that is active or aborted: it is its own claim, or gone. */
  lemma CompleterKeepsClaim(s: State, a: Id, row: ObjectRow)
    requires Inv(s) && a in s.actors && s.actors[a].Assembled?
    ensures var pc := s.actors[a];
            CompleteUpload(s.db, pc.upload, pc.slot, row, pc.cond) != Err(UploadAlreadyClaimed)
  {
    InvAt(s, a);
    assert ActorOk(s, a, s.actors[a]);
  }

  lemma CommitCompleteKeeps(s: State, a: Id, etag: string, fails: bool)
    requires Inv(s)
    ensures Inv(DoCommitComplete(s, a, etag, fails))
  {
    InvAt(s, a);
    if a in s.actors && s.actors[a].Assembled? {
      var pc := s.actors[a];
      var path := ObjectPath(pc.slot.bucket, a);
      var r := CompleteUpload(s.db, pc.upload, pc.slot, ObjectRow(path, etag), pc.cond);
      if fails || (r.Err? && !r.error.UploadNotFound?) {
        Turned(s, a, CompleteFailed(pc.upload, path), s.temps);
      } else if r.Err? {
        Turned(s, a, Discarding(path), s.temps);
      } else {
        CompletedKeeps(s, a, etag);
      }
    }
  }

  /** The selected parts are the last stored version of each requested part. */
  lemma SelectedAreLast(s: State, u: Id, requested: seq<CompletePart>, parts: seq<PartRow>)
    requires WorldOk(s) && PartsCurrent(s, u, requested, parts) && u in s.db.uploads
    ensures AllStored(s.log, u, Numbers(requested))
    ensures LastVersionPaths(s.log, u, Numbers(requested)) == Paths(parts)
    ensures forall i :: 0 <= i < |requested| ==> TagMatches(s.log, u, requested[i])
  {
    var numbers := Numbers(requested);
    forall i | 0 <= i < |numbers|
      ensures PartSlot(u, numbers[i]) in LastParts(s.log)
      ensures LastParts(s.log)[PartSlot(u, numbers[i])] == Paths(parts)[i]
      ensures TagMatches(s.log, u, requested[i])
    {
      assert RightPart(s.log, requested[i], parts[i]);
      assert PartRowOk(s, PartSlot(u, requested[i].number));
    }
  }

  lemma CompletedKeeps(s: State, a: Id, etag: string)
    requires Inv(s) && a in s.actors && s.actors[a].Assembled?
    requires var pc := s.actors[a];
             CompleteUpload(s.db, pc.upload, pc.slot, ObjectRow(ObjectPath(pc.slot.bucket, a), etag), pc.cond).Ok?
    ensures Inv(DoCommitComplete(s, a, etag, false))
  {
    InvAt(s, a);
    var pc := s.actors[a];
    var path := ObjectPath(pc.slot.bucket, a);
    var t := DoCommitComplete(s, a, etag, false);
    var existing := Lookup(s.db.objects, pc.slot);
    var e := Stored(pc.slot, path, etag, pc.bytes, pc.cond, AssembledFrom(pc.upload, pc.requested), existing);
    SelectedAreLast(s, pc.upload, pc.requested, pc.parts);
    assert EventOk(s.log, e);
    var m := WithDb(s, DropUpload(s.db, pc.upload));
    EffectDropUpload(s, m, s.actors, a, pc.upload);
    assert t.db == Upsert(m.db, pc.slot, ObjectRow(path, etag));
    EffectStore(m, t, s.actors, a, e);
    ReplacedDroppable(m, t, e);
    Moved(s, t, a, t.actors[a]);
  }

  lemma DiscardAssembledKeeps(s: State, a: Id, removed: bool)
    requires Inv(s)
    ensures Inv(DoDiscardAssembled(s, a, removed))
  {
    InvAt(s, a);
    if a in s.actors && s.actors[a].CompleteFailed? {
      var ps := if removed then {s.actors[a].path} else {};
      assert DropFiles(s, {}) == s;
      Dropped(s, a, ps, Releasing(s.actors[a].upload));
    }
  }

  lemma UnlinkReplacedKeeps(s: State, a: Id, removed: bool)
    requires Inv(s)
    ensures Inv(DoUnlinkReplaced(s, a, removed))
  {
    InvAt(s, a);
    if a in s.actors && s.actors[a].CompleteSettled? {
      var pc := s.actors[a];
      var ps := if removed && pc.replaced.Some? then {pc.replaced.value} else {};
      assert DropFiles(s, {}) == s;
      if pc.replaced.Some? {
        assert [pc.replaced.value][0] == pc.replaced.value;
      }
      Dropped(s, a, ps, RemovingParts(pc.upload, None));
    }
  }

  lemma ReleaseKeeps(s: State, a: Id, outcome: Outcome)
    requires Inv(s)
    ensures Inv(DoRelease(s, a, outcome))
  {
    InvAt(s, a);
    if a in s.actors && s.actors[a].Releasing? {
      var u := s.actors[a].upload;
      var r := SetUploadStatus(s.db, u, Active);
      if r.Ok? && !outcome.Failed? {
        var t := DoRelease(s, a, outcome);
        assert NoOtherHolds(s.actors, a, Some(u));
        EffectStatus(s, t, s.actors, a, u, Active);
        Ended(s, t, a);
      } else {
        Stopped(s, a, s.temps);
      }
    }
  }

  // ---- AbortMultipartUpload and the cleaner ----

  lemma BeginAbortKeeps(s: State, upload: Id)
    requires Inv(s)
    ensures Inv(DoBeginAbort(s, upload))
  {
    InvIs(s);
    var t := DoBeginAbort(s, upload);
    if s.serving && ClaimUpload(s.db, upload, Aborted).Ok? {
      Claimed(s, t, s.next, upload, Aborted, AbortClaimed(upload));
    }
  }

  lemma BeginStaleKeeps(s: State, upload: Id)
    requires Inv(s)
    ensures Inv(DoBeginStale(s, upload))
  {
    InvIs(s);
    if s.serving && upload in s.db.uploads {
      Started(s, StaleSeen(upload, s.db.uploads[upload].status), s.temps);
    }
  }

  lemma ClaimStaleKeeps(s: State, a: Id, fails: bool)
    requires Inv(s)
    ensures Inv(DoClaimStale(s, a, fails))
  {
    InvAt(s, a);
    if a in s.actors && s.actors[a].StaleSeen? && s.actors[a].status == Active {
      var u := s.actors[a].upload;
      var r := ClaimUpload(s.db, u, Aborted);
      if fails || r.Err? {
        Stopped(s, a, s.temps);
      } else {
        Claimed(s, DoClaimStale(s, a, fails), a, u, Aborted, AbortClaimed(u));
      }
    }
  }

  /** Request a deletes an upload row and moves on to remove its part files, or to give back its claim. */
  lemma UploadDeleted(s: State, a: Id, u: Id, pc: Actor)
    requires Inv(s) && a in s.actors && u in s.db.uploads
    requires pc == Releasing(u) || (pc.RemovingParts? && pc.upload == u)
    requires pc.Releasing? ==> Holds(s.actors[a]) == Some(u)
    requires pc.RemovingParts? && pc.after.Some? ==> ActorOk(s, a, DeletingBucket(pc.after.value))
    ensures Inv(Become(WithDb(s, DropUpload(s.db, u)), a, pc))
  {
    InvAt(s, a);
    var t := Become(WithDb(s, DropUpload(s.db, u)), a, pc);
    EffectDropUpload(s, t, s.actors, a, u);
    Moved(s, t, a, pc);
  }

  lemma UploadDeletedAndStopped(s: State, a: Id, u: Id)
    requires Inv(s) && a in s.actors
    ensures Inv(End(WithDb(s, DropUpload(s.db, u)), a))
  {
    InvAt(s, a);
    var t := End(WithDb(s, DropUpload(s.db, u)), a);
    EffectDropUpload(s, t, s.actors, a, u);
    Ended(s, t, a);
  }

  lemma DeleteStaleKeeps(s: State, a: Id, outcome: Outcome)
    requires Inv(s)
    ensures Inv(DoDeleteStale(s, a, outcome))
  {
    InvAt(s, a);
    if a in s.actors && s.actors[a].StaleSeen? && s.actors[a].status != Active {
      var u := s.actors[a].upload;
      if DeleteUpload(s.db, u).Err? || outcome.Failed? {
        Stopped(s, a, s.temps);
      } else {
        UploadDeleted(s, a, u, RemovingParts(u, None));
        UploadDeletedAndStopped(s, a, u);
      }
    }
  }

  lemma DeleteClaimedKeeps(s: State, a: Id, outcome: Outcome)
    requires Inv(s)
    ensures Inv(DoDeleteClaimed(s, a, outcome))
  {
    InvAt(s, a);
    if a in s.actors && s.actors[a].AbortClaimed? {
      var u := s.actors[a].upload;
      if DeleteUpload(s.db, u).Err? || outcome.Failed? {
        Turned(s, a, Releasing(u), s.temps);
      } else {
        UploadDeleted(s, a, u, if outcome.Done? then RemovingParts(u, None) else Releasing(u));
      }
    }
  }

  lemma RemovePartFilesKeeps(s: State, a: Id, files: set<Path>, stops: bool)
    requires Inv(s)
    ensures Inv(DoRemovePartFiles(s, a, files, stops))
  {
    InvAt(s, a);
    if a in s.actors && s.actors[a].RemovingParts? {
      var pc := s.actors[a];
      var ps := PartFilesOf(pc.upload, files);
      assert forall p :: p in ps ==> MayDrop(s, a, p);
      if !stops {
        Dropped(s, a, ps, pc);
        assert DropFiles(s, ps).actors == s.actors[a := pc];
      } else if pc.after.Some? {
        Dropped(s, a, ps, DeletingBucket(pc.after.value));
      } else {
        DroppedAndStopped(s, a, ps);
      }
    }
  }

  // ---- DeleteBucket, with and without force ----

  lemma BeginBucketDeleteKeeps(s: State, bucket: Bucket)
    requires Inv(s)
    ensures Inv(DoBeginBucketDelete(s, bucket))
  {
    InvIs(s);
    if s.serving && SlotsIn(s.db, bucket) == {} {
      Started(s, DeletingBucket(BucketWork(bucket, [])), s.temps);
    }
  }

  lemma ListUploadsKeeps(s: State, a: Id, uploads: seq<Id>)
    requires Inv(s)
    ensures Inv(DoListUploads(s, a, uploads))
  {
    InvAt(s, a);
    if DoListUploads(s, a, uploads) != s {
      Turned(s, a, DeletingBucket(BucketWork(s.actors[a].work.bucket, uploads)), s.temps);
    }
  }

  lemma DropUploadOfKeeps(s: State, a: Id, outcome: Outcome)
    requires Inv(s)
    ensures Inv(DoDropUploadOf(s, a, outcome))
  {
    InvAt(s, a);
    if a in s.actors && s.actors[a].DeletingBucket? && s.actors[a].work.pending != [] {
      var u := s.actors[a].work.pending[0];
      if DeleteUpload(s.db, u).Err? || outcome.Failed? {
        Stopped(s, a, s.temps);
      } else {
        var work := s.actors[a].work;
        UploadDeleted(s, a, u, RemovingParts(u, Some(BucketWork(work.bucket, work.pending[1..]))));
        UploadDeletedAndStopped(s, a, u);
      }
    }
  }

  lemma DropBucketKeeps(s: State, a: Id)
    requires Inv(s)
    ensures Inv(DoDropBucket(s, a))
  {
    InvAt(s, a);
    if a in s.actors && s.actors[a].DeletingBucket? && s.actors[a].work.pending == [] {
      var t := DoDropBucket(s, a);
      EffectSchema(s, t, s.actors, a);
      Ended(s, t, a);
    }
  }

  lemma ForcedPaths(s: State, rows: map<Slot, ObjectRow>, paths: seq<Path>)
    requires WellFormed(s.log) && Rows(s.log) == s.db.objects
    requires ExactlyPaths(paths, rows) && forall k :: k in rows ==> k in s.db.objects && rows[k] == s.db.objects[k]
    ensures forall i :: 0 <= i < |paths| ==>
              paths[i] in Versions(s.log) && Versions(s.log)[paths[i]].ObjectVersion?
              && Versions(s.log)[paths[i]].slot in rows.Keys
  {
    RowsAreVersions(s.log);
    forall i | 0 <= i < |paths|
      ensures paths[i] in Versions(s.log) && Versions(s.log)[paths[i]].ObjectVersion?
              && Versions(s.log)[paths[i]].slot in rows.Keys
    {
      assert NamesPath(rows, paths[i]);
      var k :| k in rows && rows[k].path == paths[i];
    }
  }

  lemma ForceDeleteKeeps(s: State, bucket: Bucket, paths: seq<Path>)
    requires Inv(s)
    ensures Inv(DoForceDelete(s, bucket, paths))
  {
    InvIs(s);
    var r := DeleteWithObjects(s.db, bucket);
    if s.serving && r.Ok? && ExactlyPaths(paths, r.value.1) {
      var t := DoForceDelete(s, bucket, paths);
      var slots := r.value.1.Keys;
      ForcedDeletion(s.db, bucket);
      assert t.db.objects == s.db.objects - slots;
      EffectRemove(s, t, s.actors, s.next, slots);
      ForcedPaths(s, r.value.1, paths);
      VersionsDroppable(s, t, slots, paths);
      Moved(s, t, s.next, t.actors[s.next]);
    }
  }

  lemma CreateKeeps(s: State, t: State)
    requires Inv(s)
    requires (exists bucket :: t == DoCreateBucket(s, bucket)) || (exists slot :: t == DoCreateUpload(s, slot))
    ensures Inv(t)
  {
    InvIs(s);
    if t != s {
      InvIs(t);
      EffectSchema(s, t, s.actors, s.next);
      assert forall b :: b in s.actors ==> b != s.next;
    }
  }

  // ---- Crash and startup reconciliation ----

  lemma CrashKeeps(s: State)
    requires Inv(s)
    ensures Inv(DoCrash(s))
  {
    InvIs(s);
    InvIs(DoCrash(s));
    EffectNone(s, DoCrash(s), map[], s.next);
  }

  /** Before the server serves, files no row of their bucket names, and parts of missing uploads, may go. */
  lemma RecoveryDropKeeps(s: State, p: Path)
    requires Inv(s) && !s.serving && (Orphan(s.db, p) || OrphanPart(s.db, p))
    ensures Inv(DropFiles(s, {p}))
  {
    InvIs(s);
    var t := DropFiles(s, {p});
    InvIs(t);
    forall k | k in s.db.objects ensures s.db.objects[k].path != p {
    }
    assert PartRowsOk(t) by {
      forall x | x in t.db.parts ensures PartRowOk(t, x) {
        assert PartRowOk(s, x);
      }
    }
  }

  lemma PurgeTempKeeps(s: State, id: Id)
    requires Inv(s)
    ensures Inv(DoPurgeTemp(s, id))
  {
    InvIs(s);
    InvIs(DropTemp(s, id));
    EffectNone(s, DropTemp(s, id), map[], s.next);
  }

  lemma RemoveOrphanKeeps(s: State, p: Path)
    requires Inv(s)
    ensures Inv(DoRemoveOrphan(s, p))
    ensures Inv(DoRemoveOrphanParts(s, p))
  {
    InvIs(s);
    if !s.serving && (Orphan(s.db, p) || OrphanPart(s.db, p)) {
      RecoveryDropKeeps(s, p);
    }
  }

  lemma FinishRecoveryKeeps(s: State)
    requires Inv(s)
    ensures Inv(DoFinishRecovery(s))
  {
    InvIs(s);
    InvIs(s.(serving := true));
    EffectNone(s, s.(serving := true), s.actors, s.next);
  }

  // ---- All steps, all runs ----

  lemma WriteStepKeeps(s: State, step: Step)
    requires Inv(s) && WriteStep(step)
    ensures Inv(ApplyWrite(s, step))
  {
    match step
    case BeginPut(slot, bytes, etag, cond) => BeginPutKeeps(s, slot, bytes, etag, cond);
    case BeginCopy(source, slot, cond) => BeginCopyKeeps(s, source, slot, cond);
    case FinishWrite(a, write) => FinishWriteKeeps(s, a, write);
    case RejectDigest(a) => RejectDigestKeeps(s, a);
    case CommitWrite(a, fails) => CommitWriteKeeps(s, a, fails);
    case Discard(a, removed) => DiscardKeeps(s, a, removed);
    case Unlink(a, removed, stops) => UnlinkKeeps(s, a, removed, stops);
  }

  lemma DeleteStepKeeps(s: State, step: Step)
    requires Inv(s) && DeleteStep(step)
    ensures Inv(ApplyDelete(s, step))
  {
    match step
    case BeginDelete(slot, path) => BeginDeleteKeeps(s, slot, path);
    case DeleteRow(a, outcome) => DeleteRowKeeps(s, a, outcome);
    case BeginEmpty(bucket) => BeginEmptyKeeps(s, bucket);
    case ListPage(a, slots) => ListPageKeeps(s, a, slots);
    case DeleteAllRows(a, outcome) => DeleteAllRowsKeeps(s, a, outcome);
  }

  lemma PartStepKeeps(s: State, step: Step)
    requires Inv(s) && PartStep(step)
    ensures Inv(ApplyPart(s, step))
  {
    match step
    case BeginPart(part, bytes, etag, partial) => BeginPartKeeps(s, part, bytes, etag, partial);
    case FinishPart(a, write) => FinishPartKeeps(s, a, write);
    case CommitPart(a, fails) => CommitPartKeeps(s, a, fails);
  }

  lemma CompleteStepKeeps(s: State, step: Step)
    requires Inv(s) && CompleteStep(step)
    ensures Inv(ApplyComplete(s, step))
  {
    match step
    case BeginComplete(upload, parts, cond) => BeginCompleteKeeps(s, upload, parts, cond);
    case SelectParts(a, minPartSize, fails) => SelectPartsKeeps(s, a, minPartSize, fails);
    case CopyPart(a, fails, cleaned) => CopyPartKeeps(s, a, fails, cleaned);
    case FinishAssembly(a, write) => FinishAssemblyKeeps(s, a, write);
  }

  lemma SettleStepKeeps(s: State, step: Step)
    requires Inv(s) && SettleStep(step)
    ensures Inv(ApplySettle(s, step))
  {
    match step
    case CommitComplete(a, etag, fails) => CommitCompleteKeeps(s, a, etag, fails);
    case DiscardAssembled(a, removed) => DiscardAssembledKeeps(s, a, removed);
    case UnlinkReplaced(a, removed) => UnlinkReplacedKeeps(s, a, removed);
    case Release(a, outcome) => ReleaseKeeps(s, a, outcome);
  }

  lemma AbortStepKeeps(s: State, step: Step)
    requires Inv(s) && AbortStep(step)
    ensures Inv(ApplyAbort(s, step))
  {
    match step
    case BeginAbort(upload) => BeginAbortKeeps(s, upload);
    case DeleteClaimed(a, outcome) => DeleteClaimedKeeps(s, a, outcome);
    case RemovePartFiles(a, files, stops) => RemovePartFilesKeeps(s, a, files, stops);
  }

  lemma StaleStepKeeps(s: State, step: Step)
    requires Inv(s) && StaleStep(step)
    ensures Inv(ApplyStale(s, step))
  {
    match step
    case BeginStale(upload) => BeginStaleKeeps(s, upload);
    case ClaimStale(a, fails) => ClaimStaleKeeps(s, a, fails);
    case DeleteStale(a, outcome) => DeleteStaleKeeps(s, a, outcome);
  }

  lemma BucketStepKeeps(s: State, step: Step)
    requires Inv(s) && BucketStep(step)
    ensures Inv(ApplyBucket(s, step))
  {
    match step
    case CreateBucket(bucket) => CreateKeeps(s, DoCreateBucket(s, bucket));
    case CreateUpload(slot) => CreateKeeps(s, DoCreateUpload(s, slot));
    case ForceDelete(bucket, paths) => ForceDeleteKeeps(s, bucket, paths);
  }

  lemma BucketDeleteStepKeeps(s: State, step: Step)
    requires Inv(s) && BucketDeleteStep(step)
    ensures Inv(ApplyBucketDelete(s, step))
  {
    match step
    case BeginBucketDelete(bucket) => BeginBucketDeleteKeeps(s, bucket);
    case ListUploads(a, uploads) => ListUploadsKeeps(s, a, uploads);
  }

  lemma BucketDropStepKeeps(s: State, step: Step)
    requires Inv(s) && BucketDropStep(step)
    ensures Inv(ApplyBucketDrop(s, step))
  {
    match step
    case DropUploadOf(a, outcome) => DropUploadOfKeeps(s, a, outcome);
    case DropBucket(a) => DropBucketKeeps(s, a);
  }

  lemma TidyStepKeeps(s: State, step: Step)
    requires Inv(s) && TidyStep(step)
    ensures Inv(ApplyTidy(s, step))
  {
    match step
    case PurgeTemp(id) => PurgeTempKeeps(s, id);
    case RemoveOrphan(path) => RemoveOrphanKeeps(s, path);
    case RemoveOrphanParts(path) => RemoveOrphanKeeps(s, path);
  }

  lemma RestartStepKeeps(s: State, step: Step)
    requires Inv(s) && RestartStep(step)
    ensures Inv(ApplyRestart(s, step))
  {
    match step
    case Crash => CrashKeeps(s);
    case FinishRecovery => FinishRecoveryKeeps(s);
  }

  lemma StepKeeps(s: State, step: Step)
    requires Inv(s)
    ensures Inv(Apply(s, step))
  {
    if WriteStep(step) {
      WriteStepKeeps(s, step);
    } else if DeleteStep(step) {
      DeleteStepKeeps(s, step);
    } else if PartStep(step) {
      PartStepKeeps(s, step);
    } else if CompleteStep(step) {
      CompleteStepKeeps(s, step);
    } else if SettleStep(step) {
      SettleStepKeeps(s, step);
    } else if AbortStep(step) {
      AbortStepKeeps(s, step);
    } else if StaleStep(step) {
      StaleStepKeeps(s, step);
    } else if BucketStep(step) {
      BucketStepKeeps(s, step);
    } else if BucketDeleteStep(step) {
      BucketDeleteStepKeeps(s, step);
    } else if BucketDropStep(step) {
      BucketDropStepKeeps(s, step);
    } else if TidyStep(step) {
      TidyStepKeeps(s, step);
    } else {
      RestartStepKeeps(s, step);
    }
  }

  lemma {:induction false} RunFromKeeps(s: State, steps: seq<Step>)
    requires Inv(s)
    ensures Inv(RunFrom(s, steps))
  {
    if steps == [] {
    } else {
      RunFromKeeps(s, steps[..|steps| - 1]);
      StepKeeps(RunFrom(s, steps[..|steps| - 1]), steps[|steps| - 1]);
    }
  }

  lemma RunKeeps(steps: seq<Step>)
    ensures Inv(Run(steps))
  {
    InvIs(INITIAL);
    RunFromKeeps(INITIAL, steps);
  }
}
