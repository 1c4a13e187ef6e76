/**
 What every reachable state of the lifecycle satisfies. The invariant has three parts: the world
 (rows, files and history agree), what each request may rely on at its program counter, and the
 exclusivity of claims.
 */
module Invariant {
  import opened Wrappers
  import opened Metadata
  import opened History
  import opened Lifecycle
  import opened CompletedParts
  import ETags

  // ---- The world ----

  predicate Ids(s: State)
  {
    && (forall p :: p in s.disk ==> p.id < s.next)
    && (forall p :: p in Versions(s.log) ==> p.id < s.next)
    && (forall u :: u in s.db.uploads ==> u < s.next)
    && (forall u :: u in Completed(s.log) ==> u < s.next && u !in s.db.uploads)
  }

  /** A committed file keeps its bytes for as long as it exists. */
  predicate Immutable(s: State)
  {
    forall p :: p in Versions(s.log) && p in s.disk ==> s.disk[p] == File(Versions(s.log)[p].bytes, true)
  }

  predicate ObjectRowsOk(s: State)
  {
    && Rows(s.log) == s.db.objects
    && (forall k :: k in s.db.objects ==>
          && s.db.objects[k].path.ObjectPath? && s.db.objects[k].path.bucket == k.bucket
          && s.db.objects[k].path in s.disk)
  }

  predicate PartRowOk(s: State, x: PartSlot)
    requires x in s.db.parts
  {
    var path := s.db.parts[x].path;
    && x in LastParts(s.log) && LastParts(s.log)[x] == path
    && path in Versions(s.log) && Versions(s.log)[path].PartVersion? && Versions(s.log)[path].part == x
    && Versions(s.log)[path].etag == s.db.parts[x].etag
    && path.PartPath? && path.upload == x.upload
    && path in s.disk
  }

  predicate PartRowsOk(s: State)
  {
    forall x :: x in s.db.parts ==> PartRowOk(s, x)
  }

  predicate WorldOk(s: State)
  {
    && Ids(s)
    && WellFormed(s.log)
    && Immutable(s)
    && ObjectRowsOk(s)
    && PartRowsOk(s)
    && ForeignKeys(s.db)
  }

  // ---- Requests ----

  /** No path with this number has been committed, and only its own request could commit one. */
  predicate Uncommitted(s: State, a: Id)
  {
    forall p :: p in Versions(s.log) ==> p.id != a
  }

  predicate Unreferenced(db: Db, p: Path)
  {
    && (forall k :: k in db.objects ==> db.objects[k].path != p)
    && (forall x :: x in db.parts ==> db.parts[x].path != p)
  }

  predicate Holding(s: State, p: Path, bytes: Bytes)
  {
    p in s.disk && s.disk[p] == File(bytes, true)
  }

  predicate CopySourceOk(s: State, origin: Origin, etag: string, bytes: Bytes)
  {
    && !origin.AssembledFrom?
    && (origin.CopiedFrom? ==>
          && origin.source in Versions(s.log) && Versions(s.log)[origin.source].ObjectVersion?
          && Versions(s.log)[origin.source].etag == etag && Versions(s.log)[origin.source].bytes == bytes)
  }

  /** The upload a request has claimed and not yet given back, removed or completed. */
  function Holds(pc: Actor): Option<Id>
  {
    match pc
    case CompleteClaimed(u, _, _, _) => Some(u)
    case Assembling(u, _, _, _, _, _, _) => Some(u)
    case Assembled(u, _, _, _, _, _) => Some(u)
    case CompleteFailed(u, _) => Some(u)
    case AbortClaimed(u) => Some(u)
    case Releasing(u) => Some(u)
    case _ => None
  }

  predicate ClaimedFor(s: State, u: Id, slot: Slot)
  {
    u in s.db.uploads ==> s.db.uploads[u].status == Completing && s.db.uploads[u].slot == slot
  }

  function Paths(parts: seq<PartRow>): (r: seq<Path>)
    ensures |r| == |parts|
  {
    seq(|parts|, i requires 0 <= i < |parts| => parts[i].path)
  }

  predicate NormalForm(requested: seq<CompletePart>)
  {
    requested != [] && Ascending(Numbers(requested))
  }

  /** A selected part is a stored version with the requested tag. */
  predicate RightPart(log: Log, want: CompletePart, part: PartRow)
  {
    part.path in Versions(log) && Versions(log)[part.path].etag == part.etag && ETags.Equal(want.etag, part.etag)
  }

  /** The selected parts are still the stored parts, unless the upload is gone. */
  predicate PartsCurrent(s: State, u: Id, requested: seq<CompletePart>, parts: seq<PartRow>)
  {
    && |parts| == |requested|
    && NormalForm(requested)
    && (forall i :: 0 <= i < |parts| ==> RightPart(s.log, requested[i], parts[i]))
    && (u in s.db.uploads ==>
          forall i :: 0 <= i < |parts| ==>
            PartSlot(u, requested[i].number) in s.db.parts
            && s.db.parts[PartSlot(u, requested[i].number)].path == parts[i].path)
  }

  predicate Droppable(s: State, paths: seq<Path>)
  {
    forall i :: 0 <= i < |paths| ==> paths[i] in Versions(s.log) && Unreferenced(s.db, paths[i])
  }

  predicate CommittedIn(s: State, bucket: Bucket, p: Path)
  {
    p in Versions(s.log) && Versions(s.log)[p].ObjectVersion? && Versions(s.log)[p].slot.bucket == bucket
  }

  predicate Gone(s: State, u: Id)
  {
    u < s.next && u !in s.db.uploads
  }

  predicate ActorOk(s: State, a: Id, pc: Actor)
  {
    match pc
    case Writing(slot, bytes, etag, _, origin) => Uncommitted(s, a) && CopySourceOk(s, origin, etag, bytes)
    case Written(slot, bytes, etag, _, origin) =>
      Uncommitted(s, a) && CopySourceOk(s, origin, etag, bytes) && Holding(s, ObjectPath(slot.bucket, a), bytes)
    case Discarding(path) => Uncommitted(s, a) && path.id == a
    case Unlinking(paths) => Droppable(s, paths)
    case DeleteLoaded(slot, path) =>
      path in Versions(s.log) && Versions(s.log)[path].ObjectVersion? && Versions(s.log)[path].slot == slot
    case EmptyListing(bucket, paths) => forall i :: 0 <= i < |paths| ==> CommittedIn(s, bucket, paths[i])
    case PartWriting(part, _, _) => Uncommitted(s, a) && part.upload < s.next
    case PartWritten(part, bytes, _) =>
      && Uncommitted(s, a) && part.upload < s.next
      && (part.upload in s.db.uploads ==> Holding(s, PartPath(part.upload, part.number, a), bytes))
    case CompleteClaimed(u, slot, requested, _) =>
      Uncommitted(s, a) && u < s.next && ClaimedFor(s, u, slot) && NormalForm(requested)
    case Assembling(u, slot, requested, _, parts, done, bytes) =>
      && Uncommitted(s, a) && u < s.next && ClaimedFor(s, u, slot) && PartsCurrent(s, u, requested, parts)
      && done <= |parts| && bytes == Joined(Versions(s.log), Paths(parts)[..done])
    case Assembled(u, slot, requested, _, parts, bytes) =>
      && Uncommitted(s, a) && u < s.next && ClaimedFor(s, u, slot) && PartsCurrent(s, u, requested, parts)
      && bytes == Joined(Versions(s.log), Paths(parts)) && Holding(s, ObjectPath(slot.bucket, a), bytes)
    case CompleteFailed(u, path) =>
      && Uncommitted(s, a) && path.id == a && u < s.next
      && (u in s.db.uploads ==> s.db.uploads[u].status == Completing)
    case CompleteSettled(u, replaced) => Gone(s, u) && (replaced.Some? ==> Droppable(s, [replaced.value]))
    case AbortClaimed(u) => u < s.next && (u in s.db.uploads ==> s.db.uploads[u].status == Aborted)
    case Releasing(u) => u < s.next && (u in s.db.uploads ==> s.db.uploads[u].status != Active)
    case StaleSeen(u, _) => u < s.next
    case RemovingParts(u, after) =>
      Gone(s, u) && (after.Some? ==> forall i :: 0 <= i < |after.value.pending| ==> after.value.pending[i] < s.next)
    case DeletingBucket(work) => forall i :: 0 <= i < |work.pending| ==> work.pending[i] < s.next
  }

  predicate ActorsOk(s: State)
  {
    && (forall a :: a in s.actors ==> a < s.next)
    && (forall a {:trigger ActorOk(s, a, s.actors[a])} :: a in s.actors ==> ActorOk(s, a, s.actors[a]))
  }

  /** At most one request holds a claim on an upload. */
  predicate ClaimsExclusive(s: State)
  {
    forall a, b :: a in s.actors && b in s.actors && a != b && Holds(s.actors[a]).Some? ==>
                     Holds(s.actors[a]) != Holds(s.actors[b])
  }

  datatype Aspect = World | Requests | Claims | Restart

  predicate Respects(s: State, aspect: Aspect)
  {
    match aspect
    case World => WorldOk(s)
    case Requests => ActorsOk(s)
    case Claims => ClaimsExclusive(s)
    case Restart => !s.serving ==> s.actors == map[]
  }

  /** Aspect by aspect, so that it is taken apart only where InvIs says so. */
  ghost predicate Inv(s: State)
  {
    forall aspect :: Respects(s, aspect)
  }

  lemma InvIs(s: State)
    ensures Inv(s) <==> WorldOk(s) && ActorsOk(s) && ClaimsExclusive(s) && (!s.serving ==> s.actors == map[])
  {
    if Inv(s) {
      assert Respects(s, World) && Respects(s, Requests) && Respects(s, Claims) && Respects(s, Restart);
    }
  }

  /** What the invariant says to request a. */
  lemma InvAt(s: State, a: Id)
    requires Inv(s)
    ensures WorldOk(s) && ActorsOk(s) && ClaimsExclusive(s) && (!s.serving ==> s.actors == map[])
    ensures a in s.actors ==> ActorOk(s, a, s.actors[a])
  {
    InvIs(s);
  }

  // ---- What one request may do to the others ----

  predicate Grows(s: State, t: State)
  {
    && s.next <= t.next
    && (forall p :: p in Versions(s.log) ==> p in Versions(t.log) && Versions(t.log)[p] == Versions(s.log)[p])
  }

  /** The change from s to t respects everything request b may rely on. */
  predicate Keeps(s: State, t: State, b: Id, pc: Actor)
  {
    && Grows(s, t)
    && (forall p :: p in Versions(t.log) && p.id == b ==> p in Versions(s.log))
    && (forall u :: u in t.db.uploads && u < s.next ==>
          u in s.db.uploads && t.db.uploads[u].slot == s.db.uploads[u].slot)
    && (forall p :: p in Versions(s.log) && Unreferenced(s.db, p) ==> Unreferenced(t.db, p))
    && (Holds(pc).Some? && Holds(pc).value in t.db.uploads && Holds(pc).value < s.next ==>
          ClaimKept(s, t, Holds(pc).value))
    && (Uncommitted(s, b) ==>
          forall p :: p in s.disk && p.id == b && (p.ObjectPath? || p.upload in t.db.uploads) ==>
            p in t.disk && t.disk[p] == s.disk[p])
  }

  predicate ClaimKept(s: State, t: State, u: Id)
    requires u in t.db.uploads
  {
    && u in s.db.uploads
    && t.db.uploads[u].status == s.db.uploads[u].status
    && (forall x :: x in s.db.parts && x.upload == u ==> x in t.db.parts && t.db.parts[x] == s.db.parts[x])
  }

  lemma {:induction false} JoinedGrows(v: map<Path, Version>, w: map<Path, Version>, paths: seq<Path>)
    requires forall i :: 0 <= i < |paths| ==> paths[i] in v && paths[i] in w && v[paths[i]] == w[paths[i]]
    ensures Joined(v, paths) == Joined(w, paths)
  {
    if paths == [] {
    } else {
      JoinedGrows(v, w, paths[..|paths| - 1]);
    }
  }

  lemma UncommittedKept(s: State, t: State, b: Id, pc: Actor)
    requires Keeps(s, t, b, pc) && Uncommitted(s, b)
    ensures Uncommitted(t, b)
  {
  }

  lemma DroppableKept(s: State, t: State, b: Id, pc: Actor, paths: seq<Path>)
    requires Keeps(s, t, b, pc) && Droppable(s, paths)
    ensures Droppable(t, paths)
  {
  }

  lemma PartsCurrentKept(s: State, t: State, b: Id, pc: Actor, u: Id, requested: seq<CompletePart>, parts: seq<PartRow>)
    requires Keeps(s, t, b, pc) && Holds(pc) == Some(u) && u < s.next
    requires PartsCurrent(s, u, requested, parts)
    ensures PartsCurrent(t, u, requested, parts)
  {
    if u in t.db.uploads {
      assert ClaimKept(s, t, u);
    }
  }

  lemma AssemblingKept(s: State, t: State, b: Id, pc: Actor)
    requires Keeps(s, t, b, pc) && pc.Assembling? && ActorOk(s, b, pc)
    ensures ActorOk(t, b, pc)
  {
    UncommittedKept(s, t, b, pc);
    PartsCurrentKept(s, t, b, pc, pc.upload, pc.requested, pc.parts);
    JoinedGrows(Versions(s.log), Versions(t.log), Paths(pc.parts)[..pc.done]);
  }

  lemma AssembledKept(s: State, t: State, b: Id, pc: Actor)
    requires Keeps(s, t, b, pc) && pc.Assembled? && ActorOk(s, b, pc)
    ensures ActorOk(t, b, pc)
  {
    UncommittedKept(s, t, b, pc);
    PartsCurrentKept(s, t, b, pc, pc.upload, pc.requested, pc.parts);
    JoinedGrows(Versions(s.log), Versions(t.log), Paths(pc.parts));
  }

  /** A request whose step it is not keeps what it relies on. */
  lemma ActorKept(s: State, t: State, b: Id, pc: Actor)
    requires Keeps(s, t, b, pc) && ActorOk(s, b, pc)
    ensures ActorOk(t, b, pc)
  {
    match pc
    case Writing(slot, bytes, etag, _, origin) => UncommittedKept(s, t, b, pc);
    case Written(slot, bytes, etag, _, origin) => UncommittedKept(s, t, b, pc);
    case Discarding(path) => UncommittedKept(s, t, b, pc);
    case Unlinking(paths) => DroppableKept(s, t, b, pc, paths);
    case DeleteLoaded(slot, path) =>
    case EmptyListing(bucket, paths) =>
      forall i | 0 <= i < |paths| ensures CommittedIn(t, bucket, paths[i]) {
        assert CommittedIn(s, bucket, paths[i]);
      }
    case PartWriting(part, _, _) => UncommittedKept(s, t, b, pc);
    case PartWritten(part, bytes, _) => UncommittedKept(s, t, b, pc);
    case CompleteClaimed(u, slot, _, _) => UncommittedKept(s, t, b, pc);
    case Assembling(u, slot, requested, _, parts, done, bytes) => AssemblingKept(s, t, b, pc);
    case Assembled(u, slot, requested, _, parts, bytes) => AssembledKept(s, t, b, pc);
    case CompleteFailed(u, path) => UncommittedKept(s, t, b, pc);
    case CompleteSettled(u, replaced) =>
      if replaced.Some? {
        DroppableKept(s, t, b, pc, [replaced.value]);
      }
    case AbortClaimed(u) =>
    case Releasing(u) =>
    case StaleSeen(u, _) =>
    case RemovingParts(u, after) =>
    case DeletingBucket(work) =>
  }

  /** Every request but a can rely on t. */
  predicate OthersOk(t: State, actors: map<Id, Actor>, a: Id)
  {
    && (forall b :: b in actors && b != a ==> b < t.next)
    && (forall b {:trigger ActorOk(t, b, actors[b])} :: b in actors && b != a ==> ActorOk(t, b, actors[b]))
  }

  predicate NoOtherHolds(actors: map<Id, Actor>, a: Id, u: Option<Id>)
  {
    u.Some? ==> forall b :: b in actors && b != a ==> Holds(actors[b]) != u
  }

  /** One request a moves to pc and ends up in t. */
  lemma Moved(s: State, t: State, a: Id, pc: Actor)
    requires Inv(s) && t.serving && WorldOk(t) && OthersOk(t, s.actors, a)
    requires t.actors == s.actors[a := pc] && a < t.next && ActorOk(t, a, pc)
    requires NoOtherHolds(s.actors, a, Holds(pc))
    ensures Inv(t)
  {
    InvIs(s);
    InvIs(t);
    forall b | b in t.actors ensures ActorOk(t, b, t.actors[b]) {
      assert b != a ==> ActorOk(t, b, s.actors[b]);
    }
    assert ClaimsExclusive(t) by {
      forall x, y | x in t.actors && y in t.actors && x != y && Holds(t.actors[x]).Some?
        ensures Holds(t.actors[x]) != Holds(t.actors[y])
      {
      }
    }
  }

  /** Request a ends in t. */
  lemma Ended(s: State, t: State, a: Id)
    requires Inv(s) && t.serving && WorldOk(t) && OthersOk(t, s.actors, a)
    requires t.actors == s.actors - {a}
    ensures Inv(t)
  {
    InvIs(s);
    InvIs(t);
    forall b | b in t.actors ensures ActorOk(t, b, t.actors[b]) {
      assert ActorOk(t, b, s.actors[b]);
    }
  }

  // ---- The effects a step can have on the world ----

  lemma OthersKept(s: State, t: State, actors: map<Id, Actor>, a: Id)
    requires OthersOk(s, actors, a)
    requires forall b :: b in actors && b != a && b < s.next ==> Keeps(s, t, b, actors[b])
    ensures OthersOk(t, actors, a)
  {
    forall b | b in actors && b != a ensures b < t.next && ActorOk(t, b, actors[b]) {
      assert ActorOk(s, b, actors[b]);
      ActorKept(s, t, b, actors[b]);
    }
  }

  /** Part rows that stay, and stay on disk, stay right as long as the history does not re-store them. */
  lemma PartRowsKept(s: State, t: State)
    requires PartRowsOk(s) && Grows(s, t)
    requires forall x :: x in t.db.parts ==> x in s.db.parts && t.db.parts[x] == s.db.parts[x]
    requires LastParts(t.log) == LastParts(s.log)
    requires forall x :: x in t.db.parts ==> t.db.parts[x].path in t.disk
    ensures PartRowsOk(t)
  {
    forall x | x in t.db.parts ensures PartRowOk(t, x) {
      assert PartRowOk(s, x);
    }
  }

  lemma PartFilesPresent(s: State)
    requires PartRowsOk(s)
    ensures forall x :: x in s.db.parts ==> s.db.parts[x].path in s.disk
  {
    forall x | x in s.db.parts ensures s.db.parts[x].path in s.disk {
      assert PartRowOk(s, x);
    }
  }

  lemma EffectNone(s: State, t: State, actors: map<Id, Actor>, a: Id)
    requires WorldOk(s) && OthersOk(s, actors, a)
    requires t.db == s.db && t.disk == s.disk && t.log == s.log && s.next <= t.next
    ensures WorldOk(t) && OthersOk(t, actors, a)
  {
    OthersKept(s, t, actors, a);
  }

  /** Request a writes a file under its own number. */
  lemma EffectFile(s: State, t: State, actors: map<Id, Actor>, a: Id, p: Path, f: File)
    requires WorldOk(s) && OthersOk(s, actors, a) && Uncommitted(s, a)
    requires t.db == s.db && t.disk == s.disk[p := f] && t.log == s.log && s.next <= t.next
    requires p.id == a < t.next
    ensures WorldOk(t) && OthersOk(t, actors, a)
  {
    OthersKept(s, t, actors, a);
  }

  /** What request a may remove: its own uncommitted file, a version no row names, a part of an upload that is gone. */
  predicate MayDrop(s: State, a: Id, p: Path)
  {
    || (p.id == a && Uncommitted(s, a))
    || (p in Versions(s.log) && Unreferenced(s.db, p))
    || (p.PartPath? && Gone(s, p.upload))
  }

  lemma EffectDrop(s: State, t: State, actors: map<Id, Actor>, a: Id, ps: set<Path>)
    requires WorldOk(s) && OthersOk(s, actors, a)
    requires forall p :: p in ps ==> MayDrop(s, a, p)
    requires t.db == s.db && t.disk == s.disk - ps && t.log == s.log && t.next == s.next
    ensures WorldOk(t) && OthersOk(t, actors, a)
  {
    RowFilesNotDroppable(s, a, ps);
    PartRowsKept(s, t);
    OthersKept(s, t, actors, a);
  }

  /** A file a row names may not be removed by anyone. */
  lemma RowFilesNotDroppable(s: State, a: Id, ps: set<Path>)
    requires WorldOk(s)
    requires forall p :: p in ps ==> MayDrop(s, a, p)
    ensures forall k :: k in s.db.objects ==> s.db.objects[k].path in s.disk && s.db.objects[k].path !in ps
    ensures forall x :: x in s.db.parts ==> s.db.parts[x].path in s.disk && s.db.parts[x].path !in ps
  {
    RowsAreVersions(s.log);
    forall x | x in s.db.parts ensures s.db.parts[x].path in s.disk && s.db.parts[x].path !in ps {
      assert PartRowOk(s, x);
    }
  }

  /** The status of an upload changes. */
  lemma EffectStatus(s: State, t: State, actors: map<Id, Actor>, a: Id, u: Id, status: Status)
    requires WorldOk(s) && OthersOk(s, actors, a) && u in s.db.uploads
    requires NoOtherHolds(actors, a, Some(u))
    requires t.db == WithStatus(s.db, u, status) && t.disk == s.disk && t.log == s.log && s.next <= t.next
    ensures WorldOk(t) && OthersOk(t, actors, a)
  {
    PartFilesPresent(s);
    PartRowsKept(s, t);
    forall b | b in actors && b != a && b < s.next ensures Keeps(s, t, b, actors[b]) {
      StatusKept(s, t, b, actors[b], u, status);
    }
    OthersKept(s, t, actors, a);
  }

  lemma StatusKept(s: State, t: State, b: Id, pc: Actor, u: Id, status: Status)
    requires u in s.db.uploads && Holds(pc) != Some(u)
    requires t.db == WithStatus(s.db, u, status) && t.disk == s.disk && t.log == s.log && s.next <= t.next
    ensures Keeps(s, t, b, pc)
  {
    assert Grows(s, t);
    if Holds(pc).Some? && Holds(pc).value in t.db.uploads {
      assert ClaimKept(s, t, Holds(pc).value);
    }
  }

  /** An upload and its part rows disappear. */
  lemma EffectDropUpload(s: State, t: State, actors: map<Id, Actor>, a: Id, u: Id)
    requires WorldOk(s) && OthersOk(s, actors, a)
    requires t.db == DropUpload(s.db, u) && t.disk == s.disk && t.log == s.log && s.next <= t.next
    ensures WorldOk(t) && OthersOk(t, actors, a)
  {
    PartFilesPresent(s);
    PartRowsKept(s, t);
    forall b | b in actors && b != a && b < s.next ensures Keeps(s, t, b, actors[b]) {
      DropUploadKept(s, t, b, actors[b], u);
    }
    OthersKept(s, t, actors, a);
  }

  lemma DropUploadKept(s: State, t: State, b: Id, pc: Actor, u: Id)
    requires t.db == DropUpload(s.db, u) && t.disk == s.disk && t.log == s.log && s.next <= t.next
    ensures Keeps(s, t, b, pc)
  {
    assert Grows(s, t);
    if Holds(pc).Some? && Holds(pc).value in t.db.uploads {
      assert ClaimKept(s, t, Holds(pc).value);
    }
  }

  lemma StoreWorld(s: State, t: State, a: Id, e: Event)
    requires WorldOk(s)
    requires e.Stored? && e.path !in Versions(s.log) && WellFormed(t.log) && e.path == ObjectPath(e.slot.bucket, a) && a < s.next
    requires e.slot.bucket in s.db.buckets && Holding(s, e.path, e.bytes)
    requires e.origin.AssembledFrom? ==> Gone(s, e.origin.upload)
    requires t.db == Upsert(s.db, e.slot, ObjectRow(e.path, e.etag)) && t.disk == s.disk
    requires t.log == s.log + [e] && s.next == t.next
    ensures WorldOk(t)
  {
    StoreGrows(s, t, e);
    AppendUnfolds(s.log, e);
    StoredRowsOk(s, t, e);
    PartFilesPresent(s);
    PartRowsKept(s, t);
  }

  lemma StoredRowsOk(s: State, t: State, e: Event)
    requires ObjectRowsOk(s) && e.Stored? && e.path.ObjectPath? && e.path.bucket == e.slot.bucket && e.path in s.disk
    requires t.db == Upsert(s.db, e.slot, ObjectRow(e.path, e.etag)) && t.disk == s.disk && t.log == s.log + [e]
    ensures ObjectRowsOk(t)
  {
    AppendUnfolds(s.log, e);
  }

  /** An object row is written and the history records it. */
  lemma EffectStore(s: State, t: State, actors: map<Id, Actor>, a: Id, e: Event)
    requires WorldOk(s) && OthersOk(s, actors, a) && Uncommitted(s, a)
    requires e.Stored? && EventOk(s.log, e) && e.path == ObjectPath(e.slot.bucket, a) && a < s.next
    requires e.slot.bucket in s.db.buckets && Holding(s, e.path, e.bytes)
    requires e.origin.AssembledFrom? ==> Gone(s, e.origin.upload)
    requires t.db == Upsert(s.db, e.slot, ObjectRow(e.path, e.etag)) && t.disk == s.disk
    requires t.log == s.log + [e] && s.next == t.next
    ensures WorldOk(t) && OthersOk(t, actors, a)
  {
    Append(s.log, e);
    StoreWorld(s, t, a, e);
    forall b | b in actors && b != a && b < s.next ensures Keeps(s, t, b, actors[b]) {
      StoreKept(s, t, b, actors[b], a, e);
    }
    OthersKept(s, t, actors, a);
  }

  lemma StoreKept(s: State, t: State, b: Id, pc: Actor, a: Id, e: Event)
    requires e.Stored? && EventOk(s.log, e) && e.path == ObjectPath(e.slot.bucket, a) && b != a
    requires t.db == Upsert(s.db, e.slot, ObjectRow(e.path, e.etag)) && t.disk == s.disk
    requires t.log == s.log + [e] && s.next == t.next
    ensures Keeps(s, t, b, pc)
  {
    StoreGrows(s, t, e);
    if Holds(pc).Some? && Holds(pc).value in t.db.uploads {
      assert ClaimKept(s, t, Holds(pc).value);
    }
  }

  lemma StoreGrows(s: State, t: State, e: Event)
    requires e.Stored? && e.path !in Versions(s.log)
    requires t.db == Upsert(s.db, e.slot, ObjectRow(e.path, e.etag)) && t.log == s.log + [e] && s.next == t.next
    ensures Grows(s, t)
    ensures forall p :: p in Versions(t.log) ==> p in Versions(s.log) || p == e.path
    ensures forall p :: p in Versions(s.log) && Unreferenced(s.db, p) ==> Unreferenced(t.db, p)
  {
    AppendUnfolds(s.log, e);
  }

  /** Object rows disappear and the history records which. */
  lemma EffectRemove(s: State, t: State, actors: map<Id, Actor>, a: Id, slots: set<Slot>)
    requires WorldOk(s) && OthersOk(s, actors, a)
    requires slots <= s.db.objects.Keys
    requires t.db.objects == s.db.objects - slots && t.db.uploads == s.db.uploads && t.db.parts == s.db.parts
    requires ForeignKeys(t.db) && t.disk == s.disk
    requires t.log == s.log + [Removed(slots)] && s.next <= t.next
    ensures WorldOk(t) && OthersOk(t, actors, a)
  {
    Append(s.log, Removed(slots));
    AppendUnfolds(s.log, Removed(slots));
    PartFilesPresent(s);
    PartRowsKept(s, t);
    forall b | b in actors && b != a && b < s.next ensures Keeps(s, t, b, actors[b]) {
      RemoveKept(s, t, b, actors[b], slots);
    }
    OthersKept(s, t, actors, a);
  }

  lemma RemoveKept(s: State, t: State, b: Id, pc: Actor, slots: set<Slot>)
    requires t.db.objects == s.db.objects - slots && t.db.uploads == s.db.uploads && t.db.parts == s.db.parts
    requires t.disk == s.disk && t.log == s.log + [Removed(slots)] && s.next <= t.next
    ensures Keeps(s, t, b, pc)
  {
    AppendUnfolds(s.log, Removed(slots));
    assert Grows(s, t);
    if Holds(pc).Some? && Holds(pc).value in t.db.uploads {
      assert ClaimKept(s, t, Holds(pc).value);
    }
  }

  lemma AddPartWorld(s: State, t: State, a: Id, x: PartSlot, row: PartRow, bytes: Bytes)
    requires WorldOk(s) && Uncommitted(s, a) && x.upload in s.db.uploads
    requires row.path == PartPath(x.upload, x.number, a) && Holding(s, row.path, bytes) && a < s.next
    requires t.db == s.db.(parts := s.db.parts[x := row]) && t.disk == s.disk
    requires t.log == s.log + [PartStored(x, row.path, row.etag, bytes)] && s.next == t.next
    ensures WorldOk(t)
  {
    Append(s.log, PartStored(x, row.path, row.etag, bytes));
    AppendUnfolds(s.log, PartStored(x, row.path, row.etag, bytes));
    AddedPartRowsOk(s, t, x, row, bytes);
  }

  lemma AddedPartRowsOk(s: State, t: State, x: PartSlot, row: PartRow, bytes: Bytes)
    requires PartRowsOk(s) && row.path.PartPath? && row.path.upload == x.upload && row.path in s.disk
    requires row.path !in Versions(s.log)
    requires t.db == s.db.(parts := s.db.parts[x := row]) && t.disk == s.disk
    requires t.log == s.log + [PartStored(x, row.path, row.etag, bytes)]
    ensures PartRowsOk(t)
  {
    AppendUnfolds(s.log, PartStored(x, row.path, row.etag, bytes));
    forall y | y in t.db.parts ensures PartRowOk(t, y) {
      assert y != x ==> PartRowOk(s, y);
    }
  }

  /** A part row is written and the history records it. */
  lemma EffectAddPart(s: State, t: State, actors: map<Id, Actor>, a: Id, x: PartSlot, row: PartRow, bytes: Bytes)
    requires WorldOk(s) && OthersOk(s, actors, a) && Uncommitted(s, a)
    requires x.upload in s.db.uploads && NoOtherHolds(actors, a, Some(x.upload))
    requires row.path == PartPath(x.upload, x.number, a) && Holding(s, row.path, bytes) && a < s.next
    requires t.db == s.db.(parts := s.db.parts[x := row]) && t.disk == s.disk
    requires t.log == s.log + [PartStored(x, row.path, row.etag, bytes)] && s.next == t.next
    ensures WorldOk(t) && OthersOk(t, actors, a)
  {
    AddPartWorld(s, t, a, x, row, bytes);
    forall b | b in actors && b != a && b < s.next ensures Keeps(s, t, b, actors[b]) {
      AddPartKept(s, t, b, actors[b], a, x, row, bytes);
    }
    OthersKept(s, t, actors, a);
  }

  lemma AddPartKept(s: State, t: State, b: Id, pc: Actor, a: Id, x: PartSlot, row: PartRow, bytes: Bytes)
    requires Uncommitted(s, a) && Holds(pc) != Some(x.upload) && row.path == PartPath(x.upload, x.number, a) && b != a
    requires t.db == s.db.(parts := s.db.parts[x := row]) && t.disk == s.disk
    requires t.log == s.log + [PartStored(x, row.path, row.etag, bytes)] && s.next == t.next
    ensures Keeps(s, t, b, pc)
  {
    AppendUnfolds(s.log, PartStored(x, row.path, row.etag, bytes));
    assert Grows(s, t);
    if Holds(pc).Some? && Holds(pc).value in t.db.uploads {
      assert ClaimKept(s, t, Holds(pc).value);
    }
  }

  /** Buckets and uploads appear, or an empty bucket disappears. */
  lemma EffectSchema(s: State, t: State, actors: map<Id, Actor>, a: Id)
    requires WorldOk(s) && OthersOk(s, actors, a)
    requires t.db.objects == s.db.objects && t.db.parts == s.db.parts && t.disk == s.disk && t.log == s.log
    requires s.next <= t.next && ForeignKeys(t.db)
    requires forall u :: u in s.db.uploads ==> u in t.db.uploads && t.db.uploads[u] == s.db.uploads[u]
    requires forall u :: u in t.db.uploads ==> u in s.db.uploads || s.next <= u < t.next
    ensures WorldOk(t) && OthersOk(t, actors, a)
  {
    PartFilesPresent(s);
    PartRowsKept(s, t);
    forall b | b in actors && b != a && b < s.next ensures Keeps(s, t, b, actors[b]) {
      SchemaKept(s, t, b, actors[b]);
    }
    OthersKept(s, t, actors, a);
  }

  lemma SchemaKept(s: State, t: State, b: Id, pc: Actor)
    requires t.db.objects == s.db.objects && t.db.parts == s.db.parts && t.disk == s.disk && t.log == s.log
    requires s.next <= t.next
    requires forall u :: u in s.db.uploads ==> u in t.db.uploads && t.db.uploads[u] == s.db.uploads[u]
    requires forall u :: u in t.db.uploads ==> u in s.db.uploads || s.next <= u < t.next
    ensures Keeps(s, t, b, pc)
  {
    assert Grows(s, t);
    if Holds(pc).Some? && Holds(pc).value in t.db.uploads && Holds(pc).value < s.next {
      assert ClaimKept(s, t, Holds(pc).value);
    }
  }
}
