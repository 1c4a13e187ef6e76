/**
 What requests achieve. From every reachable state, with any other requests in flight, the steps of one request in
 which nothing fails have exactly the promised effect, and a refused or failed request leaves everything as it was.
 */
module Progress {
  import opened Wrappers
  import opened Metadata
  import opened History
  import opened Lifecycle
  import opened Invariant
  import Guarantees

  // ---- Runs, step by step ----

  lemma FirstStep(s: State, steps: seq<Step>)
    requires steps != []
    ensures RunFrom(s, steps) == RunFrom(Apply(s, steps[0]), steps[1..])
  {
    assert steps == [steps[0]] + steps[1..];
    Guarantees.RunSplits(s, steps[0], steps[1..]);
  }

  lemma TwoSteps(s: State, steps: seq<Step>)
    requires |steps| >= 2
    ensures RunFrom(s, steps) == RunFrom(Apply(Apply(s, steps[0]), steps[1]), steps[2..])
  {
    FirstStep(s, steps);
    FirstStep(Apply(s, steps[0]), steps[1..]);
    assert steps[1..][1..] == steps[2..];
  }

  lemma ThreeParts(s: State, step: Step, first: seq<Step>, rest: seq<Step>)
    ensures RunFrom(s, [step] + (first + rest)) == RunFrom(RunFrom(Apply(s, step), first), rest)
  {
    Guarantees.RunSplits(s, step, first + rest);
    Guarantees.RunJoins(Apply(s, step), first, rest);
  }

  lemma ThreeSteps(s: State, x: Step, y: Step, z: Step, rest: seq<Step>)
    ensures RunFrom(s, [x] + ([y, z] + rest)) == RunFrom(Apply(Apply(Apply(s, x), y), z), rest)
  {
    Guarantees.RunSplits(s, x, [y, z] + rest);
    TwoSteps(Apply(s, x), [y, z] + rest);
    assert ([y, z] + rest)[2..] == rest;
  }

  /** The next step of an object request that is under way. */
  predicate ContinuesWrite(step: Step, n: Id)
  {
    || (step.FinishWrite? && step.actor == n)
    || (step.CommitWrite? && step.actor == n)
    || (step.RejectDigest? && step.actor == n)
    || (step.Discard? && step.actor == n)
    || (step.Unlink? && step.actor == n)
    || (step.FinishPart? && step.actor == n)
    || (step.CommitPart? && step.actor == n)
    || (step.DeleteRow? && step.actor == n)
  }

  predicate ContinuesUpload(step: Step, n: Id)
  {
    || (step.SelectParts? && step.actor == n)
    || (step.CopyPart? && step.actor == n)
    || (step.FinishAssembly? && step.actor == n)
    || (step.CommitComplete? && step.actor == n)
    || (step.DiscardAssembled? && step.actor == n)
    || (step.Release? && step.actor == n)
    || (step.UnlinkReplaced? && step.actor == n)
    || (step.ClaimStale? && step.actor == n)
    || (step.DeleteStale? && step.actor == n)
    || (step.DeleteClaimed? && step.actor == n)
    || (step.RemovePartFiles? && step.actor == n)
  }

  predicate ContinuesBucket(step: Step, n: Id)
  {
    || (step.ListUploads? && step.actor == n)
    || (step.DropUploadOf? && step.actor == n)
    || (step.DropBucket? && step.actor == n)
  }

  predicate Continues(step: Step, n: Id)
  {
    ContinuesWrite(step, n) || ContinuesUpload(step, n) || ContinuesBucket(step, n)
  }

  lemma WriteIsOver(s: State, step: Step, n: Id)
    requires n !in s.actors && ContinuesWrite(step, n)
    ensures Apply(s, step) == s
  {
  }

  lemma UploadIsOver(s: State, step: Step, n: Id)
    requires n !in s.actors && ContinuesUpload(step, n)
    ensures Apply(s, step) == s
  {
  }

  lemma BucketIsOver(s: State, step: Step, n: Id)
    requires n !in s.actors && ContinuesBucket(step, n)
    ensures Apply(s, step) == s
  {
  }

  /** Once a request is over, its further steps do nothing. */
  lemma {:induction false} OverStays(s: State, steps: seq<Step>, n: Id)
    requires n !in s.actors && forall i :: 0 <= i < |steps| ==> Continues(steps[i], n)
    ensures RunFrom(s, steps) == s
  {
    if steps == [] {
    } else {
      OverStays(s, steps[..|steps| - 1], n);
      if ContinuesWrite(steps[|steps| - 1], n) {
        WriteIsOver(s, steps[|steps| - 1], n);
      } else if ContinuesBucket(steps[|steps| - 1], n) {
        BucketIsOver(s, steps[|steps| - 1], n);
      } else {
        UploadIsOver(s, steps[|steps| - 1], n);
      }
    }
  }

  // ---- One request, and what it leaves ----

  /** Request s.next is under way, and nothing else differs from s but for temporary files. */
  function Under(s: State, pc: Actor, temps: set<Id>): State
  {
    s.(next := s.next + 1, temps := temps, actors := s.actors[s.next := pc])
  }

  /** Request s.next is over and has left x, without a temporary file of its own. */
  predicate Leaves(s: State, t: State, x: State)
  {
    t == x.(next := s.next + 1, temps := t.temps) && t.temps <= s.temps
  }

  lemma FreshRequest(s: State)
    requires Inv(s)
    ensures s.next !in s.actors && forall p :: p in s.disk ==> p.id != s.next
  {
    InvIs(s);
  }

  lemma EndLeaves(s: State, x: State, pc: Actor, temps: set<Id>)
    requires x.next == s.next && s.next !in x.actors && temps <= s.temps
    ensures Leaves(s, End(Under(x, pc, temps), s.next), x)
  {
    assert x.actors[s.next := pc] - {s.next} == x.actors;
  }

  // ---- PutObject and CopyObject ----

  function Begun(s: State, slot: Slot, bytes: Bytes, etag: string, cond: Conditions, origin: Origin): State
  {
    Spawn(s.(temps := s.temps + {s.next}), Writing(slot, bytes, etag, cond, origin))
  }

  function PathsIn(row: Option<ObjectRow>): set<Path>
  {
    if row.Some? then {row.value.path} else {}
  }

  /** The key has a row with this tag, its file has these bytes, and the file it had before is gone. */
  function WithObject(s: State, slot: Slot, bytes: Bytes, etag: string, cond: Conditions, origin: Origin): State
  {
    var path, was := ObjectPath(slot.bucket, s.next), Lookup(s.db.objects, slot);
    s.(db := s.db.(objects := s.db.objects[slot := ObjectRow(path, etag)]),
       disk := (s.disk - PathsIn(was))[path := File(bytes, true)],
       log := s.log + [Stored(slot, path, etag, bytes, cond, origin, was)])
  }

  predicate Accepts(db: Db, slot: Slot, cond: Conditions)
  {
    slot.bucket in db.buckets && Satisfied(Lookup(db.objects, slot), cond)
  }

  lemma Fill(s: State, slot: Slot, bytes: Bytes, etag: string, cond: Conditions, origin: Origin)
    ensures DoFinishWrite(Begun(s, slot, bytes, etag, cond, origin), s.next, WriteOk)
         == Under(PutFile(s, ObjectPath(slot.bucket, s.next), File(bytes, true)), Written(slot, bytes, etag, cond, origin),
                  s.temps - {s.next})
  {
    assert s.temps + {s.next} - {s.next} == s.temps - {s.next};
  }

  function PathList(row: Option<ObjectRow>): seq<Path>
  {
    if row.Some? then [row.value.path] else []
  }

  /** The row is written, and the file it named before is still there. */
  function Stores(s: State, slot: Slot, bytes: Bytes, etag: string, cond: Conditions, origin: Origin): State
  {
    var path := ObjectPath(slot.bucket, s.next);
    Commit(PutFile(s, path, File(bytes, true)), s.db.(objects := s.db.objects[slot := ObjectRow(path, etag)]),
           Stored(slot, path, etag, bytes, cond, origin, Lookup(s.db.objects, slot)))
  }

  lemma Commits(s: State, slot: Slot, bytes: Bytes, etag: string, cond: Conditions, origin: Origin, temps: set<Id>)
    requires Accepts(s.db, slot, cond)
    ensures DoCommitWrite(Under(PutFile(s, ObjectPath(slot.bucket, s.next), File(bytes, true)),
                                Written(slot, bytes, etag, cond, origin), temps), s.next, false)
         == Under(Stores(s, slot, bytes, etag, cond, origin), Unlinking(PathList(Lookup(s.db.objects, slot))), temps)
  {
  }

  lemma Replaces(s: State, slot: Slot, bytes: Bytes, etag: string, cond: Conditions, origin: Origin)
    requires slot in s.db.objects ==> s.db.objects[slot].path.id != s.next
    ensures var paths := PathList(Lookup(s.db.objects, slot));
            DropFiles(Stores(s, slot, bytes, etag, cond, origin), set p | p in paths)
            == WithObject(s, slot, bytes, etag, cond, origin)
  {
    var was, path, f := Lookup(s.db.objects, slot), ObjectPath(slot.bucket, s.next), File(bytes, true);
    var paths := PathList(was);
    assert (set p | p in paths) == PathsIn(was);
    assert s.disk[path := f] - PathsIn(was) == (s.disk - PathsIn(was))[path := f];
  }

  lemma Refuses(s: State, slot: Slot, bytes: Bytes, etag: string, cond: Conditions, origin: Origin, fails: bool,
                temps: set<Id>)
    requires fails || !Accepts(s.db, slot, cond)
    ensures var path := ObjectPath(slot.bucket, s.next);
            DoCommitWrite(Under(PutFile(s, path, File(bytes, true)), Written(slot, bytes, etag, cond, origin), temps),
                          s.next, fails)
            == Under(PutFile(s, path, File(bytes, true)), Discarding(path), temps)
  {
  }

  lemma DiscardLeaves(s: State, path: Path, f: File, temps: set<Id>)
    requires s.next !in s.actors && path !in s.disk && temps <= s.temps
    ensures Leaves(s, DoDiscard(Under(PutFile(s, path, f), Discarding(path), temps), s.next, true), s)
  {
    assert s.disk[path := f] - {path} == s.disk;
    EndLeaves(s, s, Discarding(path), temps);
  }

  // ---- Cleaning up ----

  function Unlinks(n: Id, k: nat): seq<Step>
  {
    seq(k, i => Unlink(n, true, false))
  }

  lemma UnlinkOne(s: State, n: Id, paths: seq<Path>)
    requires n in s.actors && s.actors[n] == Unlinking(paths) && paths != []
    ensures var t := DoUnlink(s, n, true, false);
            && n in t.actors && t.actors[n] == Unlinking(paths[1..])
            && End(DropFiles(t, set p | p in paths[1..]), n) == End(DropFiles(s, set p | p in paths), n)
  {
    var t := DoUnlink(s, n, true, false);
    assert (set p | p in paths) == {paths[0]} + (set p | p in paths[1..]);
    assert s.disk - {paths[0]} - (set p | p in paths[1..]) == s.disk - (set p | p in paths);
    assert s.actors[n := Unlinking(paths[1..])] - {n} == s.actors - {n};
  }

  /** The files go one by one, and then the request is over. */
  lemma {:induction false} UnlinkRun(s: State, n: Id, paths: seq<Path>)
    requires n in s.actors && s.actors[n] == Unlinking(paths)
    ensures RunFrom(s, Unlinks(n, |paths| + 1)) == End(DropFiles(s, set p | p in paths), n)
    decreases |paths|
  {
    var steps := Unlinks(n, |paths| + 1);
    FirstStep(s, steps);
    assert steps[1..] == Unlinks(n, |paths|);
    if paths == [] {
      assert DropFiles(s, set p | p in paths) == s;
    } else {
      UnlinkOne(s, n, paths);
      UnlinkRun(DoUnlink(s, n, true, false), n, paths[1..]);
    }
  }

  lemma UnlinksLeave(s: State, x: State, paths: seq<Path>, temps: set<Id>)
    requires x.next == s.next && s.next !in x.actors && temps <= s.temps
    ensures Leaves(s, RunFrom(Under(x, Unlinking(paths), temps), Unlinks(s.next, |paths| + 1)),
                   DropFiles(x, set p | p in paths))
  {
    UnlinkRun(Under(x, Unlinking(paths), temps), s.next, paths);
    EndLeaves(s, DropFiles(x, set p | p in paths), Unlinking(paths), temps);
  }

  /** A new file is discarded, or a file that was replaced goes. */
  function CleanUp(n: Id): seq<Step>
  {
    [Discard(n, true)] + Unlinks(n, 2)
  }

  lemma CleanUpDiscards(s: State, path: Path, f: File, temps: set<Id>)
    requires s.next !in s.actors && path !in s.disk && temps <= s.temps
    ensures Leaves(s, RunFrom(Under(PutFile(s, path, f), Discarding(path), temps), CleanUp(s.next)), s)
  {
    var u := Under(PutFile(s, path, f), Discarding(path), temps);
    Guarantees.RunSplits(u, Discard(s.next, true), Unlinks(s.next, 2));
    DiscardLeaves(s, path, f, temps);
    OverStays(DoDiscard(u, s.next, true), Unlinks(s.next, 2), s.next);
  }

  lemma CleanUpUnlinks(s: State, x: State, paths: seq<Path>, temps: set<Id>)
    requires x.next == s.next && s.next !in x.actors && temps <= s.temps && |paths| <= 1
    ensures Leaves(s, RunFrom(Under(x, Unlinking(paths), temps), CleanUp(s.next)), DropFiles(x, set p | p in paths))
  {
    var u, n := Under(x, Unlinking(paths), temps), s.next;
    Guarantees.RunSplits(u, Discard(n, true), Unlinks(n, 2));
    UnlinksLeave(s, x, paths, temps);
    if paths == [] {
      assert Unlinks(n, 2) == Unlinks(n, 1) + [Unlink(n, true, false)];
      Guarantees.RunJoins(u, Unlinks(n, 1), [Unlink(n, true, false)]);
      OverStays(RunFrom(u, Unlinks(n, 1)), [Unlink(n, true, false)], n);
    }
  }

  // ---- PUT and copy, with nobody in between ----

  function WriteSteps(n: Id, fails: bool): seq<Step>
  {
    [FinishWrite(n, WriteOk), CommitWrite(n, fails)] + CleanUp(n)
  }

  lemma WriteCommits(s: State, slot: Slot, bytes: Bytes, etag: string, cond: Conditions, origin: Origin)
    requires s.next !in s.actors && Accepts(s.db, slot, cond)
    requires slot in s.db.objects ==> s.db.objects[slot].path.id != s.next
    ensures Leaves(s, RunFrom(Begun(s, slot, bytes, etag, cond, origin), WriteSteps(s.next, false)),
                   WithObject(s, slot, bytes, etag, cond, origin))
  {
    Fill(s, slot, bytes, etag, cond, origin);
    Commits(s, slot, bytes, etag, cond, origin, s.temps - {s.next});
    TwoSteps(Begun(s, slot, bytes, etag, cond, origin), WriteSteps(s.next, false));
    assert WriteSteps(s.next, false)[2..] == CleanUp(s.next);
    CleanUpUnlinks(s, Stores(s, slot, bytes, etag, cond, origin), PathList(Lookup(s.db.objects, slot)), s.temps - {s.next});
    Replaces(s, slot, bytes, etag, cond, origin);
  }

  lemma WriteRefused(s: State, slot: Slot, bytes: Bytes, etag: string, cond: Conditions, origin: Origin, fails: bool)
    requires s.next !in s.actors && (forall p :: p in s.disk ==> p.id != s.next)
    requires fails || !Accepts(s.db, slot, cond)
    ensures Leaves(s, RunFrom(Begun(s, slot, bytes, etag, cond, origin), WriteSteps(s.next, fails)), s)
  {
    var b, path := Begun(s, slot, bytes, etag, cond, origin), ObjectPath(slot.bucket, s.next);
    Fill(s, slot, bytes, etag, cond, origin);
    Refuses(s, slot, bytes, etag, cond, origin, fails, s.temps - {s.next});
    TwoSteps(b, WriteSteps(s.next, fails));
    assert WriteSteps(s.next, fails)[2..] == CleanUp(s.next);
    CleanUpDiscards(s, path, File(bytes, true), s.temps - {s.next});
  }

  lemma WriteRun(s: State, slot: Slot, bytes: Bytes, etag: string, cond: Conditions, origin: Origin, fails: bool)
    requires Inv(s)
    ensures Leaves(s, RunFrom(Begun(s, slot, bytes, etag, cond, origin), WriteSteps(s.next, fails)),
                   if !fails && Accepts(s.db, slot, cond) then WithObject(s, slot, bytes, etag, cond, origin) else s)
  {
    FreshRequest(s);
    InvIs(s);
    if !fails && Accepts(s.db, slot, cond) {
      WriteCommits(s, slot, bytes, etag, cond, origin);
    } else {
      WriteRefused(s, slot, bytes, etag, cond, origin, fails);
    }
  }

  /**
   A PUT of any bytes puts exactly these bytes and this tag under the key, removes the file it replaced, and changes
   nothing else, if and only if the bucket exists, the conditions hold and the commit does not fail. Otherwise it
   changes nothing.
   */
  lemma PutTakesEffect(s: State, slot: Slot, bytes: Bytes, etag: string, cond: Conditions, fails: bool)
    requires Inv(s) && s.serving
    ensures Leaves(s, RunFrom(s, [BeginPut(slot, bytes, etag, cond)] + WriteSteps(s.next, fails)),
                   if !fails && Accepts(s.db, slot, cond) then WithObject(s, slot, bytes, etag, cond, Uploaded) else s)
  {
    Guarantees.RunSplits(s, BeginPut(slot, bytes, etag, cond), WriteSteps(s.next, fails));
    assert Apply(s, BeginPut(slot, bytes, etag, cond)) == Begun(s, slot, bytes, etag, cond, Uploaded);
    WriteRun(s, slot, bytes, etag, cond, Uploaded, fails);
  }

  /** A copy does the same with the bytes and the tag of any committed version whose file is still there. */
  lemma CopyTakesEffect(s: State, source: Path, slot: Slot, cond: Conditions, fails: bool)
    requires Inv(s) && s.serving && source in s.disk
    requires source in Versions(s.log) && Versions(s.log)[source].ObjectVersion?
    ensures var v := Versions(s.log)[source];
            Leaves(s, RunFrom(s, [BeginCopy(source, slot, cond)] + WriteSteps(s.next, fails)),
                   if !fails && Accepts(s.db, slot, cond)
                   then WithObject(s, slot, v.bytes, v.etag, cond, CopiedFrom(source)) else s)
  {
    var v := Versions(s.log)[source];
    InvIs(s);
    assert s.disk[source].bytes == v.bytes;
    Guarantees.RunSplits(s, BeginCopy(source, slot, cond), WriteSteps(s.next, fails));
    assert Apply(s, BeginCopy(source, slot, cond)) == Begun(s, slot, v.bytes, v.etag, cond, CopiedFrom(source));
    WriteRun(s, slot, v.bytes, v.etag, cond, CopiedFrom(source), fails);
  }

  /** A PUT whose digest is wrong changes nothing. */
  lemma WrongDigestChangesNothing(s: State, slot: Slot, bytes: Bytes, etag: string, cond: Conditions)
    requires Inv(s) && s.serving
    ensures Leaves(s, RunFrom(s, [BeginPut(slot, bytes, etag, cond)]
                                 + ([FinishWrite(s.next, WriteOk), RejectDigest(s.next)] + CleanUp(s.next))), s)
  {
    var n, path := s.next, ObjectPath(slot.bucket, s.next);
    var b, steps := Begun(s, slot, bytes, etag, cond, Uploaded), [FinishWrite(n, WriteOk), RejectDigest(n)] + CleanUp(n);
    FreshRequest(s);
    Guarantees.RunSplits(s, BeginPut(slot, bytes, etag, cond), steps);
    assert Apply(s, BeginPut(slot, bytes, etag, cond)) == b;
    Fill(s, slot, bytes, etag, cond, Uploaded);
    TwoSteps(b, steps);
    assert steps[2..] == CleanUp(n);
    Rejects(s, slot, bytes, etag, cond, s.temps - {n});
    CleanUpDiscards(s, path, File(bytes, true), s.temps - {n});
  }

  lemma Rejects(s: State, slot: Slot, bytes: Bytes, etag: string, cond: Conditions, temps: set<Id>)
    ensures var x := PutFile(s, ObjectPath(slot.bucket, s.next), File(bytes, true));
            DoRejectDigest(Under(x, Written(slot, bytes, etag, cond, Uploaded), temps), s.next)
            == Under(x, Discarding(ObjectPath(slot.bucket, s.next)), temps)
  {
  }

  // ---- DeleteObject, EmptyBucket and forced deletion ----

  /** These rows and their files are gone, and the history says so. */
  function WithoutObjects(s: State, slots: set<Slot>): State
  {
    s.(db := s.db.(objects := s.db.objects - slots),
       disk := s.disk - (set k | k in slots && k in s.db.objects :: s.db.objects[k].path),
       log := s.log + [Removed(slots)])
  }

  function DeleteSteps(n: Id, slot: Slot, path: Path, fails: bool): seq<Step>
  {
    [BeginDelete(slot, path), DeleteRow(n, if fails then Failed else Done)] + Unlinks(n, 2)
  }

  /** The row is gone and its file is the next to go. */
  lemma RowDeleted(s: State, slot: Slot)
    requires slot in s.db.objects
    ensures DoDeleteRow(Spawn(s, DeleteLoaded(slot, s.db.objects[slot].path)), s.next, Done)
         == Under(Commit(s, s.db.(objects := s.db.objects - {slot}), Removed({slot})),
                  Unlinking([s.db.objects[slot].path]), s.temps)
  {
  }

  lemma NoRowDeleted(s: State, slot: Slot, path: Path, fails: bool)
    requires s.next !in s.actors && (fails || slot !in s.db.objects)
    ensures DoDeleteRow(Spawn(s, DeleteLoaded(slot, path)), s.next, if fails then Failed else Done)
         == s.(next := s.next + 1)
  {
    assert s.actors[s.next := DeleteLoaded(slot, path)] - {s.next} == s.actors;
  }

  lemma LoadsRow(s: State, slot: Slot)
    requires Inv(s) && s.serving && slot in s.db.objects
    ensures DoBeginDelete(s, slot, s.db.objects[slot].path) == Spawn(s, DeleteLoaded(slot, s.db.objects[slot].path))
  {
    InvIs(s);
    RowsAreVersions(s.log);
  }

  lemma DeleteRun(s: State, slot: Slot, path: Path, fails: bool)
    ensures RunFrom(s, DeleteSteps(s.next, slot, path, fails))
         == RunFrom(DoDeleteRow(DoBeginDelete(s, slot, path), s.next, if fails then Failed else Done), Unlinks(s.next, 2))
  {
    TwoSteps(s, DeleteSteps(s.next, slot, path, fails));
    assert DeleteSteps(s.next, slot, path, fails)[2..] == Unlinks(s.next, 2);
  }

  /** The request is over without a trace before it has a file to remove. */
  lemma NothingToUnlink(s: State)
    requires Inv(s)
    ensures RunFrom(s, Unlinks(s.next, 2)) == s
    ensures Leaves(s, RunFrom(s.(next := s.next + 1), Unlinks(s.next, 2)), s)
  {
    FreshRequest(s);
    OverStays(s, Unlinks(s.next, 2), s.next);
    OverStays(s.(next := s.next + 1), Unlinks(s.next, 2), s.next);
  }

  lemma DeletionLeaves(s: State, slot: Slot)
    requires Inv(s) && slot in s.db.objects
    ensures Leaves(s, RunFrom(Under(Commit(s, s.db.(objects := s.db.objects - {slot}), Removed({slot})),
                                    Unlinking([s.db.objects[slot].path]), s.temps), Unlinks(s.next, 2)),
                   WithoutObjects(s, {slot}))
  {
    var path := s.db.objects[slot].path;
    FreshRequest(s);
    UnlinksLeave(s, Commit(s, s.db.(objects := s.db.objects - {slot}), Removed({slot})), [path], s.temps);
    assert (set p | p in [path]) == (set k | k in {slot} && k in s.db.objects :: s.db.objects[k].path);
  }

  /** A DELETE of a key removes its row and the file that the row names, and nothing else; if it fails, nothing at all. */
  lemma DeleteTakesEffect(s: State, slot: Slot, fails: bool)
    requires Inv(s) && s.serving && slot in s.db.objects
    ensures Leaves(s, RunFrom(s, DeleteSteps(s.next, slot, s.db.objects[slot].path, fails)),
                   if fails then s else WithoutObjects(s, {slot}))
  {
    var path := s.db.objects[slot].path;
    FreshRequest(s);
    LoadsRow(s, slot);
    DeleteRun(s, slot, path, fails);
    if fails {
      NoRowDeleted(s, slot, path, true);
      NothingToUnlink(s);
    } else {
      RowDeleted(s, slot);
      DeletionLeaves(s, slot);
    }
  }

  /** A DELETE that had loaded a row from the cache, and finds none any more, changes nothing. */
  lemma MissingKeyIsNotDeleted(s: State, slot: Slot, path: Path, fails: bool)
    requires Inv(s) && s.serving && slot !in s.db.objects
    ensures var t := RunFrom(s, DeleteSteps(s.next, slot, path, fails)); t == s || Leaves(s, t, s)
  {
    FreshRequest(s);
    DeleteRun(s, slot, path, fails);
    NothingToUnlink(s);
    if DoBeginDelete(s, slot, path) != s {
      NoRowDeleted(s, slot, path, fails);
    }
  }

  /** The listing loop of EmptyBucket. */
  function Pages(n: Id, pages: seq<seq<Slot>>): seq<Step>
  {
    seq(|pages|, i requires 0 <= i < |pages| => ListPage(n, pages[i]))
  }

  predicate PagesIn(db: Db, bucket: Bucket, pages: seq<seq<Slot>>)
  {
    forall i :: 0 <= i < |pages| ==> RowsIn(db, bucket, pages[i])
  }

  function Listed(db: Db, bucket: Bucket, pages: seq<seq<Slot>>): seq<Path>
    requires PagesIn(db, bucket, pages)
  {
    if pages == [] then []
    else Listed(db, bucket, pages[..|pages| - 1]) + PathsOf(db, pages[|pages| - 1])
  }

  lemma {:induction false} PagesRun(s: State, bucket: Bucket, pages: seq<seq<Slot>>)
    requires PagesIn(s.db, bucket, pages)
    ensures RunFrom(Spawn(s, EmptyListing(bucket, [])), Pages(s.next, pages))
         == Spawn(s, EmptyListing(bucket, Listed(s.db, bucket, pages)))
  {
    if pages == [] {
    } else {
      var init := pages[..|pages| - 1];
      PagesRun(s, bucket, init);
      assert Pages(s.next, pages)[..|pages| - 1] == Pages(s.next, init);
      PageListed(s, bucket, Listed(s.db, bucket, init), pages[|pages| - 1]);
    }
  }

  lemma PageListed(s: State, bucket: Bucket, paths: seq<Path>, page: seq<Slot>)
    requires RowsIn(s.db, bucket, page)
    ensures Apply(Spawn(s, EmptyListing(bucket, paths)), ListPage(s.next, page))
         == Spawn(s, EmptyListing(bucket, paths + PathsOf(s.db, page)))
  {
  }

  /** The pages have every key of the bucket. */
  predicate Covers(db: Db, bucket: Bucket, pages: seq<seq<Slot>>)
  {
    && PagesIn(db, bucket, pages)
    && forall k :: k in db.objects && k.bucket == bucket ==> exists i :: 0 <= i < |pages| && k in pages[i]
  }

  lemma {:induction false} ListedMeaning(db: Db, bucket: Bucket, pages: seq<seq<Slot>>, p: Path)
    requires PagesIn(db, bucket, pages)
    ensures p in Listed(db, bucket, pages) <==>
              exists i, k :: 0 <= i < |pages| && k in pages[i] && k in db.objects && db.objects[k].path == p
  {
    if pages == [] {
    } else {
      var n := |pages| - 1;
      ListedMeaning(db, bucket, pages[..n], p);
      var last := PathsOf(db, pages[n]);
      if p in last {
        var j :| 0 <= j < |last| && last[j] == p;
        assert pages[n][j] in pages[n];
      }
      forall k | k in pages[n] && k in db.objects && db.objects[k].path == p ensures p in last {
        var j :| 0 <= j < |pages[n]| && pages[n][j] == k;
        assert last[j] == p;
      }
    }
  }

  /** A complete listing has exactly the paths of the rows of the bucket. */
  lemma ListedAll(db: Db, bucket: Bucket, pages: seq<seq<Slot>>)
    requires Covers(db, bucket, pages)
    ensures (set p | p in Listed(db, bucket, pages))
         == (set k | k in SlotsIn(db, bucket) && k in db.objects :: db.objects[k].path)
  {
    var rows := set k | k in SlotsIn(db, bucket) && k in db.objects :: db.objects[k].path;
    forall p ensures p in Listed(db, bucket, pages) <==> p in rows {
      ListedMeaning(db, bucket, pages, p);
      if p in Listed(db, bucket, pages) {
        var i, k :| 0 <= i < |pages| && k in pages[i] && k in db.objects && db.objects[k].path == p;
        assert RowsIn(db, bucket, pages[i]);
      }
    }
  }

  function EmptySteps(n: Id, bucket: Bucket, pages: seq<seq<Slot>>, fails: bool, k: nat): seq<Step>
  {
    [BeginEmpty(bucket)] + (Pages(n, pages) + ([DeleteAllRows(n, if fails then Failed else Done)] + Unlinks(n, k)))
  }

  lemma EmptyRun(s: State, bucket: Bucket, pages: seq<seq<Slot>>, fails: bool, k: nat)
    requires s.serving && PagesIn(s.db, bucket, pages)
    ensures RunFrom(s, EmptySteps(s.next, bucket, pages, fails, k))
         == RunFrom(Spawn(s, EmptyListing(bucket, Listed(s.db, bucket, pages))),
                    [DeleteAllRows(s.next, if fails then Failed else Done)] + Unlinks(s.next, k))
  {
    ThreeParts(s, BeginEmpty(bucket), Pages(s.next, pages),
               [DeleteAllRows(s.next, if fails then Failed else Done)] + Unlinks(s.next, k));
    PagesRun(s, bucket, pages);
  }

  lemma RowsDeleted(s: State, bucket: Bucket, paths: seq<Path>)
    ensures DoDeleteAllRows(Spawn(s, EmptyListing(bucket, paths)), s.next, Done)
         == Under(Commit(s, s.db.(objects := s.db.objects - SlotsIn(s.db, bucket)), Removed(SlotsIn(s.db, bucket))),
                  Unlinking(paths), s.temps)
  {
  }

  lemma NoRowsDeleted(s: State, bucket: Bucket, paths: seq<Path>)
    requires s.next !in s.actors
    ensures DoDeleteAllRows(Spawn(s, EmptyListing(bucket, paths)), s.next, Failed) == s.(next := s.next + 1)
  {
    assert s.actors[s.next := EmptyListing(bucket, paths)] - {s.next} == s.actors;
  }

  lemma EmptyingFails(s: State, bucket: Bucket, paths: seq<Path>)
    requires s.next !in s.actors
    ensures Leaves(s, RunFrom(Spawn(s, EmptyListing(bucket, paths)),
                              [DeleteAllRows(s.next, Failed)] + Unlinks(s.next, |paths| + 1)), s)
  {
    Guarantees.RunSplits(Spawn(s, EmptyListing(bucket, paths)), DeleteAllRows(s.next, Failed), Unlinks(s.next, |paths| + 1));
    NoRowsDeleted(s, bucket, paths);
    OverStays(s.(next := s.next + 1), Unlinks(s.next, |paths| + 1), s.next);
  }

  lemma EmptyingLeaves(s: State, bucket: Bucket, pages: seq<seq<Slot>>)
    requires Inv(s) && Covers(s.db, bucket, pages)
    ensures var paths := Listed(s.db, bucket, pages);
            Leaves(s, RunFrom(Spawn(s, EmptyListing(bucket, paths)),
                              [DeleteAllRows(s.next, Done)] + Unlinks(s.next, |paths| + 1)),
                   WithoutObjects(s, SlotsIn(s.db, bucket)))
  {
    var slots, paths := SlotsIn(s.db, bucket), Listed(s.db, bucket, pages);
    FreshRequest(s);
    Guarantees.RunSplits(Spawn(s, EmptyListing(bucket, paths)), DeleteAllRows(s.next, Done), Unlinks(s.next, |paths| + 1));
    RowsDeleted(s, bucket, paths);
    ListedAll(s.db, bucket, pages);
    UnlinksLeave(s, Commit(s, s.db.(objects := s.db.objects - slots), Removed(slots)), paths, s.temps);
  }

  /**
   EmptyBucket, whatever its pages, removes all rows of the bucket and exactly their files, and nothing else; if the
   deletion of the rows fails, nothing at all.
   */
  lemma EmptyTakesEffect(s: State, bucket: Bucket, pages: seq<seq<Slot>>, fails: bool)
    requires Inv(s) && s.serving && Covers(s.db, bucket, pages)
    ensures var k := |Listed(s.db, bucket, pages)| + 1;
            Leaves(s, RunFrom(s, EmptySteps(s.next, bucket, pages, fails, k)),
                   if fails then s else WithoutObjects(s, set k | k in s.db.objects && k.bucket == bucket))
  {
    var paths := Listed(s.db, bucket, pages);
    FreshRequest(s);
    EmptyRun(s, bucket, pages, fails, |paths| + 1);
    if fails {
      EmptyingFails(s, bucket, paths);
    } else {
      EmptyingLeaves(s, bucket, pages);
      assert SlotsIn(s.db, bucket) == set k | k in s.db.objects && k.bucket == bucket;
    }
  }

  /** These are the paths of the rows of the bucket. */
  ghost predicate PathsOfBucket(db: Db, bucket: Bucket, paths: seq<Path>)
  {
    forall p :: p in paths <==> exists k :: k in db.objects && k.bucket == bucket && db.objects[k].path == p
  }

  function Forced(s: State, bucket: Bucket): State
  {
    var slots := SlotsIn(s.db, bucket);
    Commit(s, s.db.(objects := s.db.objects - slots, buckets := s.db.buckets - {bucket}), Removed(slots))
  }

  lemma ForcingLeaves(s: State, bucket: Bucket, paths: seq<Path>)
    requires Inv(s)
    requires PathsOfBucket(s.db, bucket, paths)
    ensures var x := WithoutObjects(s, SlotsIn(s.db, bucket));
            Leaves(s, RunFrom(Under(Forced(s, bucket), Unlinking(paths), s.temps), Unlinks(s.next, |paths| + 1)),
                   x.(db := x.db.(buckets := x.db.buckets - {bucket})))
  {
    FreshRequest(s);
    UnlinksLeave(s, Forced(s, bucket), paths, s.temps);
    assert (set p | p in paths) == set k | k in SlotsIn(s.db, bucket) && k in s.db.objects :: s.db.objects[k].path;
  }

  lemma ForceDeletes(s: State, bucket: Bucket, paths: seq<Path>)
    requires s.serving && bucket in s.db.buckets && !HasUploads(s.db, bucket)
    requires PathsOfBucket(s.db, bucket, paths)
    ensures DoForceDelete(s, bucket, paths) == Under(Forced(s, bucket), Unlinking(paths), s.temps)
  {
    var removed := DeleteWithObjects(s.db, bucket).value.1;
    assert removed.Keys == SlotsIn(s.db, bucket);
    forall i | 0 <= i < |paths| ensures NamesPath(removed, paths[i]) {
      assert paths[i] in paths;
      var k :| k in s.db.objects && k.bucket == bucket && s.db.objects[k].path == paths[i];
      assert k in SlotsIn(s.db, bucket);
    }
  }

  lemma ForceRun(s: State, bucket: Bucket, paths: seq<Path>)
    ensures RunFrom(s, [ForceDelete(bucket, paths)] + Unlinks(s.next, |paths| + 1))
         == RunFrom(DoForceDelete(s, bucket, paths), Unlinks(s.next, |paths| + 1))
  {
    Guarantees.RunSplits(s, ForceDelete(bucket, paths), Unlinks(s.next, |paths| + 1));
    ForceStepIs(s, bucket, paths);
  }

  lemma ForceStepIs(s: State, bucket: Bucket, paths: seq<Path>)
    ensures Apply(s, ForceDelete(bucket, paths)) == DoForceDelete(s, bucket, paths)
  {
  }

  lemma ForceRefused(s: State, bucket: Bucket, paths: seq<Path>)
    requires Inv(s) && (bucket !in s.db.buckets || HasUploads(s.db, bucket))
    ensures RunFrom(s, [ForceDelete(bucket, paths)] + Unlinks(s.next, |paths| + 1)) == s
  {
    FreshRequest(s);
    ForceRun(s, bucket, paths);
    assert DoForceDelete(s, bucket, paths) == s;
    OverStays(s, Unlinks(s.next, |paths| + 1), s.next);
  }

  /**
   A forced deletion removes the bucket, its rows and exactly their files, if and only if the bucket exists and has no
   upload; otherwise it changes nothing.
   */
  lemma ForceTakesEffect(s: State, bucket: Bucket, paths: seq<Path>)
    requires Inv(s) && s.serving && PathsOfBucket(s.db, bucket, paths)
    ensures var t := RunFrom(s, [ForceDelete(bucket, paths)] + Unlinks(s.next, |paths| + 1));
            var x := WithoutObjects(s, set k | k in s.db.objects && k.bucket == bucket);
            if bucket in s.db.buckets && forall u :: u in s.db.uploads ==> s.db.uploads[u].slot.bucket != bucket
            then Leaves(s, t, x.(db := x.db.(buckets := x.db.buckets - {bucket}))) else t == s
  {
    if bucket in s.db.buckets && !HasUploads(s.db, bucket) {
      ForceRun(s, bucket, paths);
      ForceDeletes(s, bucket, paths);
      ForcingLeaves(s, bucket, paths);
      assert SlotsIn(s.db, bucket) == set k | k in s.db.objects && k.bucket == bucket;
    } else {
      ForceRefused(s, bucket, paths);
    }
  }
}
