/**
 A DELETE or an EmptyBucket reads rows first, deletes rows next and removes files last. A write in between loses
 track of a file. When exactly that happens, and whether the file can still go before the next startup.
 */
module Races {
  import opened Wrappers
  import opened Metadata
  import opened History
  import opened Lifecycle
  import opened Invariant
  import opened Preservation
  import opened Accounting
  import opened Orphans
  import Guarantees

  predicate CalmRun(more: seq<Step>, q: Path)
  {
    forall i :: 0 <= i < |more| ==> Calm(more[i], q)
  }

  /** Some calm continuation removes the file. */
  ghost predicate CanGo(s: State, q: Path)
  {
    exists more :: CalmRun(more, q) && q !in RunFrom(s, more).disk
  }

  // ---- Requests that hold a stray file can remove it ----

  lemma OneStep(s: State, step: Step)
    ensures RunFrom(s, [step]) == Apply(s, step)
  {
    Guarantees.RunSplits(s, step, []);
    assert [step] + [] == [step];
    assert RunFrom(Apply(s, step), []) == Apply(s, step);
  }

  lemma StepThenGo(s: State, step: Step, q: Path)
    requires Calm(step, q) && CanGo(Apply(s, step), q)
    ensures CanGo(s, q)
  {
    var rest :| CalmRun(rest, q) && q !in RunFrom(Apply(s, step), rest).disk;
    Guarantees.RunSplits(s, step, rest);
    assert CalmRun([step] + rest, q);
  }

  lemma GoneAlready(s: State, q: Path)
    requires q !in s.disk
    ensures CanGo(s, q)
  {
    assert RunFrom(s, []) == s;
    assert CalmRun([], q);
  }

  lemma {:induction false} UnlinkingCanGo(s: State, b: Id, paths: seq<Path>, q: Path)
    requires b in s.actors && s.actors[b] == Unlinking(paths) && q in paths
    ensures CanGo(s, q)
    decreases |paths|
  {
    var t := DoUnlink(s, b, true, false);
    if paths[0] == q {
      GoneAlready(t, q);
    } else {
      UnlinkingCanGo(t, b, paths[1..], q);
    }
    StepThenGo(s, Unlink(b, true, false), q);
  }

  lemma SettledCanGo(s: State, b: Id, q: Path)
    requires b in s.actors && s.actors[b].CompleteSettled? && s.actors[b].replaced == Some(q)
    ensures CanGo(s, q)
  {
    GoneAlready(DoUnlinkReplaced(s, b, true), q);
    StepThenGo(s, UnlinkReplaced(b, true), q);
  }

  lemma ListedCanGo(s: State, b: Id, q: Path)
    requires b in s.actors && s.actors[b].EmptyListing? && q in s.actors[b].paths
    ensures CanGo(s, q)
  {
    var t := DoDeleteAllRows(s, b, Done);
    UnlinkingCanGo(t, b, s.actors[b].paths, q);
    StepThenGo(s, DeleteAllRows(b, Done), q);
  }

  lemma LoadedCanGo(s: State, b: Id, q: Path)
    requires b in s.actors && s.actors[b].DeleteLoaded? && s.actors[b].path == q
    requires s.actors[b].slot in s.db.objects
    ensures CanGo(s, q)
  {
    var t := DoDeleteRow(s, b, Done);
    UnlinkingCanGo(t, b, [q], q);
    StepThenGo(s, DeleteRow(b, Done), q);
  }

  const ANY := Conditions("", "")

  /** The state after a PUT in which nothing fails. */
  function AfterPut(s: State, slot: Slot, etag: string): State
  {
    var n, path := s.next, ObjectPath(slot.bucket, s.next);
    var replaced := Lookup(s.db.objects, slot);
    State(s.serving, n + 1, Upsert(s.db, slot, ObjectRow(path, etag)), s.disk[path := File([], true)], s.temps - {n},
          s.actors[n := Unlinking(if replaced.Some? then [replaced.value.path] else [])],
          s.log + [Stored(slot, path, etag, [], ANY, Uploaded, replaced)])
  }

  lemma WriteFinishes(s: State, slot: Slot, etag: string)
    requires s.serving
    ensures DoFinishWrite(DoBeginPut(s, slot, [], etag, ANY), s.next, WriteOk)
         == State(true, s.next + 1, s.db, s.disk[ObjectPath(slot.bucket, s.next) := File([], true)], s.temps - {s.next},
                  s.actors[s.next := Written(slot, [], etag, ANY, Uploaded)], s.log)
  {
    var t := DoBeginPut(s, slot, [], etag, ANY);
    assert t.temps - {s.next} == s.temps - {s.next};
  }

  lemma PutSucceeds(s: State, slot: Slot, etag: string)
    requires s.serving && slot.bucket in s.db.buckets
    ensures DoCommitWrite(DoFinishWrite(DoBeginPut(s, slot, [], etag, ANY), s.next, WriteOk), s.next, false)
         == AfterPut(s, slot, etag)
  {
    WriteFinishes(s, slot, etag);
  }

  /** A client writes the key again; then the DELETE in flight finds a row. */
  lemma RewrittenCanGo(s: State, b: Id, q: Path)
    requires s.serving && s.next !in s.actors
    requires b in s.actors && s.actors[b].DeleteLoaded? && s.actors[b].path == q
    requires s.actors[b].slot.bucket in s.db.buckets
    ensures CanGo(s, q)
  {
    var slot, n := s.actors[b].slot, s.next;
    var s1 := DoBeginPut(s, slot, [], "", ANY);
    var s2 := DoFinishWrite(s1, n, WriteOk);
    PutSucceeds(s, slot, "");
    LoadedCanGo(AfterPut(s, slot, ""), b, q);
    StepThenGo(s2, CommitWrite(n, false), q);
    StepThenGo(s1, FinishWrite(n, WriteOk), q);
    StepThenGo(s, BeginPut(slot, [], "", ANY), q);
  }

  /** If the bucket is gone it is created again first. */
  lemma RecreatedCanGo(s: State, b: Id, q: Path)
    requires s.serving && s.next !in s.actors
    requires b in s.actors && s.actors[b].DeleteLoaded? && s.actors[b].path == q
    ensures CanGo(s, q)
  {
    var t := DoCreateBucket(s, s.actors[b].slot.bucket);
    RewrittenCanGo(t, b, q);
    StepThenGo(s, CreateBucket(s.actors[b].slot.bucket), q);
  }

  lemma HandledCanGo(s: State, b: Id, q: Path)
    requires Inv(s) && Stray(s, q) && HandledBy(s, b, q)
    ensures CanGo(s, q)
  {
    InvAt(s, b);
    match s.actors[b]
    case Unlinking(paths) => UnlinkingCanGo(s, b, paths, q);
    case CompleteSettled(_, _) => SettledCanGo(s, b, q);
    case EmptyListing(_, _) => ListedCanGo(s, b, q);
    case DeleteLoaded(_, _) =>
      if s.actors[b].slot.bucket in s.db.buckets {
        RewrittenCanGo(s, b, q);
      } else {
        RecreatedCanGo(s, b, q);
      }
    case _ => assert false;
  }

  /** A stray file can go before the next startup, unless loaded again, exactly when some request still handles it. */
  lemma StrayCanGo(s: State, q: Path)
    requires Inv(s) && Stray(s, q)
    ensures CanGo(s, q) <==> exists b: Id :: HandledBy(s, b, q)
  {
    if b: Id :| HandledBy(s, b, q) {
      HandledCanGo(s, b, q);
    } else if CanGo(s, q) {
      var more :| CalmRun(more, q) && q !in RunFrom(s, more).disk;
      RunForgets(s, more, q);
    }
  }

  // ---- Losing track ----

  /** A file that a row names is not on anybody's list of files to remove. */
  lemma NamedIsNotOwed(s: State, b: Id, slot: Slot)
    requires Inv(s) && slot in s.db.objects
    ensures !OwedBy(s, b, s.db.objects[slot].path)
  {
    InvAt(s, b);
    RowsAreVersions(s.log);
    if b in s.actors && s.actors[b].CompleteSettled? && s.actors[b].replaced.Some? {
      assert Droppable(s, [s.actors[b].replaced.value]) && [s.actors[b].replaced.value][0] == s.actors[b].replaced.value;
    }
  }

  lemma RowLeavesStray(s: State, t: State, slot: Slot)
    requires WorldOk(s) && s.serving && slot in s.db.objects
    requires t.serving && t.disk == s.disk && s.log <= t.log && slot !in t.db.objects
    requires forall k :: k in t.db.objects ==> k in s.db.objects && t.db.objects[k] == s.db.objects[k]
    ensures Stray(t, s.db.objects[slot].path)
  {
    var q := s.db.objects[slot].path;
    RowsAreVersions(s.log);
    VersionsExtend(s.log, t.log, q);
    forall k | k in t.db.objects ensures t.db.objects[k].path != q {
      assert Versions(s.log)[s.db.objects[k].path].slot == k;
    }
  }

  lemma ActorsMeanServing(s: State, a: Id)
    requires Inv(s) && a in s.actors
    ensures s.serving
  {
    InvIs(s);
  }

  /** The file of the row that a DELETE removes, and who handles it then. */
  lemma AfterDelete(s: State, a: Id)
    requires Inv(s) && a in s.actors && s.actors[a].DeleteLoaded? && s.actors[a].slot in s.db.objects
    ensures var q, t := s.db.objects[s.actors[a].slot].path, DoDeleteRow(s, a, Done);
            && Stray(t, q)
            && (forall b: Id :: HandledBy(t, b, q) <==> if b == a then s.actors[a].path == q else HandledBy(s, b, q))
  {
    InvIs(s);
    ActorsMeanServing(s, a);
    RowLeavesStray(s, DoDeleteRow(s, a, Done), s.actors[a].slot);
  }

  /**
   A DELETE loads a row, deletes by key, and removes the file it had loaded. When it has deleted the row, the file of
   that row is scheduled for removal exactly when it is the one that was loaded. Otherwise the file can go before the
   next startup, without a DELETE that loads it later, exactly when another request had loaded or listed it.
   */
  lemma OverwrittenDuringDelete(s: State, a: Id)
    requires Inv(s) && a in s.actors && s.actors[a].DeleteLoaded? && s.actors[a].slot in s.db.objects
    ensures var q, t := s.db.objects[s.actors[a].slot].path, DoDeleteRow(s, a, Done);
            && q in t.disk && Orphan(t.db, q)
            && ((exists b: Id :: OwedBy(t, b, q)) <==> s.actors[a].path == q)
            && (CanGo(t, q) <==> s.actors[a].path == q || exists b: Id :: b != a && HandledBy(s, b, q))
  {
    var slot := s.actors[a].slot;
    var q, t := s.db.objects[slot].path, DoDeleteRow(s, a, Done);
    AfterDelete(s, a);
    DeleteRowKeeps(s, a, Done);
    StrayCanGo(t, q);
    WhoOwes(s, t, a, slot);
    assert HandledBy(t, a, q) <==> s.actors[a].path == q;
  }

  lemma WhoOwes(s: State, t: State, a: Id, slot: Slot)
    requires Inv(s) && slot in s.db.objects && a in t.actors && t.actors[a].Unlinking?
    requires forall b :: b in t.actors && b != a ==> b in s.actors && t.actors[b] == s.actors[b]
    ensures forall b: Id :: OwedBy(t, b, s.db.objects[slot].path) ==> b == a
    ensures OwedBy(t, a, s.db.objects[slot].path) <==> HandledBy(t, a, s.db.objects[slot].path)
  {
    forall b: Id | b != a ensures !OwedBy(t, b, s.db.objects[slot].path) {
      NamedIsNotOwed(s, b, slot);
    }
  }

  lemma AfterEmptying(s: State, a: Id, slot: Slot)
    requires Inv(s) && a in s.actors && s.actors[a].EmptyListing? && slot in SlotsIn(s.db, s.actors[a].bucket)
    ensures var q, t := s.db.objects[slot].path, DoDeleteAllRows(s, a, Done);
            && Stray(t, q)
            && (forall b: Id :: HandledBy(t, b, q) <==> if b == a then q in s.actors[a].paths else HandledBy(s, b, q))
  {
    InvIs(s);
    ActorsMeanServing(s, a);
    RowLeavesStray(s, DoDeleteAllRows(s, a, Done), slot);
  }

  /**
   EmptyBucket lists the rows, deletes all rows of the bucket, and removes the listed files. The file of a row that
   goes is scheduled for removal exactly when it was listed; otherwise as for a DELETE.
   */
  lemma WrittenDuringEmptying(s: State, a: Id, slot: Slot)
    requires Inv(s) && a in s.actors && s.actors[a].EmptyListing? && slot in SlotsIn(s.db, s.actors[a].bucket)
    ensures var q, t := s.db.objects[slot].path, DoDeleteAllRows(s, a, Done);
            && q in t.disk && Orphan(t.db, q)
            && ((exists b: Id :: OwedBy(t, b, q)) <==> q in s.actors[a].paths)
            && (CanGo(t, q) <==> q in s.actors[a].paths || exists b: Id :: b != a && HandledBy(s, b, q))
  {
    var q, t := s.db.objects[slot].path, DoDeleteAllRows(s, a, Done);
    AfterEmptying(s, a, slot);
    DeleteAllRowsKeeps(s, a, Done);
    StrayCanGo(t, q);
    WhoOwes(s, t, a, slot);
    assert HandledBy(t, a, q) <==> q in s.actors[a].paths;
  }

  // ---- Both races happen, for any key of a fresh store ----

  function First(slot: Slot): Path
  {
    ObjectPath(slot.bucket, 0)
  }

  function Second(slot: Slot): Path
  {
    ObjectPath(slot.bucket, 2)
  }

  /** The steps of a PUT by request n. */
  function Put(slot: Slot, etag: string, n: Id): seq<Step>
  {
    [BeginPut(slot, [], etag, ANY), FinishWrite(n, WriteOk), CommitWrite(n, false)]
  }

  /** PUT, then a DELETE that loads the row, then a PUT of the same key before the DELETE goes on. */
  function DeleteRace(slot: Slot): seq<Step>
  {
    [CreateBucket(slot.bucket)] + (Put(slot, "x", 0) + ([BeginDelete(slot, First(slot))] + Put(slot, "y", 2)))
  }

  /** The same with EmptyBucket, which has listed the bucket when the second PUT commits. */
  function EmptyRace(slot: Slot): seq<Step>
  {
    [CreateBucket(slot.bucket)]
    + (Put(slot, "x", 0) + ([BeginEmpty(slot.bucket)] + ([ListPage(1, [slot])] + Put(slot, "y", 2))))
  }

  lemma PutRun(s: State, slot: Slot, etag: string)
    requires s.serving && slot.bucket in s.db.buckets
    ensures RunFrom(s, Put(slot, etag, s.next)) == AfterPut(s, slot, etag)
  {
    ThreeSteps(s, BeginPut(slot, [], etag, ANY), FinishWrite(s.next, WriteOk), CommitWrite(s.next, false));
    PutSucceeds(s, slot, etag);
  }

  lemma ThreeSteps(s: State, x: Step, y: Step, z: Step)
    ensures RunFrom(s, [x, y, z]) == Apply(Apply(Apply(s, x), y), z)
  {
    Guarantees.RunSplits(s, x, [y, z]);
    Guarantees.RunSplits(Apply(s, x), y, [z]);
    OneStep(Apply(Apply(s, x), y), z);
    assert [x] + [y, z] == [x, y, z] && [y] + [z] == [y, z];
  }

  /** Nothing but an empty bucket. */
  function OneBucket(bucket: Bucket): State
  {
    State(true, 0, Db({bucket}, map[], map[], map[]), map[], {}, map[], [])
  }

  /** One object, and the PUT that stored it has nothing left to do. */
  function OneObject(slot: Slot): State
  {
    State(true, 1, Db({slot.bucket}, map[slot := ObjectRow(First(slot), "x")], map[], map[]),
          map[First(slot) := File([], true)], {}, map[0 := Unlinking([])],
          [Stored(slot, First(slot), "x", [], ANY, Uploaded, None)])
  }

  /** Besides, request 1 is at pc. */
  function WithRequest(slot: Slot, pc: Actor): State
  {
    OneObject(slot).(next := 2, actors := map[0 := Unlinking([]), 1 := pc])
  }

  lemma FirstObject(slot: Slot)
    ensures DoCreateBucket(INITIAL, slot.bucket) == OneBucket(slot.bucket)
    ensures AfterPut(OneBucket(slot.bucket), slot, "x") == OneObject(slot)
  {
    var t := AfterPut(OneBucket(slot.bucket), slot, "x");
    assert t.actors == map[0 := Unlinking([])] && t.disk == map[First(slot) := File([], true)];
    assert t.db.objects == map[slot := ObjectRow(First(slot), "x")];
  }

  lemma LoadedObject(slot: Slot)
    ensures DoBeginDelete(OneObject(slot), slot, First(slot)) == WithRequest(slot, DeleteLoaded(slot, First(slot)))
  {
    var log := OneObject(slot).log;
    assert Versions(log[..0]) == map[];
    assert Versions(log) == VersionsAfter(Versions(log[..0]), log[0]);
  }

  lemma ListedBucket(slot: Slot)
    ensures DoListPage(DoBeginEmpty(OneObject(slot), slot.bucket), 1, [slot])
         == WithRequest(slot, EmptyListing(slot.bucket, [First(slot)]))
  {
    var s := DoBeginEmpty(OneObject(slot), slot.bucket);
    assert RowsIn(s.db, slot.bucket, [slot]);
    assert [] + PathsOf(s.db, [slot]) == [First(slot)];
    assert DoListPage(s, 1, [slot]).actors == map[0 := Unlinking([]), 1 := EmptyListing(slot.bucket, [First(slot)])];
  }

  lemma PutThen(s: State, slot: Slot, etag: string, more: seq<Step>)
    requires s.serving && slot.bucket in s.db.buckets
    ensures RunFrom(s, Put(slot, etag, s.next) + more) == RunFrom(AfterPut(s, slot, etag), more)
  {
    Guarantees.RunJoins(s, Put(slot, etag, s.next), more);
    PutRun(s, slot, etag);
  }

  lemma BucketThen(s: State, bucket: Bucket, more: seq<Step>)
    ensures RunFrom(s, [CreateBucket(bucket)] + more) == RunFrom(DoCreateBucket(s, bucket), more)
  {
    Guarantees.RunSplits(s, CreateBucket(bucket), more);
  }

  /** The first PUT. */
  lemma AfterFirstPut(slot: Slot, put: seq<Step>, more: seq<Step>)
    requires put == Put(slot, "x", 0)
    ensures Run([CreateBucket(slot.bucket)] + (put + more)) == RunFrom(OneObject(slot), more)
  {
    FirstObject(slot);
    BucketThen(INITIAL, slot.bucket, put + more);
    PutThen(OneBucket(slot.bucket), slot, "x", more);
  }

  lemma DeleteRaceRun(slot: Slot)
    ensures Run(DeleteRace(slot)) == AfterPut(WithRequest(slot, DeleteLoaded(slot, First(slot))), slot, "y")
  {
    var load := BeginDelete(slot, First(slot));
    AfterFirstPut(slot, Put(slot, "x", 0), [load] + Put(slot, "y", 2));
    Guarantees.RunSplits(OneObject(slot), load, Put(slot, "y", 2));
    LoadedObject(slot);
    PutRun(WithRequest(slot, DeleteLoaded(slot, First(slot))), slot, "y");
  }

  lemma EmptyRaceRun(slot: Slot)
    ensures Run(EmptyRace(slot)) == AfterPut(WithRequest(slot, EmptyListing(slot.bucket, [First(slot)])), slot, "y")
  {
    AfterFirstPut(slot, Put(slot, "x", 0), [BeginEmpty(slot.bucket)] + ([ListPage(1, [slot])] + Put(slot, "y", 2)));
    ListedThen(slot, Put(slot, "y", 2));
    PutRun(WithRequest(slot, EmptyListing(slot.bucket, [First(slot)])), slot, "y");
  }

  lemma ListedThen(slot: Slot, more: seq<Step>)
    ensures RunFrom(OneObject(slot), [BeginEmpty(slot.bucket)] + ([ListPage(1, [slot])] + more))
         == RunFrom(WithRequest(slot, EmptyListing(slot.bucket, [First(slot)])), more)
  {
    var empty, list := BeginEmpty(slot.bucket), ListPage(1, [slot]);
    Guarantees.RunSplits(OneObject(slot), empty, [list] + more);
    Guarantees.RunSplits(DoBeginEmpty(OneObject(slot), slot.bucket), list, more);
    ListedBucket(slot);
  }

  /** The row is gone, its file is not, and nobody will come for it before the next startup. */
  ghost predicate LostTrack(t: State, q: Path)
  {
    t.serving && q in t.disk && Orphan(t.db, q) && !CanGo(t, q)
  }

  lemma NobodyElse(slot: Slot, pc: Actor, b: Id)
    requires b != 1
    ensures !HandledBy(AfterPut(WithRequest(slot, pc), slot, "y"), b, Second(slot))
  {
  }

  lemma DeleteLosesTrack(slot: Slot)
    ensures LostTrack(Apply(Run(DeleteRace(slot)), DeleteRow(1, Done)), Second(slot))
  {
    var pc := DeleteLoaded(slot, First(slot));
    var s := AfterPut(WithRequest(slot, pc), slot, "y");
    RunKeeps(DeleteRace(slot));
    DeleteRaceRun(slot);
    OverwrittenDuringDelete(s, 1);
    forall b: Id | b != 1 ensures !HandledBy(s, b, Second(slot)) {
      NobodyElse(slot, pc, b);
    }
  }

  lemma EmptyBucketLosesTrack(slot: Slot)
    ensures LostTrack(Apply(Run(EmptyRace(slot)), DeleteAllRows(1, Done)), Second(slot))
  {
    var pc := EmptyListing(slot.bucket, [First(slot)]);
    var s := AfterPut(WithRequest(slot, pc), slot, "y");
    RunKeeps(EmptyRace(slot));
    EmptyRaceRun(slot);
    WrittenDuringEmptying(s, 1, slot);
    forall b: Id | b != 1 ensures !HandledBy(s, b, Second(slot)) {
      NobodyElse(slot, pc, b);
    }
  }
}
