/** Startup reconciliation as it walks the data directory, and what it means for the transition system. */
module Reconcile {
  import opened Wrappers
  import opened Metadata
  import opened Lifecycle
  import opened Invariant
  import opened Preservation
  import Guarantees
  import KeyOrder
  import ObjectOps

  type Disk = map<Path, File>

  /** The key order in which the table lists the rows of each bucket; key validation refuses empty keys. */
  type Index = map<Bucket, seq<string>>

  ghost predicate Indexed(db: Db, index: Index)
  {
    && (forall k :: k in db.objects ==> k.bucket in index)
    && (forall b :: b in index ==>
          && KeyOrder.Sorted(index[b])
          && "" !in index[b]
          && forall key :: key in index[b] <==> Slot(b, key) in db.objects)
  }

  predicate InBucket(p: Path, bucket: Bucket)
  {
    p.ObjectPath? && p.bucket == bucket
  }

  /** Only files that the rows do not account for are gone, and nothing else changed. */
  ghost predicate OnlyLeftoversGone(db: Db, before: Disk, after: Disk)
  {
    && after.Keys <= before.Keys
    && (forall p :: p in after ==> after[p] == before[p])
    && (forall p :: p in before && p !in after ==> Leftover(db, p))
  }

  function Cleaned(db: Db, disk: Disk): Disk
  {
    map p | p in disk && !Leftover(db, p) :: disk[p]
  }

  /** The paths of the rows of a bucket. */
  function BucketPaths(db: Db, bucket: Bucket): set<Path>
  {
    set k | k in db.objects && k.bucket == bucket :: db.objects[k].path
  }

  lemma UnknownIsOrphan(db: Db, p: Path)
    requires p.ObjectPath?
    ensures p in BucketPaths(db, p.bucket) <==> !Orphan(db, p)
  {
  }

  /** The callback of reconcileStorage: None exactly when the listing fails. */
  method KnownObjects(db: Db, index: Index, bucket: Bucket, fails: bool) returns (known: Option<set<Path>>)
    requires Indexed(db, index)
    ensures known == if fails then None else Some(BucketPaths(db, bucket))
  {
    if fails {
      return None;
    }
    if bucket !in index {
      assert BucketPaths(db, bucket) == {};
      return Some({});
    }
    var keys := ObjectOps.ListAllObjects(index[bucket]);
    ObjectOps.ListingIsComplete(index[bucket]);
    var paths: set<Path> := {};
    for i := 0 to |keys|
      invariant paths <= BucketPaths(db, bucket)
      invariant forall j :: 0 <= j < i ==> db.objects[Slot(bucket, keys[j])].path in paths
    {
      paths := paths + {db.objects[Slot(bucket, keys[i])].path};
    }
    forall p | p in BucketPaths(db, bucket) ensures p in paths {
      var k :| k in db.objects && k.bucket == bucket && db.objects[k].path == p;
      assert k == Slot(bucket, k.key) && k.key in keys;
    }
    assert paths == BucketPaths(db, bucket);
    return Some(paths);
  }

  class Engine {
    var disk: Disk
    var temps: set<Id>
    ghost var failures: nat

    constructor (disk: Disk, temps: set<Id>)
      ensures this.disk == disk && this.temps == temps && failures == 0
    {
      this.disk, this.temps, failures := disk, temps, 0;
    }

    /** os.Remove, which may fail. */
    method Remove(p: Path) returns (ok: bool)
      modifies this`disk, this`failures
      ensures disk == if ok then old(disk) - {p} else old(disk)
      ensures failures == old(failures) + if ok then 0 else 1
    {
      ok := *;
      if ok {
        disk := disk - {p};
      } else {
        failures := failures + 1;
      }
    }

    method PurgeTmp() returns (ok: bool)
      modifies this`temps, this`failures
      ensures temps <= old(temps) && (ok ==> temps == {})
      ensures failures == old(failures) + if ok then 0 else 1
    {
      var rest := temps;
      while rest != {}
        invariant rest <= temps <= old(temps) && temps <= rest && failures == old(failures)
        decreases rest
      {
        var t :| t in rest;
        var removed: bool := *;
        if !removed {
          failures := failures + 1;
          return false;
        }
        rest, temps := rest - {t}, temps - {t};
      }
      return true;
    }

    /** The walk over one bucket directory. */
    method WalkBucket(db: Db, bucket: Bucket, known: set<Path>) returns (ok: bool)
      requires known == BucketPaths(db, bucket)
      modifies this`disk, this`failures
      ensures failures == old(failures) + if ok then 0 else 1
      ensures OnlyLeftoversGone(db, old(disk), disk)
      ensures forall p :: p in old(disk) && p !in disk ==> InBucket(p, bucket)
      ensures ok ==> forall p :: p in disk && InBucket(p, bucket) ==> !Orphan(db, p)
    {
      var rest := set p | p in disk && InBucket(p, bucket);
      while rest != {}
        invariant failures == old(failures) && forall p :: p in rest ==> InBucket(p, bucket)
        invariant OnlyLeftoversGone(db, old(disk), disk)
        invariant forall p :: p in old(disk) && p !in disk ==> InBucket(p, bucket)
        invariant forall p :: p in disk && InBucket(p, bucket) && p !in rest ==> !Orphan(db, p)
        decreases rest
      {
        var p :| p in rest;
        rest := rest - {p};
        UnknownIsOrphan(db, p);
        if p in known {
          continue;
        }
        ok := Remove(p);
        if !ok {
          return;
        }
      }
      return true;
    }

    method Reconcile(db: Db, index: Index) returns (ok: bool)
      requires Indexed(db, index)
      modifies this
      ensures failures == old(failures) + if ok then 0 else 1
      ensures OnlyLeftoversGone(db, old(disk), disk) && temps <= old(temps)
      ensures forall p :: p in old(disk) && p !in disk ==> p.ObjectPath?
      ensures ok ==> temps == {} && forall p :: p in disk ==> !Orphan(db, p)
    {
      ok := PurgeTmp();
      if !ok {
        return;
      }
      var rest := set p | p in disk && p.ObjectPath? :: p.bucket;
      while rest != {}
        invariant OnlyLeftoversGone(db, old(disk), disk) && temps == {} && failures == old(failures)
        invariant forall p :: p in old(disk) && p !in disk ==> p.ObjectPath?
        invariant forall p :: p in disk && p.ObjectPath? && p.bucket !in rest ==> !Orphan(db, p)
        decreases rest
      {
        var bucket :| bucket in rest;
        rest := rest - {bucket};
        var fails: bool := *;
        var known := KnownObjects(db, index, bucket, fails);
        if known.None? {
          failures := failures + 1;
          return false;
        }
        ok := WalkBucket(db, bucket, known.value);
        if !ok {
          return;
        }
      }
      return true;
    }

    /** os.RemoveAll of a part directory, which may stop half way. */
    method RemovePartDir(upload: Id) returns (ok: bool)
      modifies this`disk, this`failures
      ensures failures == old(failures) + if ok then 0 else 1
      ensures disk.Keys <= old(disk).Keys && forall p :: p in disk ==> disk[p] == old(disk)[p]
      ensures forall p :: p in old(disk) && p !in disk ==> p.PartPath? && p.upload == upload
      ensures ok ==> forall p :: p in disk && p.PartPath? ==> p.upload != upload
    {
      var files := set p | p in disk && p.PartPath? && p.upload == upload;
      ok := *;
      if !ok {
        files :| files <= set p | p in disk && p.PartPath? && p.upload == upload;
        failures := failures + 1;
      }
      disk := disk - files;
    }

    method ReconcileMultipartTmp(db: Db) returns (ok: bool)
      modifies this`disk, this`failures
      ensures failures == old(failures) + if ok then 0 else 1
      ensures OnlyLeftoversGone(db, old(disk), disk)
      ensures forall p :: p in old(disk) && p !in disk ==> p.PartPath?
      ensures ok ==> forall p :: p in disk ==> !OrphanPart(db, p)
    {
      ok := *;
      if !ok {
        failures := failures + 1;
        return;
      }
      var rest := set p | p in disk && p.PartPath? :: p.upload;
      while rest != {}
        invariant OnlyLeftoversGone(db, old(disk), disk) && failures == old(failures)
        invariant forall p :: p in old(disk) && p !in disk ==> p.PartPath?
        invariant forall p :: p in disk && p.PartPath? && p.upload !in rest ==> !OrphanPart(db, p)
        decreases rest
      {
        var upload :| upload in rest;
        rest := rest - {upload};
        if upload in db.uploads {
          continue;
        }
        ok := RemovePartDir(upload);
        if !ok {
          return;
        }
      }
      return true;
    }

    /**
     Success leaves exactly the files that the rows account for and no temporary file; a failure
     at any point has removed only what was left over. It stops exactly at the first call that fails.
     */
    method ReconcileStorage(db: Db, index: Index) returns (ok: bool)
      requires Indexed(db, index)
      modifies this
      ensures failures == old(failures) + if ok then 0 else 1
      ensures OnlyLeftoversGone(db, old(disk), disk) && temps <= old(temps)
      ensures ok ==> disk == Cleaned(db, old(disk)) && temps == {}
    {
      ok := Reconcile(db, index);
      if ok {
        ok := ReconcileMultipartTmp(db);
      }
    }
  }

  // ---- What the walk is in the transition system ----

  lemma FewerToRemove<T>(all: set<T>, wanted: set<T>, x: T)
    requires x in all && x !in wanted
    ensures |all - {x} - wanted| < |all - wanted|
  {
    assert all - wanted == all - {x} - wanted + {x};
  }

  /** How much a walk has removed. */
  ghost function Removed(s: State, disk: Disk, temps: set<Id>): nat
  {
    |s.temps - temps| + |s.disk.Keys - disk.Keys|
  }

  lemma FirstFile(db: Db, before: Disk, after: Disk) returns (p: Path)
    requires OnlyLeftoversGone(db, before, after) && before != after
    ensures p in before && Leftover(db, p)
    ensures OnlyLeftoversGone(db, before - {p}, after)
    ensures |(before - {p}).Keys - after.Keys| < |before.Keys - after.Keys|
  {
    p := SomeKeyGone(before, after);
    FewerToRemove(before.Keys, after.Keys, p);
    assert (before - {p}).Keys == before.Keys - {p};
  }

  lemma SomeKeyGone<K, V>(before: map<K, V>, after: map<K, V>) returns (k: K)
    requires after.Keys <= before.Keys && before != after && forall k :: k in after ==> after[k] == before[k]
    ensures k in before && k !in after
  {
    assert before == map k | k in before :: before[k];
    if before.Keys <= after.Keys {
      assert false;
    }
    k :| k in before.Keys && k !in after.Keys;
  }

  lemma FirstRemoval(s: State, disk: Disk, temps: set<Id>) returns (step: Step, t: State)
    requires !s.serving && OnlyLeftoversGone(s.db, s.disk, disk) && temps <= s.temps
    requires s.disk != disk || s.temps != temps
    ensures TidyStep(step) && Apply(s, step) == t
    ensures t == s.(disk := t.disk, temps := t.temps)
    ensures OnlyLeftoversGone(t.db, t.disk, disk) && temps <= t.temps
    ensures Removed(t, disk, temps) < Removed(s, disk, temps)
  {
    if s.temps != temps {
      assert !(s.temps <= temps);
      var x :| x in s.temps && x !in temps;
      Guarantees.TidyTemp(s, x);
      FewerToRemove(s.temps, temps, x);
      step, t := PurgeTemp(x), s.(temps := s.temps - {x});
    } else {
      var p := FirstFile(s.db, s.disk, disk);
      step := Guarantees.TidyFile(s, p);
      t := s.(disk := s.disk - {p});
    }
  }

  predicate AllTidy(steps: seq<Step>)
  {
    forall i :: 0 <= i < |steps| ==> TidyStep(steps[i])
  }

  lemma TidyFirst(s: State, step: Step, rest: seq<Step>)
    requires TidyStep(step) && AllTidy(rest)
    ensures AllTidy([step] + rest) && RunFrom(s, [step] + rest) == RunFrom(Apply(s, step), rest)
  {
    Guarantees.RunSplits(s, step, rest);
  }

  /** Whatever a walk has removed, finished or not, is a run of recovery steps. */
  lemma WalkIsTidying(s: State, disk: Disk, temps: set<Id>) returns (tidy: seq<Step>)
    requires !s.serving && OnlyLeftoversGone(s.db, s.disk, disk) && temps <= s.temps
    ensures AllTidy(tidy) && RunFrom(s, tidy) == s.(disk := disk, temps := temps)
    decreases Removed(s, disk, temps)
  {
    if s.disk == disk && s.temps == temps {
      tidy := [];
    } else {
      var step, t := FirstRemoval(s, disk, temps);
      var rest := WalkIsTidying(t, disk, temps);
      tidy := [step] + rest;
      TidyFirst(s, step, rest);
    }
  }

  function Walked(s: State): State
  {
    s.(disk := Cleaned(s.db, s.disk), temps := {})
  }

  /** After a finished walk the server starts, and walking again removes nothing. */
  lemma FinishedWalk(s: State)
    requires !s.serving
    ensures Apply(Walked(s), FinishRecovery).serving
    ensures Cleaned(s.db, Walked(s).disk) == Walked(s).disk
    ensures forall disk: Disk :: OnlyLeftoversGone(s.db, Walked(s).disk, disk) ==> disk == Walked(s).disk
  {
    CleanedIsReconciled(s);
  }

  lemma CleanedIsReconciled(s: State)
    ensures OnlyLeftoversGone(s.db, s.disk, Walked(s).disk)
    ensures Reconciled(Walked(s))
  {
  }

  /**
   After any run that ends in a crash, a finished walk leaves under the bucket directories exactly the
   files that rows name, and part files of existing uploads only; every part row keeps its file.
   */
  lemma WalkAfterAnyCrash(steps: seq<Step>)
    requires !Run(steps).serving
    ensures var t := Walked(Run(steps));
            && Guarantees.ObjectFiles(t) == Guarantees.RowPaths(t)
            && (forall p :: p in t.disk && p.PartPath? ==> p.upload in t.db.uploads)
            && (forall x :: x in t.db.parts ==> t.db.parts[x].path in t.disk)
  {
    CleanedIsReconciled(Run(steps));
    WalkedIsReached(steps);
    Guarantees.ReconciledIsExact(Walked(Run(steps)));
  }

  lemma WalkedIsReached(steps: seq<Step>)
    requires !Run(steps).serving
    ensures Inv(Walked(Run(steps)))
  {
    var s := Run(steps);
    CleanedIsReconciled(s);
    var tidy := WalkIsTidying(s, Walked(s).disk, {});
    RunKeeps(steps);
    RunFromKeeps(s, tidy);
  }
}
