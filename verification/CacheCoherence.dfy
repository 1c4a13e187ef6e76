/**
 The cache against the table: cached reads, writes that commit and then evict, and any interleaving
 of their steps. The cached entries are those of the LRU sequence, of which any may be dropped at
 any time to respect the byte budget.

 Rows are represented by their version: the number of commits that changed the key so far. Whether
 a version is a row or its absence is up to the commit that made it.
 */
module CacheCoherence {
  import opened Wrappers
  import opened MetadataCache

  /** Where a cached read is. floor is the newest version whose write had returned when the read began. */
  datatype Reader =
    | Begun(key: CacheKey, floor: nat, since: nat, retries: nat)
    | HaveRevision(key: CacheKey, floor: nat, since: nat, retries: nat, seen: nat)
    | Missed(key: CacheKey, floor: nat, since: nat, retries: nat, seen: nat)
    | Loaded(key: CacheKey, floor: nat, since: nat, retries: nat, seen: nat, version: nat)
    | Returned(key: CacheKey, floor: nat, since: nat, retries: nat, version: nat)

  /** A write that has committed some keys of its scope and has yet to evict. */
  datatype Writer = Writer(scope: Scope, made: map<CacheKey, nat>)

  datatype State = State(
    versions: map<CacheKey, nat>,        // the table; a key that was never written has version 0
    absent: set<(CacheKey, nat)>,        // versions that are the absence of a row
    cached: map<CacheKey, nat>,
    revision: nat,
    finished: map<CacheKey, nat>,        // the newest version whose writer has evicted
    writers: map<nat, Writer>,
    readers: map<nat, Reader>)

  datatype Step =
    | Commit(writer: nat, scope: Scope, keys: set<CacheKey>, removed: set<CacheKey>)
    | Evict(writer: nat)
    | Begin(reader: nat, key: CacheKey)
    | ReadRevision(reader: nat)
    | LookUp(reader: nat)
    | ReadTable(reader: nat)
    | Publish(reader: nat, dropped: set<CacheKey>)

  const INITIAL := State(map[], {}, map[], 0, map[], map[], map[])

  function At(m: map<CacheKey, nat>, k: CacheKey): nat
  {
    if k in m then m[k] else 0
  }

  function Max(a: nat, b: nat): nat
  {
    if a < b then b else a
  }

  /** One transaction: every changed key gets its next version. */
  function DoCommit(s: State, w: nat, scope: Scope, keys: set<CacheKey>, removed: set<CacheKey>): State
  {
    if w in s.writers || exists k :: k in keys && !Covers(scope, k) then s
    else
      var made := map k | k in keys :: At(s.versions, k) + 1;
      s.(versions := s.versions + made,
         absent := s.absent + (set k | k in keys && k in removed :: (k, At(s.versions, k) + 1)),
         writers := s.writers[w := Writer(scope, made)])
  }

  /** The eviction that follows a write: bump the revision and drop the scope, then return. */
  function DoEvict(s: State, w: nat): State
  {
    if w !in s.writers then s
    else
      var made := s.writers[w].made;
      s.(revision := s.revision + 1,
         cached := map k | k in s.cached && !Covers(s.writers[w].scope, k) :: s.cached[k],
         finished := s.finished + (map k | k in made :: Max(At(s.finished, k), made[k])),
         writers := s.writers - {w})
  }

  function DoBegin(s: State, r: nat, k: CacheKey): State
  {
    if r in s.readers then s else s.(readers := s.readers[r := Begun(k, At(s.finished, k), s.revision, 0)])
  }

  function DoReadRevision(s: State, r: nat): State
  {
    if r in s.readers && s.readers[r].Begun? then
      var b := s.readers[r];
      s.(readers := s.readers[r := HaveRevision(b.key, b.floor, b.since, b.retries, s.revision)])
    else s
  }

  function DoLookUp(s: State, r: nat): State
  {
    if r in s.readers && s.readers[r].HaveRevision? then
      var b := s.readers[r];
      s.(readers := s.readers[r := if b.key in s.cached
                                   then Returned(b.key, b.floor, b.since, b.retries, s.cached[b.key])
                                   else Missed(b.key, b.floor, b.since, b.retries, b.seen)])
    else s
  }

  /** A missing row is reported at once and never cached. */
  function DoReadTable(s: State, r: nat): State
  {
    if r in s.readers && s.readers[r].Missed? then
      var b := s.readers[r];
      var v := At(s.versions, b.key);
      s.(readers := s.readers[r := if v == 0 || (b.key, v) in s.absent
                                   then Returned(b.key, b.floor, b.since, b.retries, v)
                                   else Loaded(b.key, b.floor, b.since, b.retries, b.seen, v)])
    else s
  }

  /** Publish and return, or start over because something was evicted meanwhile. */
  function DoPublish(s: State, r: nat, dropped: set<CacheKey>): State
  {
    if r in s.readers && s.readers[r].Loaded? then
      var b := s.readers[r];
      if b.seen == s.revision then
        s.(cached := s.cached[b.key := b.version] - dropped,
           readers := s.readers[r := Returned(b.key, b.floor, b.since, b.retries, b.version)])
      else s.(readers := s.readers[r := Begun(b.key, b.floor, b.since, b.retries + 1)])
    else s
  }

  function Apply(s: State, step: Step): State
  {
    match step
    case Commit(w, scope, keys, removed) => DoCommit(s, w, scope, keys, removed)
    case Evict(w) => DoEvict(s, w)
    case Begin(r, k) => DoBegin(s, r, k)
    case ReadRevision(r) => DoReadRevision(s, r)
    case LookUp(r) => DoLookUp(s, r)
    case ReadTable(r) => DoReadTable(s, r)
    case Publish(r, dropped) => DoPublish(s, r, dropped)
  }

  function RunFrom(s: State, steps: seq<Step>): State
  {
    if steps == [] then s else Apply(RunFrom(s, steps[..|steps| - 1]), steps[|steps| - 1])
  }

  function Run(steps: seq<Step>): State
  {
    RunFrom(INITIAL, steps)
  }

  // ---- The invariant ----

  /** Some writer committed version v of k and has not evicted yet. */
  predicate Unevicted(s: State, k: CacheKey, v: nat)
  {
    exists w :: w in s.writers && k in s.writers[w].made && s.writers[w].made[k] == v
  }

  /** v is at most the table's version, and every newer version still has its eviction to come. */
  predicate Fresh(s: State, k: CacheKey, v: nat)
  {
    v <= At(s.versions, k) && forall u :: v < u <= At(s.versions, k) ==> Unevicted(s, k, u)
  }

  predicate WritersOk(s: State)
  {
    forall w :: w in s.writers ==>
      forall k :: k in s.writers[w].made ==> Covers(s.writers[w].scope, k) && s.writers[w].made[k] <= At(s.versions, k)
  }

  predicate AbsentOk(s: State)
  {
    forall x :: x in s.absent ==> x.1 <= At(s.versions, x.0)
  }

  predicate ReaderOk(s: State, r: Reader)
  {
    && r.floor <= At(s.finished, r.key)
    && r.since + r.retries <= s.revision
    && ((r.HaveRevision? || r.Missed? || r.Loaded?) ==> r.since + r.retries <= r.seen <= s.revision)
    && (r.Loaded? && r.seen == s.revision ==> Fresh(s, r.key, r.version) && At(s.finished, r.key) <= r.version)
    && (r.Loaded? ==> r.version <= At(s.versions, r.key))
    && (r.Returned? ==> r.floor <= r.version <= At(s.versions, r.key))
  }

  ghost predicate Inv(s: State)
  {
    && WritersOk(s)
    && (forall k :: Fresh(s, k, At(s.finished, k)))
    && AbsentOk(s)
    && (forall k :: k in s.cached ==> Fresh(s, k, s.cached[k]) && At(s.finished, k) <= s.cached[k])
    && (forall r :: r in s.readers ==> ReaderOk(s, s.readers[r]))
  }

  lemma UnevictedKept(s: State, t: State, k: CacheKey, v: nat, w: nat)
    requires Unevicted(s, k, v)
    requires forall x :: x in s.writers && x != w ==> x in t.writers && t.writers[x] == s.writers[x]
    requires w in s.writers ==> k !in s.writers[w].made
    ensures Unevicted(t, k, v)
  {
    var x :| x in s.writers && k in s.writers[x].made && s.writers[x].made[k] == v;
    assert x in t.writers && t.writers[x] == s.writers[x];
  }

  lemma CommitFresh(s: State, w: nat, t: State, made: map<CacheKey, nat>, k: CacheKey, v: nat)
    requires w !in s.writers && Fresh(s, k, v)
    requires t.versions == s.versions + made && w in t.writers && t.writers[w].made == made
    requires forall x :: x in s.writers ==> x in t.writers && t.writers[x] == s.writers[x]
    requires k in made ==> made[k] == At(s.versions, k) + 1
    ensures Fresh(t, k, v)
  {
    forall u | v < u <= At(t.versions, k) ensures Unevicted(t, k, u) {
      if u <= At(s.versions, k) {
        UnevictedKept(s, t, k, u, w);
      } else {
        assert t.writers[w].made[k] == u;
      }
    }
  }

  lemma CommitKeepsReaders(s: State, w: nat, scope: Scope, keys: set<CacheKey>, removed: set<CacheKey>, x: Reader)
    requires WritersOk(s) && ReaderOk(s, x) && DoCommit(s, w, scope, keys, removed) != s
    ensures ReaderOk(DoCommit(s, w, scope, keys, removed), x)
  {
    var t := DoCommit(s, w, scope, keys, removed);
    if x.Loaded? && x.seen == s.revision {
      CommitFresh(s, w, t, t.writers[w].made, x.key, x.version);
    }
  }

  lemma CommitKeepsTable(s: State, w: nat, scope: Scope, keys: set<CacheKey>, removed: set<CacheKey>)
    requires WritersOk(s) && AbsentOk(s)
    ensures WritersOk(DoCommit(s, w, scope, keys, removed)) && AbsentOk(DoCommit(s, w, scope, keys, removed))
  {
  }

  lemma CommitKeeps(s: State, w: nat, scope: Scope, keys: set<CacheKey>, removed: set<CacheKey>)
    requires Inv(s)
    ensures Inv(DoCommit(s, w, scope, keys, removed))
  {
    var t := DoCommit(s, w, scope, keys, removed);
    if t != s {
      CommitKeepsTable(s, w, scope, keys, removed);
      forall k ensures Fresh(t, k, At(t.finished, k)) {
        CommitFresh(s, w, t, t.writers[w].made, k, At(s.finished, k));
      }
      forall k | k in t.cached ensures Fresh(t, k, t.cached[k]) {
        CommitFresh(s, w, t, t.writers[w].made, k, s.cached[k]);
      }
      forall r | r in t.readers ensures ReaderOk(t, t.readers[r]) {
        assert ReaderOk(s, s.readers[r]);
        CommitKeepsReaders(s, w, scope, keys, removed, s.readers[r]);
      }
    }
  }

  lemma EvictKeeps(s: State, w: nat)
    requires Inv(s)
    ensures Inv(DoEvict(s, w))
  {
    var t := DoEvict(s, w);
    if w in s.writers {
      forall k ensures Fresh(t, k, At(t.finished, k)) {
        EvictFinishes(s, w, k);
      }
      forall k | k in t.cached ensures Fresh(t, k, t.cached[k]) && At(t.finished, k) <= t.cached[k] {
        EvictFresh(s, w, k, s.cached[k]);
      }
      forall r | r in t.readers ensures ReaderOk(t, t.readers[r]) {
        assert ReaderOk(s, s.readers[r]);
      }
    }
  }

  /** Whoever evicts has finished the versions it made. */
  lemma EvictFinishes(s: State, w: nat, k: CacheKey)
    requires WritersOk(s) && w in s.writers && Fresh(s, k, At(s.finished, k))
    ensures Fresh(DoEvict(s, w), k, At(DoEvict(s, w).finished, k))
  {
    var t := DoEvict(s, w);
    forall u | At(t.finished, k) < u <= At(t.versions, k) ensures Unevicted(t, k, u) {
      assert Unevicted(s, k, u);
      var x :| x in s.writers && k in s.writers[x].made && s.writers[x].made[k] == u;
      assert x in t.writers && t.writers[x] == s.writers[x];
    }
  }

  /** A key outside the evicted scope was not written by the evicting writer. */
  lemma EvictFresh(s: State, w: nat, k: CacheKey, v: nat)
    requires WritersOk(s) && w in s.writers && !Covers(s.writers[w].scope, k) && Fresh(s, k, v)
    ensures Fresh(DoEvict(s, w), k, v) && At(DoEvict(s, w).finished, k) == At(s.finished, k)
  {
    var t := DoEvict(s, w);
    assert k !in s.writers[w].made;
    forall u | v < u <= At(t.versions, k) ensures Unevicted(t, k, u) {
      UnevictedKept(s, t, k, u, w);
    }
  }

  /** Steps of a reader leave the table and the writers alone. */
  lemma FreshKept(s: State, t: State)
    requires t.versions == s.versions && t.writers == s.writers
    ensures forall k, v: nat :: Fresh(s, k, v) ==> Fresh(t, k, v)
  {
    forall k, v: nat | Fresh(s, k, v) ensures Fresh(t, k, v) {
      forall u | v < u <= At(t.versions, k) ensures Unevicted(t, k, u) {
        assert Unevicted(s, k, u);
      }
    }
  }

  lemma ReaderKeeps(s: State, t: State, r: nat)
    requires Inv(s) && r in t.readers
    requires t.versions == s.versions && t.absent == s.absent
    requires t.writers == s.writers && t.finished == s.finished && t.revision == s.revision
    requires t.readers == s.readers[r := t.readers[r]] && ReaderOk(t, t.readers[r])
    requires forall k :: k in t.cached ==>
               (k in s.cached && t.cached[k] == s.cached[k])
               || (Fresh(s, k, t.cached[k]) && At(s.finished, k) <= t.cached[k])
    ensures Inv(t)
  {
    FreshKept(s, t);
    forall x | x in t.readers ensures ReaderOk(t, t.readers[x]) {
      if x != r {
        assert ReaderOk(s, s.readers[x]);
      }
    }
  }

  lemma ReadTableKeeps(s: State, r: nat)
    requires Inv(s)
    ensures Inv(DoReadTable(s, r))
  {
    if r in s.readers && s.readers[r].Missed? {
      var t := DoReadTable(s, r);
      assert ReaderOk(s, s.readers[r]);
      assert Fresh(t, s.readers[r].key, At(s.versions, s.readers[r].key));
      ReaderKeeps(s, t, r);
    }
  }

  lemma PublishKeeps(s: State, r: nat, dropped: set<CacheKey>)
    requires Inv(s)
    ensures Inv(DoPublish(s, r, dropped))
  {
    if r in s.readers && s.readers[r].Loaded? {
      assert ReaderOk(s, s.readers[r]);
      ReaderKeeps(s, DoPublish(s, r, dropped), r);
    }
  }

  lemma ReadStepKeeps(s: State, r: nat)
    requires Inv(s)
    ensures Inv(DoReadRevision(s, r)) && Inv(DoLookUp(s, r))
  {
    if r in s.readers && s.readers[r].Begun? {
      assert ReaderOk(s, s.readers[r]);
      ReaderKeeps(s, DoReadRevision(s, r), r);
    }
    if r in s.readers && s.readers[r].HaveRevision? {
      assert ReaderOk(s, s.readers[r]);
      ReaderKeeps(s, DoLookUp(s, r), r);
    }
  }

  lemma BeginKeeps(s: State, r: nat, k: CacheKey)
    requires Inv(s)
    ensures Inv(DoBegin(s, r, k))
  {
    if r !in s.readers {
      ReaderKeeps(s, DoBegin(s, r, k), r);
    }
  }

  lemma StepKeeps(s: State, step: Step)
    requires Inv(s)
    ensures Inv(Apply(s, step))
  {
    match step
    case Commit(w, scope, keys, removed) => CommitKeeps(s, w, scope, keys, removed);
    case Evict(w) => EvictKeeps(s, w);
    case Begin(r, k) => BeginKeeps(s, r, k);
    case ReadRevision(r) => ReadStepKeeps(s, r);
    case LookUp(r) => ReadStepKeeps(s, r);
    case ReadTable(r) => ReadTableKeeps(s, r);
    case Publish(r, dropped) => PublishKeeps(s, r, dropped);
  }

  lemma {:induction false} RunFromKeeps(from: State, steps: seq<Step>)
    requires Inv(from)
    ensures Inv(RunFrom(from, steps))
  {
    if steps == [] {
    } else {
      RunFromKeeps(from, steps[..|steps| - 1]);
      StepKeeps(RunFrom(from, steps[..|steps| - 1]), steps[|steps| - 1]);
    }
  }

  lemma RunKeeps(steps: seq<Step>)
    ensures Inv(Run(steps))
  {
    RunFromKeeps(INITIAL, steps);
  }

  // ---- The guarantees ----

  /**
   A cached entry is older than its row only while some write of that key is between its commit and
   its eviction, and that holds for each of the versions it is behind.
   */
  lemma StaleOnlyDuringAWrite(steps: seq<Step>, k: CacheKey)
    requires k in Run(steps).cached
    ensures Run(steps).cached[k] <= At(Run(steps).versions, k)
    ensures forall v :: Run(steps).cached[k] < v <= At(Run(steps).versions, k) ==> Unevicted(Run(steps), k, v)
  {
    RunKeeps(steps);
    assert Fresh(Run(steps), k, Run(steps).cached[k]);
  }

  /** When no write is in flight, the cache agrees with the table. */
  lemma QuietCacheAgrees(steps: seq<Step>, k: CacheKey)
    requires k in Run(steps).cached && Run(steps).writers == map[]
    ensures Run(steps).cached[k] == At(Run(steps).versions, k)
  {
    var s := Run(steps);
    StaleOnlyDuringAWrite(steps, k);
    assert !Unevicted(s, k, At(s.versions, k));
  }

  /**
   A read never yields a version older than one whose write had returned before the read began, and never one that
   nobody has committed.
   */
  lemma ReadsAreNotStale(steps: seq<Step>, r: nat)
    requires r in Run(steps).readers && Run(steps).readers[r].Returned?
    ensures var x := Run(steps).readers[r]; x.floor <= x.version <= At(Run(steps).versions, x.key)
  {
    RunKeeps(steps);
    assert ReaderOk(Run(steps), Run(steps).readers[r]);
  }

  /** A read starts over at most once for every eviction since it began. */
  lemma RetriesAreEvictions(steps: seq<Step>, r: nat)
    requires r in Run(steps).readers
    ensures Run(steps).readers[r].retries <= Run(steps).revision - Run(steps).readers[r].since
  {
    RunKeeps(steps);
    assert ReaderOk(Run(steps), Run(steps).readers[r]);
  }

  /** Reads of k that begin after v has finished have v as their floor. */
  predicate FloorAtLeast(s: State, r: nat, k: CacheKey, v: nat)
  {
    v <= At(s.finished, k) && (r in s.readers && s.readers[r].key == k ==> v <= s.readers[r].floor)
  }

  lemma FloorStep(s: State, step: Step, r: nat, k: CacheKey, v: nat)
    requires FloorAtLeast(s, r, k, v)
    ensures FloorAtLeast(Apply(s, step), r, k, v)
  {
  }

  lemma {:induction false} FloorFollows(s: State, more: seq<Step>, r: nat, k: CacheKey, v: nat)
    requires FloorAtLeast(s, r, k, v)
    ensures FloorAtLeast(RunFrom(s, more), r, k, v)
  {
    if more == [] {
    } else {
      FloorFollows(s, more[..|more| - 1], r, k, v);
      FloorStep(RunFrom(s, more[..|more| - 1]), more[|more| - 1], r, k, v);
    }
  }

  /**
   Once the write that made version v of k has evicted, every read of k that begins afterwards
   returns v or something newer, whatever else happens in between.
   */
  lemma ReadAfterWrite(steps: seq<Step>, w: nat, k: CacheKey, more: seq<Step>, r: nat)
    requires var s := Run(steps); w in s.writers && k in s.writers[w].made && r !in s.readers
    requires var t := RunFrom(Apply(Run(steps), Evict(w)), more);
             r in t.readers && t.readers[r].Returned? && t.readers[r].key == k
    ensures var t := RunFrom(Apply(Run(steps), Evict(w)), more);
            Run(steps).writers[w].made[k] <= t.readers[r].version
  {
    var s := Run(steps);
    var e := Apply(s, Evict(w));
    RunKeeps(steps);
    EvictKeeps(s, w);
    RunFromKeeps(e, more);
    FloorFollows(e, more, r, k, s.writers[w].made[k]);
    assert ReaderOk(RunFrom(e, more), RunFrom(e, more).readers[r]);
  }

  /** Every write of the key has returned. */
  predicate Settled(s: State, k: CacheKey)
  {
    At(s.finished, k) == At(s.versions, k)
  }

  /** That is so when no write is in flight. */
  lemma NoWriterMeansSettled(steps: seq<Step>, k: CacheKey)
    requires Run(steps).writers == map[]
    ensures Settled(Run(steps), k)
  {
    var s := Run(steps);
    RunKeeps(steps);
    assert Fresh(s, k, At(s.finished, k));
    assert !Unevicted(s, k, At(s.versions, k));
  }

  predicate Leaves(step: Step, k: CacheKey)
  {
    step.Commit? ==> k !in step.keys
  }

  lemma StepLeavesVersion(s: State, step: Step, k: CacheKey)
    requires Leaves(step, k)
    ensures At(Apply(s, step).versions, k) == At(s.versions, k)
  {
  }

  lemma {:induction false} VersionStays(s: State, more: seq<Step>, k: CacheKey)
    requires forall i :: 0 <= i < |more| ==> Leaves(more[i], k)
    ensures At(RunFrom(s, more).versions, k) == At(s.versions, k)
  {
    if more == [] {
    } else {
      VersionStays(s, more[..|more| - 1], k);
      StepLeavesVersion(RunFrom(s, more[..|more| - 1]), more[|more| - 1], k);
    }
  }

  /**
   A read that begins when every write of its key has returned, and during which nobody commits the key, returns
   exactly the table's version, hit or miss, whatever else happens.
   */
  lemma QuietReadIsExact(steps: seq<Step>, r: nat, k: CacheKey, more: seq<Step>)
    requires Settled(Run(steps), k) && r !in Run(steps).readers
    requires forall i :: 0 <= i < |more| ==> Leaves(more[i], k)
    requires var t := RunFrom(Apply(Run(steps), Begin(r, k)), more);
             r in t.readers && t.readers[r].Returned? && t.readers[r].key == k
    ensures var t := RunFrom(Apply(Run(steps), Begin(r, k)), more);
            t.readers[r].version == At(t.versions, k) == At(Run(steps).versions, k)
  {
    var s := Run(steps);
    var b := Apply(s, Begin(r, k));
    var t := RunFrom(b, more);
    RunKeeps(steps);
    BeginKeeps(s, r, k);
    RunFromKeeps(b, more);
    FloorFollows(b, more, r, k, At(s.versions, k));
    VersionStays(b, more, k);
    assert ReaderOk(t, t.readers[r]);
  }

  /** The steps of one read. After a hit the last two do nothing. */
  function Read(r: nat, k: CacheKey, dropped: set<CacheKey>): seq<Step>
  {
    [Begin(r, k), ReadRevision(r), LookUp(r), ReadTable(r), Publish(r, dropped)]
  }

  lemma RunOneMore(s: State, steps: seq<Step>, step: Step)
    ensures RunFrom(s, steps + [step]) == Apply(RunFrom(s, steps), step)
  {
    assert (steps + [step])[..|steps|] == steps;
  }

  lemma ReadRun(s: State, r: nat, k: CacheKey, dropped: set<CacheKey>)
    ensures RunFrom(s, Read(r, k, dropped))
         == DoPublish(DoReadTable(DoLookUp(DoReadRevision(DoBegin(s, r, k), r), r), r), r, dropped)
  {
    var all := Read(r, k, dropped);
    assert all[..0] == [] && all[..1] == all[..0] + [Begin(r, k)] && all[..2] == all[..1] + [ReadRevision(r)];
    assert all[..3] == all[..2] + [LookUp(r)] && all[..4] == all[..3] + [ReadTable(r)];
    assert all == all[..4] + [Publish(r, dropped)];
    RunOneMore(s, all[..0], Begin(r, k));
    RunOneMore(s, all[..1], ReadRevision(r));
    RunOneMore(s, all[..2], LookUp(r));
    RunOneMore(s, all[..3], ReadTable(r));
    RunOneMore(s, all[..4], Publish(r, dropped));
  }

  function AtReader(s: State, r: nat, x: Reader): State
  {
    s.(readers := s.readers[r := x])
  }

  function AfterLookUp(s: State, k: CacheKey): Reader
  {
    if k in s.cached then Returned(k, At(s.finished, k), s.revision, 0, s.cached[k])
    else Missed(k, At(s.finished, k), s.revision, 0, s.revision)
  }

  lemma LookedUp(s: State, r: nat, k: CacheKey)
    requires r !in s.readers
    ensures DoLookUp(DoReadRevision(DoBegin(s, r, k), r), r) == AtReader(s, r, AfterLookUp(s, k))
  {
    var t := DoReadRevision(DoBegin(s, r, k), r);
    assert t == AtReader(s, r, HaveRevision(k, At(s.finished, k), s.revision, 0, s.revision));
  }

  lemma TableRead(s: State, r: nat, k: CacheKey, floor: nat)
    ensures DoReadTable(AtReader(s, r, Missed(k, floor, s.revision, 0, s.revision)), r)
         == AtReader(s, r, if At(s.versions, k) == 0 || (k, At(s.versions, k)) in s.absent
                           then Returned(k, floor, s.revision, 0, At(s.versions, k))
                           else Loaded(k, floor, s.revision, 0, s.revision, At(s.versions, k)))
  {
  }

  lemma MissPublishes(s: State, r: nat, k: CacheKey, floor: nat, dropped: set<CacheKey>)
    ensures DoPublish(DoReadTable(AtReader(s, r, Missed(k, floor, s.revision, 0, s.revision)), r), r, dropped)
         == AtReader(s, r, Returned(k, floor, s.revision, 0, At(s.versions, k))).(cached := AfterMiss(s, k, dropped))
  {
    TableRead(s, r, k, floor);
  }

  lemma HitStays(s: State, r: nat, dropped: set<CacheKey>)
    requires r in s.readers && s.readers[r].Returned?
    ensures DoPublish(DoReadTable(s, r), r, dropped) == s
  {
  }

  function AfterMiss(s: State, k: CacheKey, dropped: set<CacheKey>): map<CacheKey, nat>
  {
    var v := At(s.versions, k);
    if v == 0 || (k, v) in s.absent then s.cached else s.cached[k := v] - dropped
  }

  /**
   A read that nobody disturbs returns without starting over: a cached version, else the table's, which is then cached
   unless it is the absence of a row or the budget drops it.
   */
  lemma UndisturbedRead(s: State, r: nat, k: CacheKey, dropped: set<CacheKey>)
    requires r !in s.readers
    ensures var t, v := RunFrom(s, Read(r, k, dropped)), At(s.versions, k);
            && t == s.(readers := t.readers, cached := t.cached)
            && t.readers == s.readers[r := Returned(k, At(s.finished, k), s.revision, 0,
                                                    if k in s.cached then s.cached[k] else v)]
            && t.cached == if k in s.cached || v == 0 || (k, v) in s.absent then s.cached
                           else s.cached[k := v] - dropped
  {
    ReadRun(s, r, k, dropped);
    LookedUp(s, r, k);
    if k in s.cached {
      HitStays(AtReader(s, r, AfterLookUp(s, k)), r, dropped);
    } else {
      MissPublishes(s, r, k, At(s.finished, k), dropped);
    }
  }

  /** A commit gives each of its keys a new version, marked if it removes the row, and leaves the cache to the eviction. */
  lemma CommitMakesVersions(steps: seq<Step>, w: nat, scope: Scope, keys: set<CacheKey>, removed: set<CacheKey>, k: CacheKey)
    requires w !in Run(steps).writers && forall x :: x in keys ==> Covers(scope, x)
    ensures var s, t := Run(steps), Apply(Run(steps), Commit(w, scope, keys, removed));
            && At(t.versions, k) == At(s.versions, k) + (if k in keys then 1 else 0)
            && (k in keys ==> ((k, At(t.versions, k)) in t.absent <==> k in removed))
            && (k in keys ==> w in t.writers && k in t.writers[w].made && t.writers[w].made[k] == At(t.versions, k))
            && t == s.(versions := t.versions, absent := t.absent, writers := t.writers)
  {
    RunKeeps(steps);
    CommitMakes(Run(steps), w, scope, keys, removed, k);
  }

  lemma CommitMakes(s: State, w: nat, scope: Scope, keys: set<CacheKey>, removed: set<CacheKey>, k: CacheKey)
    requires AbsentOk(s) && w !in s.writers && forall x :: x in keys ==> Covers(scope, x)
    ensures var t := DoCommit(s, w, scope, keys, removed);
            && At(t.versions, k) == At(s.versions, k) + (if k in keys then 1 else 0)
            && (k in keys ==> ((k, At(t.versions, k)) in t.absent <==> k in removed))
            && (k in keys ==> w in t.writers && k in t.writers[w].made && t.writers[w].made[k] == At(t.versions, k))
            && t == s.(versions := t.versions, absent := t.absent, writers := t.writers)
  {
    if k in keys {
      assert (k, At(s.versions, k) + 1) !in s.absent;
    }
  }

  // ---- The LRU sequence behind the cached map ----

  function AsMap(es: seq<Entry>): map<CacheKey, CacheValue>
  {
    if es == [] then map[] else AsMap(es[..|es| - 1])[es[|es| - 1].key := es[|es| - 1].value]
  }

  lemma {:induction false} AsMapMeaning(es: seq<Entry>)
    requires DistinctKeys(es)
    ensures forall k :: k in AsMap(es) <==> Has(es, k)
    ensures forall i :: 0 <= i < |es| ==> es[i].key in AsMap(es) && AsMap(es)[es[i].key] == es[i].value
  {
    if es == [] {
    } else {
      var init, last := es[..|es| - 1], es[|es| - 1];
      AsMapMeaning(init);
      forall i | 0 <= i < |es| ensures es[i].key in AsMap(es) && AsMap(es)[es[i].key] == es[i].value {
        assert i < |init| ==> es[i] == init[i] && es[i].key != last.key;
      }
      forall k ensures k in AsMap(es) <==> Has(es, k) {
        HasOneMore(es, k);
      }
    }
  }

  lemma HasOneMore(es: seq<Entry>, k: CacheKey)
    requires es != []
    ensures Has(es, k) <==> Has(es[..|es| - 1], k) || es[|es| - 1].key == k
  {
    var init := es[..|es| - 1];
    if Has(init, k) {
      var i :| 0 <= i < |init| && init[i].key == k;
      assert es[i].key == k;
    }
    if Has(es, k) {
      var i :| 0 <= i < |es| && es[i].key == k;
      if i < |init| {
        assert init[i].key == k;
      }
    }
  }

  /** A put on the LRU sequence is the cache step of Publish: one entry in, any number out. */
  lemma PutRefinesPublish(es: seq<Entry>, e: Entry, maxBytes: int) returns (dropped: set<CacheKey>)
    requires DistinctKeys(es)
    ensures DistinctKeys(AfterPut(es, e, maxBytes))
    ensures AsMap(AfterPut(es, e, maxBytes)) == AsMap(es)[e.key := e.value] - dropped
  {
    var after := AfterPut(es, e, maxBytes);
    PutEntries(es, e, maxBytes);
    AsMapMeaning(after);
    var whole := AsMap(es)[e.key := e.value];
    forall k | k in AsMap(after) ensures k in whole && AsMap(after)[k] == whole[k] {
      assert Has(after, k);
      var i :| 0 <= i < |after| && after[i].key == k;
      assert after[i] in after;
      if after[i] != e {
        EntryInMap(es, after[i]);
      }
    }
    dropped := whole.Keys - AsMap(after).Keys;
  }

  lemma EntryInMap(es: seq<Entry>, x: Entry)
    requires DistinctKeys(es) && x in es
    ensures x.key in AsMap(es) && AsMap(es)[x.key] == x.value
  {
    AsMapMeaning(es);
    var j :| 0 <= j < |es| && es[j] == x;
  }

  function Uncovered(m: map<CacheKey, CacheValue>, scope: Scope): map<CacheKey, CacheValue>
  {
    map k | k in m && !Covers(scope, k) :: m[k]
  }

  /** An eviction on the LRU sequence is the cache step of Evict: it drops exactly the scope. */
  lemma {:induction false} WithoutRefinesEvict(es: seq<Entry>, scope: Scope)
    ensures AsMap(Without(es, scope)) == Uncovered(AsMap(es), scope)
  {
    if es == [] {
    } else {
      var init, last := es[..|es| - 1], es[|es| - 1];
      WithoutRefinesEvict(init, scope);
      var rest := Without(init, scope);
      assert (rest + [last])[..|rest|] == rest;
      if Covers(scope, last.key) {
        assert Uncovered(AsMap(init)[last.key := last.value], scope) == Uncovered(AsMap(init), scope);
      } else {
        assert Uncovered(AsMap(init)[last.key := last.value], scope)
            == Uncovered(AsMap(init), scope)[last.key := last.value];
      }
    }
  }

  /** A hit moves an entry and changes no value. */
  lemma HitKeepsMap(es: seq<Entry>, k: CacheKey)
    requires DistinctKeys(es)
    ensures DistinctKeys(Touched(es, k)) && AsMap(Touched(es, k)) == AsMap(es)
  {
    FindMeaning(es, k);
    if Has(es, k) {
      var hit, rest := Hit(es, k), Without(es, Only(k));
      WithoutDistinct(es, Only(k));
      WithoutMeaning(es, Only(k));
      FrontDistinct(hit, rest);
      AsMapMeaning(Touched(es, k));
      forall x | x in Touched(es, k) ensures x.key in AsMap(es) && AsMap(es)[x.key] == x.value {
        assert x == hit || x in rest;
        EntryInMap(es, x);
      }
      forall x | x in es ensures x.key in AsMap(Touched(es, k)) {
        assert x in rest || x.key == hit.key;
        var moved := if x in rest then x else hit;
        assert moved in Touched(es, k);
        EntryInMap(Touched(es, k), moved);
      }
      SameMaps(es, Touched(es, k));
    }
  }

  lemma FrontDistinct(x: Entry, rest: seq<Entry>)
    requires DistinctKeys(rest) && forall y :: y in rest ==> y.key != x.key
    ensures DistinctKeys([x] + rest)
  {
    var all := [x] + rest;
    forall i, j | 0 <= i < j < |all| ensures all[i].key != all[j].key {
      assert all[j] == rest[j - 1] && rest[j - 1] in rest;
    }
  }

  lemma SameMaps(es: seq<Entry>, fs: seq<Entry>)
    requires DistinctKeys(es) && DistinctKeys(fs)
    requires forall x :: x in fs ==> x.key in AsMap(es) && AsMap(es)[x.key] == x.value
    requires forall x :: x in es ==> x.key in AsMap(fs)
    ensures AsMap(es) == AsMap(fs)
  {
    AsMapMeaning(es);
    AsMapMeaning(fs);
    forall k | k in AsMap(es) ensures k in AsMap(fs) {
      assert Has(es, k);
      var i :| 0 <= i < |es| && es[i].key == k;
      assert es[i] in es;
    }
    forall k | k in AsMap(fs) ensures k in AsMap(es) && AsMap(es)[k] == AsMap(fs)[k] {
      assert Has(fs, k);
      var i :| 0 <= i < |fs| && fs[i].key == k;
      assert fs[i] in fs;
    }
  }

  // ---- The LRU sequence simulates the cached versions ----

  /** The rows behind the cached versions, where row tells what each version of a key holds. */
  ghost function RowsOf(cached: map<CacheKey, nat>, row: (CacheKey, nat) -> CacheValue): map<CacheKey, CacheValue>
  {
    map k | k in cached :: row(k, cached[k])
  }

  ghost predicate Represents(es: seq<Entry>, cached: map<CacheKey, nat>, row: (CacheKey, nat) -> CacheValue)
  {
    DistinctKeys(es) && AsMap(es) == RowsOf(cached, row)
  }

  /** LookUp: a hit exactly when the sequence has the key, and then the row it holds; the entry moves to the front. */
  lemma LookUpSimulates(s: State, r: nat, es: seq<Entry>, row: (CacheKey, nat) -> CacheValue)
    requires Represents(es, s.cached, row) && r in s.readers && s.readers[r].HaveRevision?
    ensures var k, t := s.readers[r].key, Apply(s, LookUp(r));
            && r in t.readers && (t.readers[r].Returned? <==> Find(es, k).Some?)
            && (t.readers[r].Returned? ==> Find(es, k) == Some(row(k, t.readers[r].version)))
            && Represents(Touched(es, k), t.cached, row)
  {
    var k := s.readers[r].key;
    FindMeaning(es, k);
    AsMapMeaning(es);
    HitKeepsMap(es, k);
    if Has(es, k) {
      EntryInMap(es, Hit(es, k));
    }
  }

  /** Publish at an unchanged revision is a put of the loaded row; the budget may drop any others, or even that one. */
  lemma PublishSimulates(s: State, r: nat, es: seq<Entry>, row: (CacheKey, nat) -> CacheValue, size: nat, maxBytes: int)
    returns (dropped: set<CacheKey>)
    requires Represents(es, s.cached, row) && r in s.readers && s.readers[r].Loaded? && s.readers[r].seen == s.revision
    ensures var x := s.readers[r];
            Represents(AfterPut(es, Entry(x.key, row(x.key, x.version), size), maxBytes),
                       Apply(s, Publish(r, dropped)).cached, row)
  {
    var x := s.readers[r];
    dropped := PutRefinesPublish(es, Entry(x.key, row(x.key, x.version), size), maxBytes);
    assert RowsOf(s.cached[x.key := x.version] - dropped, row)
        == RowsOf(s.cached, row)[x.key := row(x.key, x.version)] - dropped;
  }

  /** Evict: exactly the versions in the writer's scope go. */
  lemma EvictSimulates(s: State, w: nat, es: seq<Entry>, row: (CacheKey, nat) -> CacheValue)
    requires Represents(es, s.cached, row) && w in s.writers
    ensures Represents(Without(es, s.writers[w].scope), Apply(s, Evict(w)).cached, row)
  {
    WithoutRefinesEvict(es, s.writers[w].scope);
    WithoutDistinct(es, s.writers[w].scope);
  }
}
