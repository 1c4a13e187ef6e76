/** The reference-counted lock per upload that the handlers of one process take. */
module UploadLock {
  import opened Wrappers

  type Thread = nat

  type UploadId = string

  // ---- The protocol ----

  /** Where a thread is between the start of acquireUploadLock and the end of the function it returned. */
  datatype Phase = Waiting | Holding | Leaving

  datatype Position = Position(id: UploadId, phase: Phase)

  type Threads = map<Thread, Position>

  /** What a lock object records, and who holds its mutex. */
  datatype Cell = Cell(refs: nat, holder: Option<Thread>)

  type Cells = map<UploadId, Cell>

  /** The threads in the window of one upload. */
  ghost function Users(threads: Threads, id: UploadId): set<Thread>
  {
    set t | t in threads && threads[t].id == id
  }

  datatype State = State(threads: Threads, cells: Cells)

  datatype Step =
    | Enter(thread: Thread, id: UploadId)
    | Obtain(thread: Thread)
    | Unlock(thread: Thread)
    | Leave(thread: Thread)

  predicate At(threads: Threads, t: Thread, phase: Phase)
  {
    t in threads && threads[t].phase == phase
  }

  /** Steps that a thread cannot take where it is change nothing; neither does waiting for a held mutex. */
  function Apply(s: State, step: Step): State
  {
    var t := step.thread;
    match step
    case Enter(_, id) =>
      if t in s.threads then s
      else State(s.threads[t := Position(id, Waiting)], Entered(s.cells, id))
    case Obtain(_) =>
      if At(s.threads, t, Waiting) && s.threads[t].id in s.cells && s.cells[s.threads[t].id].holder.None?
      then Moved(s, t, Holding, Some(t)) else s
    case Unlock(_) =>
      if At(s.threads, t, Holding) && s.threads[t].id in s.cells then Moved(s, t, Leaving, None) else s
    case Leave(_) =>
      if At(s.threads, t, Leaving) && s.threads[t].id in s.cells
      then State(s.threads - {t}, Left(s.cells, s.threads[t].id)) else s
  }

  function Entered(cells: Cells, id: UploadId): Cells
  {
    cells[id := if id in cells then cells[id].(refs := cells[id].refs + 1) else Cell(1, None)]
  }

  function Moved(s: State, t: Thread, phase: Phase, holder: Option<Thread>): State
    requires t in s.threads && s.threads[t].id in s.cells
  {
    var id := s.threads[t].id;
    State(s.threads[t := Position(id, phase)], s.cells[id := s.cells[id].(holder := holder)])
  }

  function Left(cells: Cells, id: UploadId): Cells
    requires id in cells
  {
    if cells[id].refs <= 1 then cells - {id} else cells[id := cells[id].(refs := cells[id].refs - 1)]
  }

  /** Every run starts with no thread in any window. */
  function Run(steps: seq<Step>): State
  {
    if steps == [] then State(map[], map[])
    else Apply(Run(steps[..|steps| - 1]), steps[|steps| - 1])
  }

  // ---- Every run keeps the protocol ----

  ghost predicate HoldsAt(threads: Threads, t: Thread, id: UploadId)
  {
    t in threads && threads[t] == Position(id, Holding)
  }

  /** An upload has a lock exactly while some thread is in its window, and the references count those threads. */
  ghost predicate Counted(s: State)
  {
    && (forall t :: t in s.threads ==> s.threads[t].id in s.cells)
    && (forall id :: id in s.cells ==> s.cells[id].refs == |Users(s.threads, id)| && s.cells[id].refs > 0)
  }

  /** The mutex is held by exactly the threads that are past it. */
  ghost predicate Exclusive(s: State)
  {
    forall id, t: Thread :: id in s.cells ==> (HoldsAt(s.threads, t, id) <==> s.cells[id].holder == Some(t))
  }

  lemma EnterCounts(s: State, t: Thread, id: UploadId)
    requires Counted(s) && t !in s.threads
    ensures Counted(Apply(s, Enter(t, id)))
  {
    var after := Apply(s, Enter(t, id));
    assert Users(after.threads, id) == Users(s.threads, id) + {t};
    forall i | i in s.cells && i != id ensures Users(after.threads, i) == Users(s.threads, i) {
    }
    if id !in s.cells {
      assert Users(s.threads, id) == {};
    }
  }

  lemma MoveCounts(s: State, t: Thread, phase: Phase, holder: Option<Thread>)
    requires Counted(s) && t in s.threads
    ensures Counted(Moved(s, t, phase, holder))
  {
    var after := Moved(s, t, phase, holder);
    forall i | i in s.cells ensures Users(after.threads, i) == Users(s.threads, i) {
    }
  }

  lemma LeaveCounts(s: State, t: Thread)
    requires Counted(s) && At(s.threads, t, Leaving)
    ensures Counted(Apply(s, Leave(t)))
  {
    var id := s.threads[t].id;
    var after := Apply(s, Leave(t));
    var users := Users(s.threads, id);
    assert Users(after.threads, id) == users - {t} && t in users;
    assert |Users(after.threads, id)| == |users| - 1;
    forall i | i in s.cells && i != id ensures Users(after.threads, i) == Users(s.threads, i) {
    }
    forall u | u in after.threads ensures after.threads[u].id in after.cells {
      if after.threads[u].id == id {
        assert u in Users(after.threads, id);
      }
    }
  }

  lemma StepKeepsCount(s: State, step: Step)
    requires Counted(s)
    ensures Counted(Apply(s, step))
  {
    if Apply(s, step) != s {
      match step
      case Enter(t, id) => EnterCounts(s, t, id);
      case Obtain(t) => MoveCounts(s, t, Holding, Some(t));
      case Unlock(t) => MoveCounts(s, t, Leaving, None);
      case Leave(t) => LeaveCounts(s, t);
    }
  }

  lemma StepKeepsExclusion(s: State, step: Step)
    requires Counted(s) && Exclusive(s)
    ensures Exclusive(Apply(s, step))
  {
    var t := step.thread;
    if t in s.threads {
      assert HoldsAt(s.threads, t, s.threads[t].id) <==> s.cells[s.threads[t].id].holder == Some(t);
    }
  }

  lemma {:induction false} RunKeeps(steps: seq<Step>)
    ensures Counted(Run(steps)) && Exclusive(Run(steps))
  {
    if steps == [] {
    } else {
      var before := steps[..|steps| - 1];
      RunKeeps(before);
      StepKeepsCount(Run(before), steps[|steps| - 1]);
      StepKeepsExclusion(Run(before), steps[|steps| - 1]);
    }
  }

  // ---- What every run promises ----

  lemma MutualExclusion(steps: seq<Step>, t: Thread, u: Thread, id: UploadId)
    requires HoldsAt(Run(steps).threads, t, id) && HoldsAt(Run(steps).threads, u, id)
    ensures t == u
  {
    RunKeeps(steps);
    assert Run(steps).cells[id].holder == Some(t);
  }

  lemma ReferencesCountThreads(steps: seq<Step>, id: UploadId)
    ensures id in Run(steps).cells <==> Users(Run(steps).threads, id) != {}
    ensures id in Run(steps).cells ==> Run(steps).cells[id].refs == |Users(Run(steps).threads, id)|
  {
    RunKeeps(steps);
    if t :| t in Users(Run(steps).threads, id) {
      assert Run(steps).threads[t].id == id;
    }
  }

  lemma QuietMeansEmpty(steps: seq<Step>)
    ensures Run(steps).threads == map[] <==> Run(steps).cells == map[]
  {
    var s := Run(steps);
    RunKeeps(steps);
    if t :| t in s.threads {
      assert s.threads[t].id in s.cells;
    }
    if id :| id in s.cells {
      var t :| t in Users(s.threads, id);
    }
  }

  ghost predicate Free(threads: Threads, id: UploadId)
  {
    forall u: Thread :: !HoldsAt(threads, u, id)
  }

  /** Where thread t is after its step, seen from the threads alone. */
  ghost predicate Moves(threads: Threads, after: Threads, step: Step)
  {
    var t := step.thread;
    match step
    case Enter(_, id) => after == if t in threads then threads else threads[t := Position(id, Waiting)]
    case Obtain(_) =>
      after == if At(threads, t, Waiting) && Free(threads, threads[t].id)
               then threads[t := Position(threads[t].id, Holding)] else threads
    case Unlock(_) =>
      after == if At(threads, t, Holding) then threads[t := Position(threads[t].id, Leaving)] else threads
    case Leave(_) => after == if At(threads, t, Leaving) then threads - {t} else threads
  }

  /**
   In every run a thread waits, holds, leaves and is gone, one step at a time. It obtains the lock exactly when nobody
   holds it, and nothing keeps a holder from unlocking and leaving.
   */
  lemma StepMoves(steps: seq<Step>, step: Step)
    ensures Moves(Run(steps).threads, Apply(Run(steps), step).threads, step)
  {
    var s, t := Run(steps), step.thread;
    RunKeeps(steps);
    if step.Obtain? && At(s.threads, t, Waiting) {
      var id := s.threads[t].id;
      assert id in s.cells;
      if s.cells[id].holder.Some? {
        assert HoldsAt(s.threads, s.cells[id].holder.value, id);
      } else {
        assert Free(s.threads, id);
      }
    }
  }

  /** Nobody is stuck: whoever waits can go on, or another thread holds the mutex and can release it, and then it can. */
  lemma WaitersCanProceed(steps: seq<Step>, t: Thread)
    requires At(Run(steps).threads, t, Waiting)
    ensures At(Run(steps + [Obtain(t)]).threads, t, Holding)
         || exists u: Thread :: u != t && HoldsAt(Run(steps).threads, u, Run(steps).threads[t].id)
                                && At(Run(steps + [Unlock(u)] + [Obtain(t)]).threads, t, Holding)
  {
    var s := Run(steps);
    var id := s.threads[t].id;
    RunKeeps(steps);
    if s.cells[id].holder.Some? {
      var u := s.cells[id].holder.value;
      assert HoldsAt(s.threads, u, id);
      Handover(steps, u, t, id);
    } else {
      RunAppend(steps, Obtain(t));
    }
  }

  lemma Handover(steps: seq<Step>, u: Thread, t: Thread, id: UploadId)
    requires HoldsAt(Run(steps).threads, u, id) && At(Run(steps).threads, t, Waiting) && Run(steps).threads[t].id == id
    ensures At(Run(steps + [Unlock(u)] + [Obtain(t)]).threads, t, Holding)
  {
    RunAppend(steps, Unlock(u));
    RunAppend(steps + [Unlock(u)], Obtain(t));
    StepMoves(steps, Unlock(u));
    StepMoves(steps + [Unlock(u)], Obtain(t));
    forall x: Thread | HoldsAt(Run(steps + [Unlock(u)]).threads, x, id) ensures false {
      MutualExclusion(steps, x, u, id);
    }
  }

  // ---- The lock table refines the protocol ----

  class Lock {
    ghost const id: UploadId
    var refs: nat
    var locked: bool

    constructor (ghost id: UploadId)
      ensures this.id == id && refs == 0 && !locked
    {
      this.id, refs, locked := id, 0, false;
    }

    ghost predicate Matches(id: UploadId, cell: Cell)
      reads this
    {
      this.id == id && refs == cell.refs && locked == cell.holder.Some?
    }
  }

  ghost predicate Given(threads: Threads, locks: map<UploadId, Lock>, given: map<Thread, Lock>)
  {
    && (forall t :: t in given <==> t in threads)
    && (forall t :: t in threads ==> threads[t].id in locks && locks[threads[t].id] == given[t])
  }

  lemma GivenOneMore(threads: Threads, locks: map<UploadId, Lock>, given: map<Thread, Lock>,
                     t: Thread, id: UploadId, lock: Lock)
    requires Given(threads, locks, given) && t !in threads && (id in locks ==> locks[id] == lock)
    ensures Given(threads[t := Position(id, Waiting)], locks[id := lock], given[t := lock])
  {
  }

  /** The map of the handlers, with the steps taken so far and the lock that each thread was given. */
  class LockTable {
    var uploadLocks: map<UploadId, Lock>
    ghost var steps: seq<Step>
    ghost var given: map<Thread, Lock>

    /** All threads in the window of an upload were given the one lock of the map. */
    ghost predicate Shared(threads: Threads)
      reads this
    {
      Given(threads, uploadLocks, given)
    }

    ghost predicate Represents(cells: Cells)
      reads this, uploadLocks.Values
    {
      && (forall id :: id in uploadLocks <==> id in cells)
      && (forall id :: id in uploadLocks ==> uploadLocks[id].Matches(id, cells[id]))
    }

    ghost predicate Follows(s: State)
      reads this, uploadLocks.Values
    {
      Shared(s.threads) && Represents(s.cells)
    }

    ghost predicate Valid()
      reads this, uploadLocks.Values
    {
      Follows(Run(steps))
    }

    constructor ()
      ensures Valid() && uploadLocks == map[] && steps == []
    {
      uploadLocks, steps, given := map[], [], map[];
    }

    /** The first critical section of acquireUploadLock. */
    method Acquire(t: Thread, id: UploadId) returns (lock: Lock)
      requires Valid() && t !in Run(steps).threads
      modifies this, uploadLocks.Values`refs
      ensures Valid()
      ensures steps == old(steps) + [Enter(t, id)]
      ensures uploadLocks == old(uploadLocks)[id := lock] && given == old(given)[t := lock]
      ensures if id in old(uploadLocks) then lock == old(uploadLocks[id]) else fresh(lock)
    {
      RunEnter(steps, t, id);
      lock := Register(t, id, Run(steps));
      steps := steps + [Enter(t, id)];
    }

    method Register(t: Thread, id: UploadId, ghost s: State) returns (lock: Lock)
      requires Follows(s) && t !in s.threads
      modifies this`uploadLocks, this`given, uploadLocks.Values`refs
      ensures Follows(State(s.threads[t := Position(id, Waiting)], Entered(s.cells, id)))
      ensures uploadLocks == old(uploadLocks)[id := lock] && given == old(given)[t := lock]
      ensures if id in old(uploadLocks) then lock == old(uploadLocks[id]) else fresh(lock)
    {
      ghost var locks := uploadLocks;
      lock := Refer(id, s.cells);
      GivenOneMore(s.threads, locks, given, t, id, lock);
      given := given[t := lock];
    }

    method Refer(id: UploadId, ghost cells: Cells) returns (lock: Lock)
      requires Represents(cells)
      modifies this`uploadLocks, uploadLocks.Values`refs
      ensures Represents(Entered(cells, id))
      ensures uploadLocks == old(uploadLocks)[id := lock]
      ensures if id in old(uploadLocks) then lock == old(uploadLocks[id]) else fresh(lock)
    {
      lock := LockFor(id);
      lock.refs := lock.refs + 1;
      assert lock.Matches(id, Entered(cells, id)[id]);
      forall i | i in uploadLocks && i != id ensures uploadLocks[i].Matches(i, cells[i]) {
        assert old(uploadLocks[i].Matches(i, cells[i]));
      }
    }

    method LockFor(id: UploadId) returns (lock: Lock)
      modifies this`uploadLocks
      ensures uploadLocks == old(uploadLocks)[id := lock]
      ensures if id in old(uploadLocks) then lock == old(uploadLocks[id])
              else fresh(lock) && lock.id == id && lock.refs == 0 && !lock.locked
    {
      if id in uploadLocks {
        lock := uploadLocks[id];
      } else {
        lock := new Lock(id);
        uploadLocks := uploadLocks[id := lock];
      }
    }

    /** lock.mu.Lock(): goes on only when the mutex is free. */
    method LockMutex(t: Thread, lock: Lock) returns (obtained: bool)
      requires Valid() && At(Run(steps).threads, t, Waiting) && given[t] == lock
      modifies this`steps, lock`locked
      ensures Valid()
      ensures steps == old(steps) + [Obtain(t)]
      ensures obtained <==> At(Run(steps).threads, t, Holding)
    {
      RunAppend(steps, Obtain(t));
      steps := steps + [Obtain(t)];
      obtained := !lock.locked;
      lock.locked := true;
    }

    /** lock.mu.Unlock(). */
    method UnlockMutex(t: Thread, lock: Lock)
      requires Valid() && At(Run(steps).threads, t, Holding) && given[t] == lock
      modifies this`steps, lock`locked
      ensures Valid()
      ensures steps == old(steps) + [Unlock(t)]
    {
      RunAppend(steps, Unlock(t));
      steps := steps + [Unlock(t)];
      lock.locked := false;
    }

    /** The critical section of the release function. */
    method Release(t: Thread, id: UploadId, lock: Lock)
      requires Valid() && At(Run(steps).threads, t, Leaving) && Run(steps).threads[t].id == id && given[t] == lock
      modifies this, lock`refs
      ensures Valid()
      ensures steps == old(steps) + [Leave(t)] && given == old(given) - {t}
      ensures uploadLocks == if id in Run(steps).cells then old(uploadLocks) else old(uploadLocks) - {id}
    {
      RunLeave(steps, t);
      steps, given := steps + [Leave(t)], given - {t};
      lock.refs := lock.refs - 1;
      if lock.refs == 0 && id in uploadLocks && uploadLocks[id] == lock {
        uploadLocks := uploadLocks - {id};
      }
    }
  }

  lemma RunAppend(steps: seq<Step>, step: Step)
    ensures Run(steps + [step]) == Apply(Run(steps), step)
  {
    assert (steps + [step])[..|steps|] == steps;
  }

  lemma RunEnter(steps: seq<Step>, t: Thread, id: UploadId)
    requires t !in Run(steps).threads
    ensures Run(steps + [Enter(t, id)]) == State(Run(steps).threads[t := Position(id, Waiting)], Entered(Run(steps).cells, id))
  {
    RunAppend(steps, Enter(t, id));
  }

  lemma RunLeave(steps: seq<Step>, t: Thread)
    requires At(Run(steps).threads, t, Leaving)
    ensures Run(steps).threads[t].id in Run(steps).cells && Run(steps).cells[Run(steps).threads[t].id].refs > 0
    ensures var after := Run(steps + [Leave(t)]);
            && after == State(Run(steps).threads - {t}, Left(Run(steps).cells, Run(steps).threads[t].id))
            && forall u :: u in after.threads ==> after.threads[u].id in after.cells
  {
    RunAppend(steps, Leave(t));
    RunKeeps(steps);
    RunKeeps(steps + [Leave(t)]);
  }
}
