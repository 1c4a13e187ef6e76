/** Transactions on one pooled connection, with a failure or a cancellation possible at every call. */
module Transaction {
  import opened Wrappers

  /** The effect of one statement. */
  type Write = nat

  datatype Error = Canceled | Failed

  /** A request context: once done it stays done. */
  class Context {
    var done: bool

    constructor ()
    {
      done := false;
    }

    /** Time passes; the caller may have given up by now. */
    method Err() returns (err: Option<Error>)
      modifies this
      ensures old(done) ==> done
      ensures err == if done then Some(Canceled) else None
    {
      var cancel: bool := *;
      done := done || cancel;
      err := if done then Some(Canceled) else None;
    }
  }

  /** A SQLite connection; closing it rolls back whatever it has open. */
  class Conn {
    var open: bool
    var pending: seq<Write>
    var closed: bool

    constructor ()
      ensures !open && !closed && pending == []
    {
      open, closed, pending := false, false, [];
    }

    predicate Clean()
      reads this
    {
      !open && !closed && pending == []
    }
  }

  /** The committed writes, and the connections ready for the next caller. */
  class Pool {
    var stored: seq<Write>
    var idle: set<Conn>
    ghost var failures: nat

    ghost predicate Valid()
      reads this, idle
    {
      forall c :: c in idle ==> c.Clean()
    }

    constructor ()
      ensures Valid() && stored == [] && idle == {} && failures == 0
    {
      stored, idle, failures := [], {}, 0;
    }

    /** db.Conn: an idle connection or a new one. */
    method Take(ctx: Context) returns (r: Result<Conn, Error>)
      requires Valid()
      modifies this`idle, this`failures, ctx
      ensures old(ctx.done) ==> ctx.done
      ensures failures >= old(failures) && (r.Err? ==> ctx.done || failures > old(failures))
      ensures Valid() && idle <= old(idle)
      ensures r.Ok? ==> r.value.Clean() && r.value !in idle && (r.value in old(idle) || fresh(r.value))
      ensures r.Err? ==> idle == old(idle)
    {
      var err := ctx.Err();
      var refuse: bool := *;
      if err.Some? || refuse {
        failures := failures + if refuse then 1 else 0;
        return Err(Failed);
      }
      if idle != {} {
        var conn :| conn in idle;
        idle := idle - {conn};
        return Ok(conn);
      }
      var conn := new Conn();
      return Ok(conn);
    }

    /** A statement outside COMMIT: a failure of BEGIN leaves it uncertain whether a transaction is open. */
    method Begin(ctx: Context, conn: Conn) returns (err: Option<Error>)
      requires conn.Clean()
      modifies ctx, conn`open, this`failures
      ensures old(ctx.done) ==> ctx.done
      ensures failures >= old(failures) && (err.Some? ==> ctx.done || failures > old(failures))
      ensures err.None? ==> conn.open
    {
      err := ctx.Err();
      var fails: bool := *;
      if err.Some? || fails {
        failures := failures + if fails then 1 else 0;
        conn.open := *;
        return Some(Failed);
      }
      conn.open := true;
    }

    method Exec(ctx: Context, conn: Conn, write: Write) returns (err: Option<Error>)
      requires conn.open
      modifies ctx, conn`pending, this`failures
      ensures old(ctx.done) ==> ctx.done
      ensures failures >= old(failures) && (err.Some? ==> ctx.done || failures > old(failures))
      ensures err.None? ==> conn.pending == old(conn.pending) + [write]
      ensures err.Some? ==> conn.pending == old(conn.pending)
    {
      err := ctx.Err();
      var fails: bool := *;
      if err.Some? || fails {
        failures := failures + if fails then 1 else 0;
        return Some(Failed);
      }
      conn.pending := conn.pending + [write];
    }

    /**
     COMMIT. Without a context a failure persists nothing, whether or not SQLite has rolled back. A context that is
     canceled while COMMIT runs makes the call fail although the writes may be stored.
     */
    method Commit(conn: Conn, cancel: Option<Context>) returns (err: Option<Error>)
      requires conn.open
      modifies this`stored, this`failures, conn, if cancel.Some? then {cancel.value} else {}
      ensures failures >= old(failures) && (err.Some? && cancel.None? ==> failures > old(failures))
      ensures conn.closed == old(conn.closed)
      ensures MayEnd(old(stored), old(conn.pending), cancel.Some?, stored, err.Some?)
      ensures err.None? ==> !conn.open && conn.pending == []
    {
      var fails: bool := *;
      if fails {
        failures := failures + 1;
        conn.open := *;
        return Some(Failed);
      }
      stored := stored + conn.pending;
      conn.open, conn.pending := false, [];
      err := None;
      if cancel.Some? {
        err := cancel.value.Err();
      }
    }

    method Rollback(conn: Conn) returns (err: Option<Error>)
      modifies conn, this`failures
      ensures failures == old(failures) + if err.Some? then 1 else 0
      ensures conn.closed == old(conn.closed)
      ensures err.None? ==> !conn.open && conn.pending == []
    {
      var fails: bool := *;
      if fails {
        failures := failures + 1;
        conn.open := *;
        return Some(Failed);
      }
      conn.open, conn.pending := false, [];
      return None;
    }

    /** conn.Raw with driver.ErrBadConn closes the connection. */
    method Discard(conn: Conn)
      modifies conn
      ensures conn.closed && !conn.open && conn.pending == []
    {
      conn.closed, conn.open, conn.pending := true, false, [];
    }

    /** conn.Close hands the connection back unless it was discarded, whatever state it is in. */
    method Return(conn: Conn)
      modifies this`idle
      ensures idle == if conn.closed then old(idle) else old(idle) + {conn}
    {
      if !conn.closed {
        idle := idle + {conn};
      }
    }
  }

  /** How COMMIT may end: what is stored then, and whether the call failed. */
  ghost predicate MayEnd(before: seq<Write>, pending: seq<Write>, cancelable: bool, after: seq<Write>, failed: bool)
  {
    if failed then after == before || (cancelable && after == before + pending) else after == before + pending
  }

  /** The caller knows what is stored. */
  ghost predicate Known(before: seq<Write>, pending: seq<Write>, cancelable: bool)
  {
    forall after, failed :: MayEnd(before, pending, cancelable, after, failed) ==>
                              after == if failed then before else before + pending
  }

  /** An error of COMMIT tells that nothing was stored if and only if COMMIT cannot be canceled, or has nothing to store. */
  lemma ErrorsAreKnown(before: seq<Write>, pending: seq<Write>, cancelable: bool)
    ensures Known(before, pending, cancelable) <==> !cancelable || pending == []
  {
    if pending == [] {
      assert before + pending == before;
    } else if cancelable {
      assert MayEnd(before, pending, cancelable, before + pending, true);
      assert |before + pending| > |before|;
    }
  }

  lemma CommitIsKnown(before: seq<Write>, pending: seq<Write>)
    ensures Known(before, pending, false)
  {
  }

  class ImmediateTransaction {
    const pool: Pool
    const conn: Conn
    var committed: bool

    constructor (pool: Pool, conn: Conn)
      ensures this.pool == pool && this.conn == conn && !committed
    {
      this.pool, this.conn, committed := pool, conn, false;
    }

    /** The connection is out of the pool, and it is clean once the transaction is committed. */
    ghost predicate Valid()
      reads this, pool, pool.idle, conn
    {
      && pool.Valid() && conn !in pool.idle && !conn.closed
      && (committed ==> conn.Clean())
    }

    /** No error exactly when the pending writes are stored: once COMMIT runs it is not given the context. */
    method Commit(ctx: Context) returns (err: Option<Error>)
      requires Valid() && !committed && conn.open
      modifies this`committed, pool`stored, pool`failures, conn, ctx
      ensures old(ctx.done) ==> ctx.done
      ensures pool.failures >= old(pool.failures) && (err.Some? ==> ctx.done || pool.failures > old(pool.failures))
      ensures Valid()
      ensures pool.stored == if err.None? then old(pool.stored) + old(conn.pending) else old(pool.stored)
      ensures committed <==> err.None?
    {
      err := ctx.Err();
      if err.Some? {
        return;
      }
      err := pool.Commit(conn, None);
      CommitIsKnown(old(pool.stored), old(conn.pending));
      if err.None? {
        committed := true;
      }
    }

    /**
     Whatever happened before, no connection goes back with an open transaction; it goes back unless the rollback
     fails.
     */
    method Close()
      requires Valid()
      modifies pool`idle, pool`failures, conn
      ensures pool.failures >= old(pool.failures) && (conn.closed ==> pool.failures > old(pool.failures))
      ensures pool.Valid()
      ensures pool.idle == if conn.closed then old(pool.idle) else old(pool.idle) + {conn}
      ensures !conn.open && conn.pending == [] && (committed ==> !conn.closed)
    {
      if !committed {
        var err := pool.Rollback(conn);
        if err.Some? {
          pool.Discard(conn);
        }
      }
      pool.Return(conn);
    }
  }

  /** Fails without a trace when a call fails or the context is done, or gives an open transaction on a connection of its own. */
  method BeginImmediate(pool: Pool, ctx: Context) returns (r: Result<ImmediateTransaction, Error>)
    requires pool.Valid()
    modifies pool`idle, pool`failures, pool.idle, ctx
    ensures old(ctx.done) ==> ctx.done
    ensures pool.failures >= old(pool.failures) && (r.Err? ==> ctx.done || pool.failures > old(pool.failures))
    ensures pool.Valid() && pool.idle <= old(pool.idle)
    ensures r.Ok? ==>
              && fresh(r.value) && r.value.pool == pool && r.value.Valid() && !r.value.committed
              && (r.value.conn in old(pool.idle) || fresh(r.value.conn))
              && r.value.conn.open && r.value.conn.pending == []
  {
    var taken := pool.Take(ctx);
    if taken.Err? {
      return Err(taken.error);
    }
    var conn := taken.value;
    var err := pool.Begin(ctx, conn);
    if err.Some? {
      pool.Discard(conn);
      pool.Return(conn);
      return Err(err.value);
    }
    var tx := new ImmediateTransaction(pool, conn);
    return Ok(tx);
  }

  /**
   The shape of every writing repository method: all of its statements persist, or none and it reports an error, which
   happens only when the context is done or a call has failed.
   */
  method Update(pool: Pool, ctx: Context, writes: seq<Write>) returns (err: Option<Error>)
    requires pool.Valid()
    modifies pool, pool.idle, ctx
    ensures old(ctx.done) ==> ctx.done
    ensures pool.failures >= old(pool.failures) && (err.Some? ==> ctx.done || pool.failures > old(pool.failures))
    ensures pool.Valid() && forall c :: c in pool.idle ==> c in old(pool.idle) || fresh(c)
    ensures pool.stored == old(pool.stored) + if err.None? then writes else []
  {
    var begun := BeginImmediate(pool, ctx);
    if begun.Err? {
      return Some(begun.error);
    }
    var tx := begun.value;
    err := None;
    var i := 0;
    while i < |writes| && err.None?
      invariant 0 <= i <= |writes|
      invariant tx.Valid() && tx.conn.open && !tx.committed
      invariant err.None? ==> tx.conn.pending == writes[..i]
      invariant pool.stored == old(pool.stored) && pool.idle <= old(pool.idle)
      invariant (old(ctx.done) ==> ctx.done) && pool.failures >= old(pool.failures)
      invariant err.Some? ==> ctx.done || pool.failures > old(pool.failures)
      decreases |writes| - i, err.None?
    {
      err := pool.Exec(ctx, tx.conn, writes[i]);
      if err.None? {
        i := i + 1;
      }
    }
    if err.None? {
      err := tx.Commit(ctx);
    }
    tx.Close();
  }

  /** What a run of updates leaves behind, by the errors their callers saw. */
  function Stored(batches: seq<seq<Write>>, errors: seq<Option<Error>>): (r: seq<Write>)
    requires |batches| == |errors|
  {
    if batches == [] then []
    else Stored(batches[..|batches| - 1], errors[..|errors| - 1])
         + (if errors[|errors| - 1].None? then batches[|batches| - 1] else [])
  }

  lemma StoredNext(batches: seq<seq<Write>>, errors: seq<Option<Error>>, err: Option<Error>)
    requires |errors| < |batches|
    ensures Stored(batches[..|errors| + 1], errors + [err])
         == Stored(batches[..|errors|], errors) + if err.None? then batches[|errors|] else []
  {
    assert batches[..|errors| + 1][..|errors|] == batches[..|errors|];
    assert (errors + [err])[..|errors|] == errors;
  }

  /** Each update has a context of its own. Without a failure the updates whose contexts are not done all succeed. */
  method UpdateAll(pool: Pool, batches: seq<seq<Write>>, ctxs: seq<Context>) returns (errors: seq<Option<Error>>)
    requires pool.Valid() && |ctxs| == |batches|
    modifies pool, pool.idle, ctxs
    ensures pool.Valid()
    ensures |errors| == |batches| && pool.stored == old(pool.stored) + Stored(batches, errors)
    ensures pool.failures == old(pool.failures) ==>
              forall i :: 0 <= i < |errors| && errors[i].Some? ==> ctxs[i].done
  {
    errors := [];
    for i := 0 to |batches|
      invariant pool.Valid() && forall c :: c in pool.idle ==> c in old(pool.idle) || fresh(c)
      invariant |errors| == i && pool.stored == old(pool.stored) + Stored(batches[..i], errors)
      invariant pool.failures >= old(pool.failures)
      invariant pool.failures == old(pool.failures) ==>
                  forall j :: 0 <= j < i && errors[j].Some? ==> ctxs[j].done
    {
      var err := Update(pool, ctxs[i], batches[i]);
      StoredNext(batches, errors, err);
      errors := errors + [err];
    }
    assert batches[..|batches|] == batches;
  }
}
