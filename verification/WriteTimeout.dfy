/** The connection wrapper that bounds lack of progress instead of the whole transfer. */
module WriteTimeout {
  import opened Wrappers

  const COPY_BUFFER := 32 * 1024

  type Byte = x: int | 0 <= x < 256

  /** A network error whose Timeout() is true, io.ErrShortWrite, or anything else. */
  datatype Error = Timeout | ShortWrite | Failed

  /**
   One call on the wrapped connection: whether a deadline was set for it, how much was on the wire before, how much
   it was asked to send and sent, and its error.
   */
  datatype Attempt =
    | Writing(armed: bool, wireLength: nat, asked: nat, sent: nat, err: Option<Error>)
    | Reading(armed: bool, wireLength: nat, asked: nat, sent: nat, err: Option<Error>, offset: int, limit: int)

  predicate MadeWriteProgress(n: nat, err: Option<Error>)
  {
    n > 0 && err == Some(Timeout)
  }

  /** A reader, possibly a file, possibly wrapped in an io.LimitedReader. */
  class Source {
    const contents: seq<Byte>
    const isFile: bool
    const isLimited: bool
    var offset: int
    var limit: int
    ghost var failures: nat

    constructor (contents: seq<Byte>, isFile: bool, isLimited: bool, limit: int)
      ensures this.contents == contents && this.isFile == isFile && this.isLimited == isLimited
      ensures this.limit == limit && offset == 0 && failures == 0
    {
      this.contents, this.isFile, this.isLimited, this.limit, this.offset := contents, isFile, isLimited, limit, 0;
      failures := 0;
    }

    /** What is left to read. */
    function Payload(): (r: seq<Byte>)
      reads this
    {
      PayloadFrom(contents, offset, Limit())
    }

    function Limit(): Option<int>
      reads this
    {
      if isLimited then Some(limit) else None
    }

    /** Reads some of what is left, or reports an error; None at the end of the data. */
    method Read(max: nat) returns (chunk: seq<Byte>, err: Option<Error>)
      requires max > 0
      modifies this`offset, this`limit, this`failures
      ensures failures == old(failures) + if err.Some? then 1 else 0
      ensures |chunk| <= max && chunk <= old(Payload()) && Payload() == old(Payload())[|chunk|..]
      ensures err.None? && chunk == [] ==> old(Payload()) == []
    {
      var n: nat :| n <= max && n <= |Payload()| && (n == 0 ==> Payload() == []);
      chunk := Payload()[..n];
      PayloadTail(contents, offset, Limit(), n);
      if n > 0 {
        offset, limit := offset + n, limit - n;
      }
      err := *;
      if err.Some? {
        failures := failures + 1;
      }
    }

    /** Seek(offset, io.SeekStart); a failure leaves the position where it was. */
    method SeekTo(position: int) returns (err: Option<Error>)
      modifies this`offset, this`failures
      ensures failures == old(failures) + if err.Some? then 1 else 0
      ensures err.None? ==> offset == position
      ensures err.Some? ==> err == Some(Failed) && offset == old(offset)
    {
      var ok: bool := *;
      if ok {
        offset := position;
        return None;
      }
      failures := failures + 1;
      return Some(Failed);
    }

    /** Seek(0, io.SeekCurrent). */
    method Position() returns (position: int, err: Option<Error>)
      modifies this`failures
      ensures failures == old(failures) + if err.Some? then 1 else 0
      ensures err.None? ==> position == offset
      ensures err.Some? ==> err == Some(Failed)
    {
      var ok: bool := *;
      if !ok {
        failures := failures + 1;
      }
      return offset, if ok then None else Some(Failed);
    }
  }

  /** A limit that is not positive, like an offset past the end, leaves nothing to read. */
  function PayloadFrom(contents: seq<Byte>, offset: int, limit: Option<int>): (r: seq<Byte>)
  {
    if offset < 0 || offset >= |contents| then []
    else if limit.None? || offset + limit.value >= |contents| then contents[offset..]
    else if limit.value <= 0 then []
    else contents[offset..offset + limit.value]
  }

  function Reduced(limit: Option<int>, n: nat): Option<int>
  {
    if limit.Some? then Some(limit.value - n) else None
  }

  /** Having sent n bytes, the offset and the limit moved by n describe exactly what is left. */
  lemma PayloadTail(contents: seq<Byte>, offset: int, limit: Option<int>, n: nat)
    requires n <= |PayloadFrom(contents, offset, limit)|
    ensures PayloadFrom(contents, offset + n, Reduced(limit, n)) == PayloadFrom(contents, offset, limit)[n..]
  {
  }

  /** The wrapped connection. Its contracts are what is assumed of a peer that may stall, fail or read ahead. */
  class Conn {
    const hasReadFrom: bool
    var wire: seq<Byte>
    ghost var armed: bool
    ghost var refusals: nat
    ghost var attempts: seq<Attempt>

    constructor (hasReadFrom: bool)
      ensures this.hasReadFrom == hasReadFrom && wire == [] && !armed && refusals == 0 && attempts == []
    {
      this.hasReadFrom, wire, armed, refusals, attempts := hasReadFrom, [], false, 0, [];
    }

    method SetWriteDeadline() returns (err: Option<Error>)
      modifies this`armed, this`refusals
      ensures refusals == old(refusals) + if err.Some? then 1 else 0
      ensures err.None? ==> armed
      ensures err.Some? ==> err == Some(Failed)
    {
      var ok: bool := *;
      if ok {
        armed := true;
        return None;
      }
      refusals := refusals + 1;
      return Some(Failed);
    }

    /** Any prefix may go out, whatever the error. */
    method Write(body: seq<Byte>) returns (n: nat, err: Option<Error>)
      modifies this`wire, this`attempts, this`armed
      ensures n <= |body| && wire == old(wire) + body[..n]
      ensures attempts == old(attempts) + [Writing(old(armed), |old(wire)|, |body|, n, err)]
    {
      n :| n <= |body|;
      err := *;
      attempts, armed := attempts + [Writing(armed, |wire|, |body|, n, err)], false;
      wire := wire + body[..n];
    }

    /**
     Sends some of what the source holds. It may have read further than it sent, and leaves the source's
     position anywhere; without an error everything was sent.
     */
    method ReadFrom(src: Source) returns (n: nat, err: Option<Error>)
      modifies this`wire, this`attempts, this`armed, src`offset, src`limit
      ensures n <= |old(src.Payload())| && wire == old(wire) + old(src.Payload())[..n]
      ensures err.None? ==> n == |old(src.Payload())|
      ensures attempts == old(attempts) + [Reading(old(armed), |old(wire)|, |old(src.Payload())|, n, err,
                                                   old(src.offset), old(src.limit))]
    {
      var payload := src.Payload();
      err := *;
      if err.None? {
        n := |payload|;
      } else {
        n :| n <= |payload|;
      }
      attempts, armed := attempts + [Reading(armed, |wire|, |payload|, n, err, src.offset, src.limit)], false;
      wire := wire + payload[..n];
      src.offset := *;
      src.limit := *;
    }
  }

  /** From an index on, each attempt has a deadline of its own, and only the last may have sent nothing. */
  ghost predicate Paced(attempts: seq<Attempt>, from: nat)
  {
    && (forall i :: from <= i < |attempts| ==> attempts[i].armed)
    && (forall i :: from <= i < |attempts| - 1 ==> attempts[i].sent > 0)
  }

  /** An attempt starts to read at the first byte that is not on the wire yet. */
  ghost predicate Resumes(a: Attempt, wireLength: nat, offset: int, limit: Option<int>)
  {
    && a.Reading?
    && a.offset - offset == a.wireLength - wireLength
    && (limit.Some? ==> limit.value - a.limit == a.wireLength - wireLength)
  }

  ghost predicate Aligned(attempts: seq<Attempt>, from: nat, wireLength: nat, offset: int, limit: Option<int>)
  {
    forall i :: from <= i < |attempts| ==> Resumes(attempts[i], wireLength, offset, limit)
  }

  ghost predicate Progressing(attempts: seq<Attempt>, from: nat)
  {
    |attempts| > from ==> attempts[|attempts| - 1].sent > 0
  }

  /** The last attempt is a new one and sent nothing. */
  ghost predicate Stalled(attempts: seq<Attempt>, from: nat)
  {
    |attempts| > from && attempts[|attempts| - 1].sent == 0
  }

  /** The last attempt explains the error: it reported it, or reported none although it sent less than it was asked to. */
  ghost predicate Explains(attempts: seq<Attempt>, from: nat, err: Option<Error>)
  {
    && |attempts| > from
    && var last := attempts[|attempts| - 1];
       last.err == err || (err == Some(ShortWrite) && last.err.None? && last.sent < last.asked)
  }

  /** An error comes from the connection: it refused a deadline, or the last attempt explains it. */
  ghost predicate Blamed(attempts: seq<Attempt>, from: nat, refused: bool, err: Option<Error>)
  {
    err.Some? ==> (refused && err == Some(Failed)) || Explains(attempts, from, err)
  }

  /** A retrying call ends without an error, or with one that is explained; a timeout means that an attempt sent nothing. */
  ghost predicate Ended(attempts: seq<Attempt>, from: nat, failed: bool, err: Option<Error>)
  {
    Blamed(attempts, from, failed, err) && (err == Some(Timeout) ==> Stalled(attempts, from))
  }

  /** Every attempt sent all it was asked to, or timed out having sent something. */
  ghost predicate Healthy(attempts: seq<Attempt>, from: nat)
  {
    forall i :: from <= i < |attempts| ==>
      || (attempts[i].err.None? && attempts[i].sent == attempts[i].asked)
      || (attempts[i].err == Some(Timeout) && attempts[i].sent > 0)
  }

  /** On a connection that makes progress the retries end without an error, however often it times out. */
  lemma ProgressHasNoError(attempts: seq<Attempt>, from: nat, err: Option<Error>)
    requires Healthy(attempts, from) && Blamed(attempts, from, false, err)
    requires err == Some(Timeout) ==> Stalled(attempts, from)
    ensures err.None?
  {
    if err.Some? {
      var last := attempts[|attempts| - 1];
      assert last.sent > 0 || last.sent == last.asked;
    }
  }

  lemma PacedAppend(attempts: seq<Attempt>, from: nat, next: Attempt)
    requires Paced(attempts, from) && Progressing(attempts, from) && next.armed && from <= |attempts|
    ensures Paced(attempts + [next], from)
    ensures if next.sent > 0 then Progressing(attempts + [next], from) else Stalled(attempts + [next], from)
  {
  }

  lemma AlignedAppend(attempts: seq<Attempt>, from: nat, wireLength: nat, offset: int, limit: Option<int>, next: Attempt)
    requires Aligned(attempts, from, wireLength, offset, limit) && Resumes(next, wireLength, offset, limit)
    ensures Aligned(attempts + [next], from, wireLength, offset, limit)
  {
  }

  datatype Rule = InTurn | AtFirstUnsent

  ghost predicate Respects(attempts: seq<Attempt>, from: nat, wireLength: nat, offset: int, limit: Option<int>, rule: Rule)
  {
    match rule
    case InTurn => Paced(attempts, from)
    case AtFirstUnsent => Aligned(attempts, from, wireLength, offset, limit)
  }

  /** Rule by rule, so that it is taken apart only where OrderlyIs says so. */
  ghost predicate Orderly(attempts: seq<Attempt>, from: nat, wireLength: nat, offset: int, limit: Option<int>)
  {
    forall rule :: Respects(attempts, from, wireLength, offset, limit, rule)
  }

  lemma OrderlyIs(attempts: seq<Attempt>, from: nat, wireLength: nat, offset: int, limit: Option<int>)
    ensures Orderly(attempts, from, wireLength, offset, limit) <==>
              Paced(attempts, from) && Aligned(attempts, from, wireLength, offset, limit)
  {
    if Orderly(attempts, from, wireLength, offset, limit) {
      assert Respects(attempts, from, wireLength, offset, limit, InTurn);
      assert Respects(attempts, from, wireLength, offset, limit, AtFirstUnsent);
    }
  }

  /** One more attempt, taken under a deadline of its own and at the first unsent byte. */
  lemma AttemptAdded(attempts: seq<Attempt>, from: nat, wireLength: nat, offset: int, limit: Option<int>, next: Attempt,
                     more: seq<Attempt>)
    requires from <= |attempts| && more == attempts + [next] && next.armed
    requires Orderly(attempts, from, wireLength, offset, limit) && Progressing(attempts, from)
    requires Resumes(next, wireLength, offset, limit)
    ensures Orderly(more, from, wireLength, offset, limit) && attempts <= more
    ensures if next.sent > 0 then Progressing(more, from) else Stalled(more, from)
    ensures Explains(more, from, next.err)
  {
    OrderlyIs(attempts, from, wireLength, offset, limit);
    OrderlyIs(more, from, wireLength, offset, limit);
    PacedAppend(attempts, from, next);
    AlignedAppend(attempts, from, wireLength, offset, limit, next);
  }

  lemma PrefixExtended(wire: seq<Byte>, payload: seq<Byte>, total: nat, n: nat)
    requires total + n <= |payload|
    ensures wire + payload[..total] + payload[total..][..n] == wire + payload[..total + n]
    ensures payload[total..][n..] == payload[total + n..]
  {
  }

  /** Having sent total bytes, and now n of what is left, total + n bytes are on the wire. */
  lemma SentMore(contents: seq<Byte>, start: int, limit: Option<int>, wire: seq<Byte>, total: nat, before: seq<Byte>,
                 n: nat, after: seq<Byte>)
    requires total <= |PayloadFrom(contents, start, limit)|
    requires before == wire + PayloadFrom(contents, start, limit)[..total]
    requires n <= |PayloadFrom(contents, start + total, Reduced(limit, total))|
    requires after == before + PayloadFrom(contents, start + total, Reduced(limit, total))[..n]
    ensures var payload, left := PayloadFrom(contents, start, limit), PayloadFrom(contents, start + total, Reduced(limit, total));
            && total + n <= |payload| && after == wire + payload[..total + n]
            && |left| == |payload| - total
  {
    PayloadTail(contents, start, limit, total);
    PrefixExtended(wire, PayloadFrom(contents, start, limit), total, n);
  }

  class WriteTimeoutConn {
    const conn: Conn
    var idleTimeout: int

    constructor (conn: Conn, idleTimeout: int)
      ensures this.conn == conn && this.idleTimeout == idleTimeout
    {
      this.conn, this.idleTimeout := conn, idleTimeout;
    }

    /** A deadline set by the server itself ends the download's policy. */
    method SetWriteDeadline() returns (err: Option<Error>)
      modifies this, conn`armed, conn`refusals
      ensures idleTimeout == 0
      ensures err.None? ==> conn.armed
      ensures err.Some? ==> conn.refusals > old(conn.refusals)
    {
      idleTimeout := 0;
      err := conn.SetWriteDeadline();
    }

    /**
     The wire gains exactly the first total bytes. With a timeout, no error means all of them, and a timeout is
     reported only when a whole attempt under a fresh deadline sent nothing. Any error is one of the connection's.
     Without a timeout there is one attempt.
     */
    method Write(body: seq<Byte>) returns (total: nat, err: Option<Error>)
      modifies conn`wire, conn`armed, conn`refusals, conn`attempts
      ensures total <= |body| && conn.wire == old(conn.wire) + body[..total]
      ensures conn.refusals >= old(conn.refusals)
      ensures Blamed(conn.attempts, |old(conn.attempts)|, conn.refusals > old(conn.refusals), err)
      ensures idleTimeout <= 0 ==>
                conn.attempts == old(conn.attempts) + [Writing(old(conn.armed), |old(conn.wire)|, |body|, total, err)]
      ensures idleTimeout > 0 && err.None? ==> total == |body|
      ensures old(conn.attempts) <= conn.attempts
      ensures idleTimeout > 0 ==> Paced(conn.attempts, |old(conn.attempts)|)
      ensures idleTimeout > 0 && err == Some(Timeout) ==> Stalled(conn.attempts, |old(conn.attempts)|)
    {
      total := 0;
      if idleTimeout <= 0 {
        total, err := conn.Write(body);
        return;
      }
      var rest := body;
      ghost var from := |conn.attempts|;
      while |rest| > 0
        invariant total <= |body| && rest == body[total..]
        invariant conn.wire == old(conn.wire) + body[..total]
        invariant old(conn.attempts) <= conn.attempts
        invariant Paced(conn.attempts, from) && Progressing(conn.attempts, from)
        invariant conn.refusals >= old(conn.refusals)
        decreases |rest|
      {
        err := conn.SetWriteDeadline();
        if err.Some? {
          return;
        }
        ghost var attempts := conn.attempts;
        var n;
        n, err := conn.Write(rest);
        PacedAppend(attempts, from, conn.attempts[|attempts|]);
        total := total + n;
        rest := rest[n..];
        if err.Some? && !MadeWriteProgress(n, err) {
          return;
        }
        if n == 0 {
          return total, Some(ShortWrite);
        }
      }
      err := None;
    }

    /**
     The wire gains exactly the first total bytes of what the source held, and no error means all of them.
     A retrying connection starts every attempt at the first byte that was not sent. Any error is one of the
     connection's or the source's.
     */
    method ReadFrom(src: Source) returns (total: nat, err: Option<Error>)
      modifies conn`wire, conn`armed, conn`refusals, conn`attempts, src`offset, src`limit, src`failures
      ensures total <= |old(src.Payload())| && conn.wire == old(conn.wire) + old(src.Payload())[..total]
      ensures err.None? ==> total == |old(src.Payload())|
      ensures conn.refusals >= old(conn.refusals) && src.failures >= old(src.failures)
      ensures src.failures > old(src.failures)
           || Blamed(conn.attempts, |old(conn.attempts)|, conn.refusals > old(conn.refusals), err)
      ensures old(conn.attempts) <= conn.attempts
      ensures idleTimeout <= 0 && conn.hasReadFrom && src.isFile ==> |conn.attempts| == |old(conn.attempts)| + 1
      ensures idleTimeout > 0 && conn.hasReadFrom && src.isFile ==>
                && Paced(conn.attempts, |old(conn.attempts)|)
                && Aligned(conn.attempts, |old(conn.attempts)|, |old(conn.wire)|, old(src.offset), old(src.Limit()))
                && (err == Some(Timeout) ==> Stalled(conn.attempts, |old(conn.attempts)|))
    {
      if !conn.hasReadFrom || !src.isFile {
        total, err := Copy(src);
        return;
      }
      if idleTimeout <= 0 {
        total, err := conn.ReadFrom(src);
        return;
      }
      total, err := ReadFromRetrying(src);
    }

    method ReadFromRetrying(src: Source) returns (total: nat, err: Option<Error>)
      requires idleTimeout > 0
      modifies conn`wire, conn`armed, conn`refusals, conn`attempts, src`offset, src`limit, src`failures
      ensures total <= |old(src.Payload())| && conn.wire == old(conn.wire) + old(src.Payload())[..total]
      ensures err.None? ==> total == |old(src.Payload())|
      ensures conn.refusals >= old(conn.refusals) && src.failures >= old(src.failures)
      ensures Ended(conn.attempts, |old(conn.attempts)|,
                    conn.refusals > old(conn.refusals) || src.failures > old(src.failures), err)
      ensures old(conn.attempts) <= conn.attempts
      ensures Paced(conn.attempts, |old(conn.attempts)|)
      ensures Aligned(conn.attempts, |old(conn.attempts)|, |old(conn.wire)|, old(src.offset), old(src.Limit()))
    {
      total, err := 0, None;
      ghost var payload, start, limit := src.Payload(), src.offset, src.Limit();
      ghost var wire, from, refusals, failures := conn.wire, |conn.attempts|, conn.refusals, src.failures;
      ghost var attempts := conn.attempts;
      var again := true;
      OrderlyIs(attempts, from, |wire|, start, limit);
      while again
        invariant total <= |payload|
        invariant conn.wire == wire + payload[..total]
        invariant conn.refusals >= refusals && src.failures >= failures && attempts <= conn.attempts
        invariant Orderly(conn.attempts, from, |wire|, start, limit)
        invariant again ==> src.offset == start + total && src.Limit() == Reduced(limit, total)
        invariant again ==> Progressing(conn.attempts, from)
        invariant !again ==> Ended(conn.attempts, from, conn.refusals > refusals || src.failures > failures, err)
        invariant !again && err.None? ==> total == |payload|
        decreases |payload| - total, again
      {
        var n;
        ghost var before := conn.wire;
        n, again, err := SendOnce(src, from, |wire|, start, limit);
        SentMore(src.contents, start, limit, wire, total, before, n, conn.wire);
        total := total + n;
      }
      OrderlyIs(conn.attempts, from, |wire|, start, limit);
    }

    /** One round of the retry loop; again says that the position has been put behind the bytes sent. */
    method SendOnce(src: Source, ghost from: nat, ghost wireLength: nat, ghost start: int, ghost limit: Option<int>)
      returns (n: nat, again: bool, err: Option<Error>)
      requires idleTimeout > 0 && wireLength <= |conn.wire| && from <= |conn.attempts|
      requires src.offset == start + (|conn.wire| - wireLength)
      requires src.Limit() == Reduced(limit, |conn.wire| - wireLength)
      requires Orderly(conn.attempts, from, wireLength, start, limit) && Progressing(conn.attempts, from)
      modifies conn`wire, conn`armed, conn`refusals, conn`attempts, src`offset, src`limit, src`failures
      ensures n <= |old(src.Payload())| && conn.wire == old(conn.wire) + old(src.Payload())[..n]
      ensures conn.refusals >= old(conn.refusals) && src.failures >= old(src.failures)
      ensures !again ==>
                Ended(conn.attempts, from, conn.refusals > old(conn.refusals) || src.failures > old(src.failures), err)
      ensures old(conn.attempts) <= conn.attempts
      ensures Orderly(conn.attempts, from, wireLength, start, limit)
      ensures again ==> Progressing(conn.attempts, from)
      ensures again ==> n > 0 && src.offset == old(src.offset) + n && src.Limit() == Reduced(old(src.Limit()), n)
      ensures !again && err.None? ==> n == |old(src.Payload())|
    {
      n, again := 0, false;
      var offset, remaining;
      offset, remaining, err := Prepare(src);
      if err.Some? {
        return;
      }
      ghost var attempts := conn.attempts;
      n, err := conn.ReadFrom(src);
      AttemptAdded(attempts, from, wireLength, start, limit, conn.attempts[|attempts|], conn.attempts);
      if !MadeWriteProgress(n, err) {
        return;
      }
      err := Rewind(src, offset + n, remaining - n);
      again := err.None?;
    }

    /** Where the source is, and a deadline for the next attempt. */
    method Prepare(src: Source) returns (offset: int, remaining: int, err: Option<Error>)
      modifies conn`armed, conn`refusals, src`failures
      ensures conn.refusals >= old(conn.refusals) && src.failures >= old(src.failures)
      ensures err.Some? ==> err == Some(Failed)
                            && (conn.refusals > old(conn.refusals) || src.failures > old(src.failures))
      ensures err.None? ==> offset == src.offset && (src.isLimited ==> remaining == src.limit) && conn.armed
    {
      remaining := 0;
      offset, err := src.Position();
      if err.Some? {
        return;
      }
      if src.isLimited {
        remaining := src.limit;
      }
      err := conn.SetWriteDeadline();
    }

    /** Put the source behind the bytes that were sent. */
    method Rewind(src: Source, offset: int, remaining: int) returns (err: Option<Error>)
      modifies src`offset, src`limit, src`failures
      ensures src.failures == old(src.failures) + if err.Some? then 1 else 0
      ensures err.Some? ==> err == Some(Failed)
      ensures err.None? ==> src.offset == offset && (src.isLimited ==> src.limit == remaining)
    {
      err := src.SeekTo(offset);
      if err.None? && src.isLimited {
        src.limit := remaining;
      }
    }

    /** io.Copy between the plain reader and Write; what was read but not sent is lost to the source only. */
    method Copy(src: Source) returns (total: nat, err: Option<Error>)
      modifies conn`wire, conn`armed, conn`refusals, conn`attempts, src`offset, src`limit, src`failures
      ensures total <= |old(src.Payload())| && conn.wire == old(conn.wire) + old(src.Payload())[..total]
      ensures err.None? ==> total == |old(src.Payload())|
      ensures conn.refusals >= old(conn.refusals) && src.failures >= old(src.failures)
      ensures src.failures > old(src.failures)
           || Blamed(conn.attempts, |old(conn.attempts)|, conn.refusals > old(conn.refusals), err)
      ensures old(conn.attempts) <= conn.attempts
    {
      total := 0;
      ghost var payload, wire := src.Payload(), conn.wire;
      while true
        invariant total <= |payload| && src.Payload() == payload[total..]
        invariant conn.wire == wire + payload[..total]
        invariant conn.refusals >= old(conn.refusals) && src.failures >= old(src.failures)
        invariant old(conn.attempts) <= conn.attempts
        decreases |payload| - total
      {
        var chunk, readErr := src.Read(COPY_BUFFER);
        if chunk != [] {
          var n, writeErr := Write(chunk);
          assert chunk == payload[total..][..|chunk|] && chunk[..n] == payload[total..][..n];
          PrefixExtended(wire, payload, total, n);
          total := total + n;
          if writeErr.Some? {
            return total, writeErr;
          }
          if n != |chunk| {
            return total, Some(ShortWrite);
          }
        }
        if readErr.Some? {
          return total, readErr;
        }
        if chunk == [] {
          return total, None;
        }
      }
    }
  }
}
