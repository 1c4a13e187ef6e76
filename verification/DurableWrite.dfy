/** Files written under a temporary name and renamed, with a failure possible at every call. */
module DurableWrite {
  import opened Wrappers

  type Bytes = seq<bv8>

  type Name = string

  type Files = map<Name, Bytes>

  const BUFFER: nat := 32 * 1024

  datatype Error = Canceled | Failed | ShortWrite | Missing

  /** What the file is filled with: one reader, or stored parts one after the other. */
  datatype Fill = FromReader(bytes: Bytes) | FromParts(paths: seq<Name>)

  /** The bytes of the parts in order; None when one is missing. */
  function Concatenation(files: Files, paths: seq<Name>): Option<Bytes>
  {
    if paths == [] then Some([])
    else
      var before, last := Concatenation(files, paths[..|paths| - 1]), paths[|paths| - 1];
      if before.None? || last !in files then None else Some(before.value + files[last])
  }

  function Content(files: Files, fill: Fill): Option<Bytes>
  {
    match fill
    case FromReader(bytes) => Some(bytes)
    case FromParts(paths) => Concatenation(files, paths)
  }

  predicate Avoids(fill: Fill, name: Name)
  {
    fill.FromParts? ==> name !in fill.paths
  }

  lemma {:induction false} ConcatenationElsewhere(files: Files, paths: seq<Name>, name: Name, bytes: Bytes)
    requires name !in paths
    ensures Concatenation(files[name := bytes], paths) == Concatenation(files, paths)
  {
    if paths == [] {
    } else {
      ConcatenationElsewhere(files, paths[..|paths| - 1], name, bytes);
      assert paths[|paths| - 1] != name;
    }
  }

  lemma {:induction false} MissingPart(files: Files, paths: seq<Name>, i: nat)
    requires i < |paths| && paths[i] !in files
    ensures Concatenation(files, paths).None?
  {
    if i < |paths| - 1 {
      MissingPart(files, paths[..|paths| - 1], i);
    }
  }

  class Filesystem {
    var files: Files
    ghost var failures: nat

    constructor ()
      ensures files == map[] && failures == 0
    {
      files, failures := map[], 0;
    }

    /** One Write call: any prefix of the buffer may reach the file. */
    method Append(name: Name, buffer: Bytes) returns (n: nat, err: Option<Error>)
      requires name in files
      modifies this
      ensures failures == old(failures) + if err.Some? || n < |buffer| then 1 else 0
      ensures n <= |buffer| && files == old(files)[name := old(files)[name] + buffer[..n]]
    {
      n :| n <= |buffer|;
      err := *;
      failures := failures + if err.Some? || n < |buffer| then 1 else 0;
      files := files[name := files[name] + buffer[..n]];
    }

    /**
     The file gains exactly the first bytes of the source; no error means all of them. There is an error exactly when
     the context was canceled, or a read or a write failed.
     */
    method CopyWithContext(name: Name, src: Bytes) returns (written: nat, err: Option<Error>)
      requires name in files
      modifies this
      ensures failures == old(failures) + if err.Some? then 1 else 0
      ensures name in files && files == old(files)[name := files[name]]
      ensures written <= |src| && files[name] == old(files)[name] + src[..written]
      ensures err.None? ==> written == |src| && files[name] == old(files)[name] + src
    {
      written := 0;
      ghost var before := files[name];
      while true
        invariant written <= |src| && name in files
        invariant files == old(files)[name := files[name]] && files[name] == before + src[..written]
        invariant failures == old(failures)
        decreases |src| - written
      {
        var canceled: bool, readFails: bool := *, *;
        if canceled {
          failures := failures + 1;
          return written, Some(Canceled);
        }
        var nr: nat :| nr <= BUFFER && nr <= |src| - written && (nr == 0 && !readFails ==> written == |src|);
        var start := written;
        if nr > 0 {
          var nw, writeErr := Append(name, src[start..start + nr]);
          written := written + nw;
          assert before + src[..start] + src[start..start + nr][..nw] == before + src[..written];
          if writeErr.Some? {
            return written, writeErr;
          }
          if nw != nr {
            return written, Some(ShortWrite);
          }
        }
        if readFails {
          failures := failures + 1;
          return written, Some(Failed);
        }
        if nr == 0 {
          assert src[..written] == src;
          return written, None;
        }
      }
    }

    /**
     Parts are appended in order; without an error the file holds their concatenation. There is no error exactly when
     nothing fails and no part is missing.
     */
    method CopyParts(name: Name, paths: seq<Name>) returns (total: nat, err: Option<Error>)
      requires name in files && name !in paths && files[name] == []
      modifies this
      ensures name in files && files == old(files)[name := files[name]]
      ensures err.None? ==> Concatenation(old(files), paths) == Some(files[name]) && total == |files[name]|
      ensures failures >= old(failures)
      ensures err.None? <==> failures == old(failures) && Concatenation(old(files), paths).Some?
    {
      total := 0;
      for i := 0 to |paths|
        invariant failures == old(failures)
        invariant name in files && files == old(files)[name := files[name]]
        invariant Concatenation(old(files), paths[..i]) == Some(files[name]) && total == |files[name]|
      {
        var path := paths[i];
        assert paths[..i + 1][..i] == paths[..i];
        if path !in files {
          MissingPart(old(files), paths, i);
          return total, Some(Missing);
        }
        var written;
        written, err := CopyWithContext(name, files[path]);
        total := total + written;
        if err.Some? {
          return;
        }
      }
      assert paths[..|paths|] == paths;
      err := None;
    }

    /** os.Remove with the error ignored. */
    method TryRemove(name: Name) returns (ghost removed: bool)
      modifies this
      ensures files == if removed then old(files) - {name} else old(files)
      ensures failures == old(failures) + if removed then 0 else 1
    {
      var ok: bool := *;
      if ok {
        files := files - {name};
      } else {
        failures := failures + 1;
      }
      removed := ok;
    }

    method FillFile(name: Name, fill: Fill) returns (written: nat, err: Option<Error>)
      requires name in files && files[name] == [] && Avoids(fill, name)
      modifies this
      ensures name in files && files == old(files)[name := files[name]]
      ensures err.None? ==> Content(old(files), fill) == Some(files[name]) && written == |files[name]|
      ensures failures >= old(failures)
      ensures err.None? <==> failures == old(failures) && Content(old(files), fill).Some?
    {
      match fill
      case FromReader(bytes) =>
        written, err := CopyWithContext(name, bytes);
        assert err.None? ==> files[name] == [] + bytes == bytes;
      case FromParts(paths) =>
        written, err := CopyParts(name, paths);
    }

    /**
     The files are left as the failures say. Success puts exactly the source's bytes under the final name and nothing
     under the temporary one, and is what happens exactly when no call fails and no part is missing. An error before
     the rename leaves the final name as it was; when only the sync of the directory fails, the final name holds the
     complete file or nothing.
     */
    method WriteDurably(temp: Name, final: Name, fill: Fill) returns (r: Result<nat, WriteError>, ghost faults: Faults)
      requires Avoids(fill, temp) && Avoids(fill, final)
      modifies this
      ensures Possible(old(files), fill, faults) && files == AfterWrite(old(files), temp, final, faults)
      ensures r.Ok? <==> !Fails(faults)
      ensures r.Ok? <==> failures == old(failures) && Content(old(files), fill).Some?
      ensures r.Ok? ==> Content(old(files), fill) == Some(files[final]) && r.value == |files[final]|
      ensures r.Err? ==> (r.error.NotSynced? <==> Renamed(faults))
      ensures r.Err? && r.error.NotRenamed? && temp != final ==> SameAt(old(files), files, final)
      ensures r.Err? && r.error.NotSynced? && final in files ==> Content(old(files), fill) == Some(files[final])
    {
      var createFails: bool := *;
      if createFails {
        failures := failures + 1;
        faults := CreateFailed;
        return Err(NotRenamed(Failed)), faults;
      }
      ghost var before := files;
      files := files[temp := []];
      if fill.FromParts? {
        ConcatenationElsewhere(before, fill.paths, temp, []);
      }
      var written, err := FillFile(temp, fill);
      ghost var copied := files[temp];
      assert files == before[temp := copied];
      assert files - {temp} == before - {temp};
      var syncFails: bool, renameFails: bool, dirSyncFails: bool := *, *, *;
      if err.None? && (syncFails || renameFails) {
        failures := failures + 1;
        err := Some(Failed);
      }
      if err.Some? {
        var removed := TryRemove(temp);
        faults := RenameFailed(copied, removed);
        return Err(NotRenamed(err.value)), faults;
      }
      files := (files - {temp})[final := files[temp]];
      if dirSyncFails {
        failures := failures + 1;
        var removed := TryRemove(final);
        faults := SyncFailed(copied, removed);
        return Err(NotSynced), faults;
      }
      faults := NoFailure(copied);
      return Ok(written), faults;
    }
  }

  // ---- What a failure does to the final path ----

  /** An error says whether the file had been renamed. */
  datatype WriteError = NotRenamed(error: Error) | NotSynced

  /** Which call failed, what the temporary file held by then, and whether the file was removed afterwards. */
  datatype Faults =
    | NoFailure(copied: Bytes)
    | CreateFailed
    | RenameFailed(copied: Bytes, removed: bool)
    | SyncFailed(copied: Bytes, removed: bool)

  predicate Fails(f: Faults)
  {
    !f.NoFailure?
  }

  predicate Renamed(f: Faults)
  {
    f.NoFailure? || f.SyncFailed?
  }

  /** A file that was renamed is complete. */
  predicate Possible(files: Files, fill: Fill, f: Faults)
  {
    Renamed(f) ==> Content(files, fill) == Some(f.copied)
  }

  function AfterWrite(files: Files, temp: Name, final: Name, f: Faults): Files
  {
    match f
    case NoFailure(copied) => (files - {temp})[final := copied]
    case CreateFailed => files
    case RenameFailed(copied, removed) => if removed then files - {temp} else files[temp := copied]
    case SyncFailed(copied, removed) => if removed then files - {temp} - {final} else (files - {temp})[final := copied]
  }

  predicate SameAt(before: Files, after: Files, name: Name)
  {
    (name in before <==> name in after) && (name in before ==> before[name] == after[name])
  }

  /** Every other file is as it was, and a success or an early failure that cleans up leaves no temporary file. */
  lemma WriteTouchesTwoNames(files: Files, temp: Name, final: Name, f: Faults, name: Name)
    requires name != temp && name != final
    ensures SameAt(files, AfterWrite(files, temp, final, f), name)
    ensures temp != final && (Renamed(f) || (f.RenameFailed? && f.removed)) ==> temp !in AfterWrite(files, temp, final, f)
  {
  }

  /**
   When a failure leaves a final path of its own untouched: always before the rename. When the directory cannot be
   synced, only if there was nothing before and the new file could be removed again, or if the new file stays and
   happens to equal the old one.
   */
  lemma FailureLeavesFinal(files: Files, temp: Name, final: Name, fill: Fill, f: Faults)
    requires temp != final && Possible(files, fill, f) && Fails(f)
    ensures SameAt(files, AfterWrite(files, temp, final, f), final) <==>
              || !Renamed(f)
              || (if f.removed then final !in files else final in files && Some(files[final]) == Content(files, fill))
  {
  }

  /** A fresh final name, such as a UUID, stays free unless the directory sync and then the removal fail. */
  lemma FreshNameIsUntouched(files: Files, temp: Name, final: Name, fill: Fill, f: Faults)
    requires temp != final && final !in files && Possible(files, fill, f) && Fails(f)
    ensures final !in AfterWrite(files, temp, final, f) <==> !(f.SyncFailed? && !f.removed)
  {
  }

  /** An existing file is lost when the sync of its directory fails after the rename. */
  lemma ExistingFileIsLost(temp: Name, final: Name, was: Bytes, next: Bytes)
    requires temp != final
    ensures var before, f := map[final := was], SyncFailed(next, true);
            && Possible(before, FromReader(next), f) && Fails(f)
            && final in before && final !in AfterWrite(before, temp, final, f)
  {
  }
}
