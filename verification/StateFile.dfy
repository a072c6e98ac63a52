/**
 Replacing a state file through a temporary: `_save_posix`. The file system keeps what has
 reached the disk apart from what has not, so that a crash can be placed at every step.
 */
module StateFile {
  import opened Wrappers

  newtype Byte = x: int | 0 <= x < 256
  type Bytes = seq<Byte>
  type Inode = nat

  /** A file's bytes; they survive a crash for certain only once synced. */
  datatype Data = Data(bytes: Bytes, synced: bool)

  /**
   One directory. `names` runs from the entries known to be on disk to the current entries, one
   element for each change since the last directory sync; a crash leaves any one of them.
   */
  datatype Fs = Fs(names: seq<map<string, Inode>>, files: map<Inode, Data>) {
    ghost predicate Ok() {
      && |names| > 0
      && forall k, n :: 0 <= k < |names| && n in names[k] ==> names[k][n] in files
    }

    function Now(): map<string, Inode>
      requires |names| > 0
    {
      names[|names| - 1]
    }

    /** What a reader finds at a path while the system stays up. */
    function Read(path: string): Option<Bytes>
      requires |names| > 0
    {
      if path in Now() && Now()[path] in files then Some(files[Now()[path]].bytes) else None
    }
  }

  function Create(fs: Fs, name: string, inode: Inode): Fs
    requires |fs.names| > 0
  {
    Fs(fs.names + [fs.Now()[name := inode]], fs.files[inode := Data([], false)])
  }

  function Touch(fs: Fs, inode: Inode, data: Data): Fs {
    Fs(fs.names, fs.files[inode := data])
  }

  /** The atomic rename: one change of the directory. */
  function Rename(fs: Fs, from: string, to: string, inode: Inode): Fs
    requires |fs.names| > 0
  {
    Fs(fs.names + [(fs.Now() - {from})[to := inode]], fs.files)
  }

  function Unlink(fs: Fs, name: string): Fs
    requires |fs.names| > 0
  {
    Fs(fs.names + [fs.Now() - {name}], fs.files)
  }

  function SyncDirectory(fs: Fs): Fs
    requires |fs.names| > 0
  {
    Fs([fs.Now()], fs.files)
  }

  /** `c` is a possible content of `path` if the system goes down now. */
  ghost predicate AfterCrash(fs: Fs, path: string, c: Option<Bytes>) {
    exists k :: 0 <= k < |fs.names| && Left(fs, fs.names[k], path, c)
  }

  ghost predicate Left(fs: Fs, entries: map<string, Inode>, path: string, c: Option<Bytes>) {
    if path in entries && entries[path] in fs.files
    then c.Some? && (fs.files[entries[path]].synced ==> c.value == fs.files[entries[path]].bytes)
    else c == None
  }

  /** A crash can leave the same at `path` in `a` and in `b`. */
  ghost predicate SameOutcomes(a: Fs, b: Fs, path: string) {
    forall c :: AfterCrash(b, path, c) <==> AfterCrash(a, path, c)
  }

  /** What a crash can leave at `path` in `b` is what it could in `a`, or exactly the new bytes. */
  ghost predicate OldOrNew(a: Fs, b: Fs, path: string, bytes: Bytes) {
    forall c :: AfterCrash(b, path, c) <==> AfterCrash(a, path, c) || c == Some(bytes)
  }

  /** These are the contents that a crash can leave at `path`. */
  ghost predicate Candidates(fs: Fs, path: string, list: seq<Option<Bytes>>) {
    forall c :: AfterCrash(fs, path, c) <==> c in list
  }

  /** A crash leaves exactly the new bytes. */
  ghost predicate OnlyNew(fs: Fs, path: string, bytes: Bytes) {
    forall c :: AfterCrash(fs, path, c) <==> c == Some(bytes)
  }

  /** The environment's verdict on each fallible call of one save, and the result of each write. */
  datatype Env = Env(
    parentOk: bool, openOk: bool, modeOk: bool, written: nat -> int, fileSyncOk: bool,
    identityOk: bool, replaceOk: bool, recheckOk: bool, directorySyncOk: bool, unlinkOk: bool)
  {
    /** The bytes that the first `n` writes take, if none of them fails. */
    ghost function Taken(n: nat): int {
      if n == 0 then 0 else Taken(n - 1) + written(n - 1)
    }

    /** Some number of writes, none of which fails, takes `size` bytes. */
    ghost predicate Takes(size: nat) {
      exists n: nat :: size <= Taken(n) && forall i :: 0 <= i < n ==> written(i) > 0
    }

    /** Every call up to and including the rename succeeds, on a content of `size` bytes. */
    ghost predicate Replaces(size: nat) {
      parentOk && openOk && modeOk && Takes(size) && fileSyncOk && identityOk && replaceOk
    }
  }

  lemma {:induction false} TakenGrows(env: Env, n: nat, i: nat)
    requires n <= i && forall j :: 0 <= j < i ==> env.written(j) > 0
    ensures env.Taken(n) <= env.Taken(i)
  {
    if n < i {
      TakenGrows(env, n, i - 1);
    }
  }

  /** A write that fails before `size` bytes are taken keeps them from ever being. */
  lemma WriteFails(env: Env, size: nat, i: nat)
    requires env.Taken(i) < size && env.written(i) <= 0 && forall j :: 0 <= j < i ==> env.written(j) > 0
    ensures !env.Takes(size)
  {
    forall n: nat | forall j :: 0 <= j < n ==> env.written(j) > 0 ensures env.Taken(n) < size {
      TakenGrows(env, n, i);
    }
  }

  class StateDirectory {
    const path: string
    var fs: Fs
    /** Every state the directory went through. */
    ghost var trace: seq<Fs>

    constructor (path: string, fs: Fs)
      requires fs.Ok()
      ensures this.path == path && this.fs == fs && trace == []
    {
      this.path := path;
      this.fs := fs;
      trace := [];
    }

    method Step(next: Fs)
      modifies this
      ensures fs == next && trace == old(trace) + [next]
    {
      fs := next;
      trace := trace + [next];
    }

    /**
     `_save_posix`. `temporary` is the random name drawn for this save, `inode` the file it creates. It
     returns exactly when every call succeeds, and raises after the rename exactly when only the check or the
     directory sync after it fails. A crash in any state passed through leaves what it could have left before,
     or exactly the new bytes.
     */
    method Save(encoded: Bytes, temporary: string, inode: Inode, env: Env) returns (outcome: SaveOutcome)
      requires fs.Ok() && temporary != path && inode !in fs.files
      modifies this
      ensures fs.Ok() && old(trace) <= trace && fs == (if trace == old(trace) then old(fs) else trace[|trace| - 1])
      ensures forall t :: |old(trace)| <= t < |trace| ==>
                || SameOutcomes(old(fs), trace[t], path) || OldOrNew(old(fs), trace[t], path, encoded)
                || OnlyNew(trace[t], path, encoded)
      ensures outcome != FailedBefore <==> temporary !in old(fs).Now() && env.Replaces(|encoded|)
      ensures outcome == Saved <==>
                temporary !in old(fs).Now() && env.Replaces(|encoded|) && env.recheckOk && env.directorySyncOk
      ensures outcome == Saved ==> OnlyNew(fs, path, encoded)
      ensures outcome == FailedAfter ==> OldOrNew(old(fs), fs, path, encoded)
      ensures outcome == FailedBefore ==> fs.Read(path) == old(fs).Read(path) && SameOutcomes(old(fs), fs, path)
      ensures outcome != FailedBefore ==>
                fs.Read(path) == Some(encoded) && fs.Now() == old(fs).Now()[path := inode]
      ensures outcome == FailedBefore && env.unlinkOk ==> fs.Now() == old(fs).Now()
      ensures forall list :: Candidates(old(fs), path, list) ==>
                Candidates(fs, path, AfterSave(list, Some(encoded), outcome))
    {
      var created, ready := Prepare(encoded, temporary, inode, env);
      if ready {
        ReplaceAdds(fs, path, temporary, inode, encoded);
        Step(Rename(fs, temporary, path, inode));
        if !env.recheckOk || !env.directorySyncOk {
          return FailedAfter;
        }
        Step(SyncDirectory(fs));
        return Saved;
      }
      if created && env.unlinkOk {
        UnlinkPreserves(fs, path, temporary);
        Step(Unlink(fs, temporary));
      }
      return FailedBefore;
    }

    /** Everything up to the rename: the temporary file is created, written in full, and synced. */
    method Prepare(encoded: Bytes, temporary: string, inode: Inode, env: Env) returns (created: bool, ready: bool)
      requires fs.Ok() && temporary != path && inode !in fs.files
      modifies this
      ensures fs.Ok() && old(trace) <= trace && fs == (if trace == old(trace) then old(fs) else trace[|trace| - 1])
      ensures forall t :: |old(trace)| <= t < |trace| ==> SameOutcomes(old(fs), trace[t], path)
      ensures SameOutcomes(old(fs), fs, path) && fs.Read(path) == old(fs).Read(path)
      ensures ready <==> temporary !in old(fs).Now() && env.Replaces(|encoded|)
      ensures ready ==> created && inode in fs.files && fs.files[inode] == Data(encoded, true)
      ensures created ==> temporary !in old(fs).Now() && fs.Now() == old(fs).Now()[temporary := inode]
      ensures !created ==> fs == old(fs)
    {
      if !env.parentOk || !env.openOk || temporary in fs.Now() {
        return false, false;
      }
      CreatePreserves(fs, path, temporary, inode);
      Step(Create(fs, temporary, inode));
      if !env.modeOk {
        return true, false;
      }
      var written := WriteAll(encoded, inode, env);
      if !written || !env.fileSyncOk {
        return true, false;
      }
      TouchPreserves(fs, path, inode, Data(encoded, true));
      Step(Touch(fs, inode, Data(encoded, true)));
      return true, env.identityOk && env.replaceOk;
    }

    /**
     The partial-write loop: every byte of `encoded` reaches the temporary file, in order, unless a write
     fails before the last of them is taken.
     */
    method WriteAll(encoded: Bytes, inode: Inode, env: Env) returns (ok: bool)
      requires fs.Ok() && inode in fs.files && fs.files[inode] == Data([], false) && Unused(fs, path, inode)
      modifies this
      ensures fs.Ok() && old(trace) <= trace && fs == (if trace == old(trace) then old(fs) else trace[|trace| - 1])
      ensures inode in fs.files && Unused(fs, path, inode)
      ensures SameOutcomes(old(fs), fs, path) && fs.Read(path) == old(fs).Read(path)
      ensures forall t :: |old(trace)| <= t < |trace| ==> SameOutcomes(old(fs), trace[t], path)
      ensures fs.names == old(fs).names
      ensures ok <==> env.Takes(|encoded|)
      ensures ok ==> fs.files[inode] == Data(encoded, false)
    {
      var remaining := encoded;
      var i := 0;
      while |remaining| > 0
        invariant fs.Ok() && old(trace) <= trace && inode in fs.files && Unused(fs, path, inode)
        invariant fs == (if trace == old(trace) then old(fs) else trace[|trace| - 1])
        invariant fs.names == old(fs).names
        invariant SameOutcomes(old(fs), fs, path) && fs.Read(path) == old(fs).Read(path)
        invariant forall t :: |old(trace)| <= t < |trace| ==> SameOutcomes(old(fs), trace[t], path)
        invariant |remaining| <= |encoded| && remaining == encoded[|encoded| - |remaining|..]
        invariant fs.files[inode] == Data(encoded[..|encoded| - |remaining|], false)
        invariant forall j :: 0 <= j < i ==> env.written(j) > 0
        invariant |remaining| > 0 ==> env.Taken(i) == |encoded| - |remaining|
        invariant |remaining| == 0 ==> |encoded| <= env.Taken(i)
      {
        var written := env.written(i);
        if written <= 0 {
          WriteFails(env, |encoded|, i);
          return false;
        }
        var n := if written <= |remaining| then written else |remaining|;
        var done := fs.files[inode].bytes + remaining[..n];
        assert done == encoded[..|encoded| - |remaining[n..]|];
        TouchPreserves(fs, path, inode, Data(done, false));
        Step(Touch(fs, inode, Data(done, false)));
        remaining := remaining[n..];
        i := i + 1;
      }
      return true;
    }
  }

  /** No entry for `path` that a crash can leave names this file. */
  ghost predicate Unused(fs: Fs, path: string, inode: Inode) {
    forall k :: 0 <= k < |fs.names| && path in fs.names[k] ==> fs.names[k][path] != inode
  }

  lemma CreatePreserves(fs: Fs, path: string, name: string, inode: Inode)
    requires fs.Ok() && inode !in fs.files && name != path
    ensures Create(fs, name, inode).Ok()
    ensures SameOutcomes(fs, Create(fs, name, inode), path) && Unused(Create(fs, name, inode), path, inode)
    ensures Create(fs, name, inode).Read(path) == fs.Read(path)
  {
    var next := Create(fs, name, inode);
    forall c | AfterCrash(next, path, c) ensures AfterCrash(fs, path, c) {
      var k :| 0 <= k < |next.names| && Left(next, next.names[k], path, c);
      var j := if k < |fs.names| then k else |fs.names| - 1;
      assert Left(fs, fs.names[j], path, c);
    }
    forall c | AfterCrash(fs, path, c) ensures AfterCrash(next, path, c) {
      var k :| 0 <= k < |fs.names| && Left(fs, fs.names[k], path, c);
      assert Left(next, next.names[k], path, c);
    }
  }

  lemma TouchPreserves(fs: Fs, path: string, inode: Inode, data: Data)
    requires fs.Ok() && inode in fs.files && Unused(fs, path, inode)
    ensures Touch(fs, inode, data).Ok()
    ensures SameOutcomes(fs, Touch(fs, inode, data), path) && Unused(Touch(fs, inode, data), path, inode)
    ensures Touch(fs, inode, data).Read(path) == fs.Read(path)
  {
    var next := Touch(fs, inode, data);
    forall c | AfterCrash(next, path, c) ensures AfterCrash(fs, path, c) {
      var k :| 0 <= k < |next.names| && Left(next, next.names[k], path, c);
      assert Left(fs, fs.names[k], path, c);
    }
    forall c | AfterCrash(fs, path, c) ensures AfterCrash(next, path, c) {
      var k :| 0 <= k < |fs.names| && Left(fs, fs.names[k], path, c);
      assert Left(next, next.names[k], path, c);
    }
  }

  lemma ReplaceAdds(fs: Fs, path: string, name: string, inode: Inode, bytes: Bytes)
    requires fs.Ok() && inode in fs.files && fs.files[inode] == Data(bytes, true) && name != path
    ensures Rename(fs, name, path, inode).Ok() && Rename(fs, name, path, inode).Read(path) == Some(bytes)
    ensures OldOrNew(fs, Rename(fs, name, path, inode), path, bytes)
    ensures OnlyNew(SyncDirectory(Rename(fs, name, path, inode)), path, bytes)
  {
    var next := Rename(fs, name, path, inode);
    forall c | AfterCrash(next, path, c) ensures AfterCrash(fs, path, c) || c == Some(bytes) {
      var k :| 0 <= k < |next.names| && Left(next, next.names[k], path, c);
      assert k < |fs.names| ==> Left(fs, fs.names[k], path, c);
    }
    forall c | AfterCrash(fs, path, c) ensures AfterCrash(next, path, c) {
      var k :| 0 <= k < |fs.names| && Left(fs, fs.names[k], path, c);
      assert Left(next, next.names[k], path, c);
    }
    assert Left(next, next.names[|fs.names|], path, Some(bytes));
    var last := SyncDirectory(next);
    assert Left(last, last.names[0], path, Some(bytes));
  }

  lemma UnlinkPreserves(fs: Fs, path: string, name: string)
    requires fs.Ok() && name != path
    ensures Unlink(fs, name).Ok() && SameOutcomes(fs, Unlink(fs, name), path)
    ensures Unlink(fs, name).Read(path) == fs.Read(path)
  {
    var next := Unlink(fs, name);
    forall c | AfterCrash(next, path, c) ensures AfterCrash(fs, path, c) {
      var k :| 0 <= k < |next.names| && Left(next, next.names[k], path, c);
      var j := if k < |fs.names| then k else |fs.names| - 1;
      assert Left(fs, fs.names[j], path, c);
    }
    forall c | AfterCrash(fs, path, c) ensures AfterCrash(next, path, c) {
      var k :| 0 <= k < |fs.names| && Left(fs, fs.names[k], path, c);
      assert Left(next, next.names[k], path, c);
    }
  }
}
