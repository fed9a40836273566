/** The methods of storage.Local on a live file system (internal/storage/local.go), undisturbed by other
    writers, with any system call failing. */
module LocalBackend {
  import opened Foundation
  import opened Paths

  /** Which calls of one Put fail; copyAfter stops io.Copy once at least so many bytes are written. */
  datatype Faults = Faults(stat: bool, mkdir: bool, create: bool, copyAfter: Option<nat>, close: bool, rename: bool, remove: bool)
  {
    predicate CopyFails(size: nat) { copyAfter.Some? && copyAfter.value <= size }
    predicate Any(size: nat) { mkdir || create || CopyFails(size) || close || rename }
  }

  datatype GetResult = Artifact(bytes: Bytes) | NotFound | OpenFailed

  const CHUNK: nat := 32 * 1024

  /** The artifact that the files hold for a key. */
  function Lookup(base: string, files: map<string, Bytes>, key: string): Option<Bytes>
    requires base != ""
  {
    if PathOf(base, key) in files then Some(files[PathOf(base, key)]) else None
  }

  class Local {
    const baseDir: string
    var files: map<string, Bytes>

    constructor (baseDir: string, files: map<string, Bytes>)
      ensures this.baseDir == baseDir && this.files == files
    {
      this.baseDir := baseDir;
      this.files := files;
    }

    method Get(checksum: string, openFails: bool) returns (r: GetResult)
      requires baseDir != ""
      ensures r == if PathOf(baseDir, checksum) !in files then NotFound
                   else if openFails then OpenFailed else Artifact(files[PathOf(baseDir, checksum)])
    {
      var path := PathOf(baseDir, checksum);
      if path !in files {
        return NotFound;
      }
      if openFails {
        return OpenFailed;
      }
      r := Artifact(files[path]);
    }

    /** A Stat that fails for another reason than a missing file is an error. */
    method Exists(checksum: string, statFails: bool) returns (ok: bool, there: bool)
      requires baseDir != ""
      ensures ok == !statFails && there == (ok && Lookup(baseDir, files, checksum).Some?)
    {
      ok := !statFails;
      there := ok && PathOf(baseDir, checksum) in files;
    }

    /** Removing what is not there succeeds. */
    method Delete(checksum: string, removeFails: bool) returns (ok: bool)
      requires baseDir != "" && ArtifactKey(checksum)
      modifies this`files
      ensures ok == (!removeFails || PathOf(baseDir, checksum) !in old(files))
      ensures ok ==> Lookup(baseDir, files, checksum) == None
      ensures !ok ==> files == old(files)
      ensures forall d :: ArtifactKey(d) && d != checksum ==> Lookup(baseDir, files, d) == Lookup(baseDir, old(files), d)
    {
      var path := PathOf(baseDir, checksum);
      forall d | ArtifactKey(d) && d != checksum ensures PathOf(baseDir, d) != path { FilesAreApart(baseDir, checksum, d); }
      if path !in files {
        return true;
      }
      if removeFails {
        return false;
      }
      files := files - {path};
      ok := true;
    }

    method RemoveTmp(tmp: string, fails: bool)
      modifies this`files
      ensures files == if fails then old(files) else old(files) - {tmp}
    {
      if !fails { files := files - {tmp}; }
    }

    method Put(checksum: string, data: Bytes, f: Faults) returns (ok: bool)
      requires baseDir != "" && ArtifactKey(checksum)
      modifies this`files
      ensures ok == ((!f.stat && Lookup(baseDir, old(files), checksum).Some?) || !f.Any(|data|))
      ensures ok ==> Lookup(baseDir, files, checksum)
                     == if !f.stat && Lookup(baseDir, old(files), checksum).Some?
                        then Lookup(baseDir, old(files), checksum) else Some(data)
      ensures ok && (f.stat || Lookup(baseDir, old(files), checksum) == None) ==> TmpOf(baseDir, checksum) !in files
      ensures !ok ==> Lookup(baseDir, files, checksum) == Lookup(baseDir, old(files), checksum)
      ensures (f.mkdir || f.create) && (f.stat || Lookup(baseDir, old(files), checksum) == None) ==> !ok && files == old(files)
      ensures !ok && !f.remove && TmpOf(baseDir, checksum) !in old(files) ==> files == old(files)
      ensures forall d :: ArtifactKey(d) && d != checksum ==>
                Lookup(baseDir, files, d) == Lookup(baseDir, old(files), d)
                && (TmpOf(baseDir, d) in files <==> TmpOf(baseDir, d) in old(files))
    {
      var path := PathOf(baseDir, checksum);
      var tmp := path + ".tmp";
      forall d | ArtifactKey(d)
        ensures PathOf(baseDir, d) != tmp && TmpOf(baseDir, d) != path
        ensures d != checksum ==> PathOf(baseDir, d) != path && TmpOf(baseDir, d) != tmp
      {
        FilesAreApart(baseDir, checksum, d);
        FilesAreApart(baseDir, d, checksum);
      }
      if !f.stat && path in files {
        return true;
      }
      if f.mkdir || f.create {
        return false;
      }
      files := files[tmp := []];
      var n := 0;
      while n < |data|
        invariant 0 <= n <= |data| && files == old(files)[tmp := data[..n]]
      {
        if f.CopyFails(n) {
          RemoveTmp(tmp, f.remove);
          return false;
        }
        var m := if |data| - n < CHUNK then |data| else n + CHUNK;
        files := files[tmp := data[..m]];
        n := m;
      }
      assert data[..|data|] == data;
      if f.CopyFails(n) || f.close || f.rename {
        RemoveTmp(tmp, f.remove);
        return false;
      }
      files := (files - {tmp})[path := files[tmp]];
      ok := true;
    }

    /** The backend keeps what it was given: after a Put that succeeds, Exists finds the artifact and Get
        returns it, which is the first one stored under this key unless the Stat of the Put failed. After one
        that fails, both answer as they would have before. */
    method PutThenGet(checksum: string, data: Bytes, f: Faults) returns (ok: bool, there: bool, r: GetResult)
      requires baseDir != "" && ArtifactKey(checksum)
      modifies this`files
      ensures ok == ((!f.stat && Lookup(baseDir, old(files), checksum).Some?) || !f.Any(|data|))
      ensures var before := Lookup(baseDir, old(files), checksum);
              var after := if ok && (f.stat || before == None) then Some(data) else before;
              there == after.Some? && r == if after.Some? then Artifact(after.value) else NotFound
    {
      var checked;
      ok := Put(checksum, data, f);
      checked, there := Exists(checksum, false);
      r := Get(checksum, false);
    }
  }
}
