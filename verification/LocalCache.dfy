/** localCache over a file system whose every call may fail (localcache.go:79-265). */
module LocalCache {
  import opened Basics
  import opened Disk
  import opened Text
  import opened Protocol
  import opened Paths
  import MetadataText
  import Hex

  /**
    The operating system's file calls; `ok` is false when a call fails. Failures are counted, so that a contract can
    say which outcomes need one.
   */
  class FileSystem {
    var files: FlatFiles
    ghost var failedCalls: nat      // calls that failed, removals aside
    ghost var failedRenames: nat    // those of them that were renames
    ghost var failedRemoves: nat

    constructor (files: FlatFiles)
      ensures this.files == files && failedCalls == failedRenames == failedRemoves == 0
    {
      this.files := files;
      failedCalls, failedRenames, failedRemoves := 0, 0, 0;
    }

    /** os.ReadFile; the second result says that the file is there but could not be read. */
    method ReadFile(path: string) returns (data: Option<Bytes>, failed: bool)
      modifies this`failedCalls
      ensures data == if failed then None else Get(files, path)
      ensures failedCalls == old(failedCalls) + (if failed then 1 else 0)
    {
      failed := *;
      if failed {
        failedCalls := failedCalls + 1;
        return None, true;
      }
      data := Get(files, path);
    }

    /** os.Create */
    method Create(path: string) returns (ok: bool)
      modifies this`files, this`failedCalls
      ensures files == if ok then old(files)[path := []] else old(files)
      ensures failedCalls == old(failedCalls) + (if ok then 0 else 1)
    {
      ok := *;
      if ok {
        files := files[path := []];
      } else {
        failedCalls := failedCalls + 1;
      }
    }

    /** io.Copy into the file just created, and its Close; a failure leaves any part of the content behind. */
    method Copy(path: string, content: Bytes) returns (ok: bool, ghost n: nat)
      requires path in files && files[path] == []
      modifies this`files, this`failedCalls
      ensures n <= |content| && files == old(files)[path := content[..n]] && (ok ==> content[..n] == content)
      ensures failedCalls == old(failedCalls) + (if ok then 0 else 1)
    {
      n := 0;
      assert files[path := []] == files;
      ok := true;
      var i := 0;
      while ok && i < |content|
        invariant i == n <= |content| && files == old(files)[path := content[..i]]
        invariant failedCalls == old(failedCalls)
        decreases |content| - i, ok
      {
        ok := *;
        if ok {
          i, n := i + 1, n + 1;
          files := files[path := content[..i]];
        }
      }
      if ok {
        ok := *;
      }
      if !ok {
        failedCalls := failedCalls + 1;
      }
    }

    /** os.WriteFile */
    method WriteFile(path: string, content: Bytes) returns (ok: bool, ghost n: Option<nat>)
      modifies this`files, this`failedCalls
      ensures failedCalls == old(failedCalls) + (if ok then 0 else 1)
      ensures n.Some? ==> n.value <= |content| && files == old(files)[path := content[..n.value]]
      ensures n.None? ==> files == old(files) && !ok
      ensures ok ==> n.Some? && content[..n.value] == content
    {
      ok := Create(path);
      n := None;
      if ok {
        ghost var k;
        ok, k := Copy(path, content);
        n := Some(k);
      }
    }

    /** os.Rename */
    method Rename(src: string, dst: string) returns (ok: bool)
      modifies this`files, this`failedCalls, this`failedRenames
      ensures failedRenames == old(failedRenames) + (if ok then 0 else 1)
      ensures ok ==> src in old(files)
      ensures files == if ok then Renamed(old(files), src, dst) else old(files)
      ensures failedCalls == old(failedCalls) + (if ok then 0 else 1)
    {
      ok := *;
      ok := ok && src in files;
      if ok {
        files := Renamed(files, src, dst);
      } else {
        failedCalls, failedRenames := failedCalls + 1, failedRenames + 1;
      }
    }

    /** os.Remove */
    method Remove(path: string)
      modifies this`files, this`failedRemoves
      ensures files == if failedRemoves == old(failedRemoves) then old(files) - {path} else old(files)
      ensures failedRemoves == old(failedRemoves) || failedRemoves == old(failedRemoves) + 1
    {
      var ok: bool := *;
      if ok {
        files := files - {path};
      } else {
        failedRemoves := failedRemoves + 1;
      }
    }
  }

  /** Nothing but the four files of `id` differs. */
  ghost predicate OnlyFiles(f: FlatFiles, g: FlatFiles, dir: string, id: ActionID)
    requires id != []
  {
    forall path: string :: Get(g, path) != Get(f, path) ==> exists k: Kind :: path == FilePath(dir, id, k)
  }

  /** So the views of all other action IDs are the same. */
  lemma OtherViews(f: FlatFiles, g: FlatFiles, dir: string, id: ActionID, other: ActionID)
    requires id != [] && other != [] && other != id && OnlyFiles(f, g, dir, id)
    ensures ViewAt(g, dir, other) == ViewAt(f, dir, other)
  {
    forall k: Kind ensures ViewAt(g, dir, other).Slot(k) == ViewAt(f, dir, other).Slot(k) {
      SlotAt(g, dir, other, k);
      SlotAt(f, dir, other, k);
      if Get(g, FilePath(dir, other, k)) != Get(f, FilePath(dir, other, k)) {
        var j: Kind :| FilePath(dir, other, k) == FilePath(dir, id, j);
        FilePathInjective(dir, other, k, id, j);
      }
    }
    SameSlots(ViewAt(g, dir, other), ViewAt(f, dir, other));
  }

  /** One call on the files of `id`, after others on the same files. */
  lemma Then(f: FlatFiles, g: FlatFiles, dir: string, id: ActionID, op: FsOp)
    requires id != [] && (op.RenameFile? ==> op.src != op.dst) && OnlyFiles(f, g, dir, id)
    ensures OnlyFiles(f, Call(g, dir, id, op), dir, id)
    ensures ViewAt(Call(g, dir, id, op), dir, id) == ApplyView(ViewAt(g, dir, id), op)
  {
    CallView(g, dir, id, op, id);
    forall path: string | Get(Call(g, dir, id, op), path) != Get(f, path)
      ensures exists k: Kind :: path == FilePath(dir, id, k)
    {
      if forall k: Kind :: path != FilePath(dir, id, k) {
        CallFrame(g, dir, id, op, path);
      }
    }
  }

  lemma NothingChanged(f: FlatFiles, dir: string, id: ActionID)
    requires id != []
    ensures OnlyFiles(f, f, dir, id)
  {
  }

  lemma DataPath(dir: string, id: ActionID)
    requires id != []
    ensures FilePath(dir, id, Data) == Path(dir, id)
  {
  }

  /** What readMetadata makes of the metadata file. */
  function ReadBack(v: View): Option<Metadata> {
    if v.meta.None? then None else MetadataText.ParseBytes(v.meta.value)
  }

  class Cache {
    const fs: FileSystem
    const cacheDir: string

    constructor (fs: FileSystem, cacheDir: string)
      ensures this.fs == fs && this.cacheDir == cacheDir
    {
      this.fs := fs;
      this.cacheDir := cacheDir;
    }

    ghost function View(id: ActionID): Disk.View
      requires id != []
      reads fs`files
    {
      ViewAt(fs.files, cacheDir, id)
    }

    /** writeMetadata */
    method WriteMetadata(actionID: ActionID, meta: Metadata) returns (ok: bool)
      requires actionID != []
      modifies fs
      ensures OnlyFiles(old(fs.files), fs.files, cacheDir, actionID)
      ensures ok ==> View(actionID) == old(View(actionID)).(meta := Some(MetadataText.Format(meta)), metaTmp := None)
      ensures !ok ==> View(actionID) == old(View(actionID)).(metaTmp := View(actionID).metaTmp)
      ensures fs.failedCalls == old(fs.failedCalls) + (if ok then 0 else 1)
      ensures fs.failedRenames > old(fs.failedRenames) && fs.failedRemoves == old(fs.failedRemoves) ==>
        View(actionID).metaTmp.None?
    {
      hide FilePath;
      hide ViewAt;
      hide OnlyFiles;
      ghost var f := fs.files;
      NothingChanged(f, cacheDir, actionID);
      var metaPath := FilePath(cacheDir, actionID, Kind.Meta);
      var tmpPath := FilePath(cacheDir, actionID, MetaTmp);
      var content := MetadataText.Format(meta);
      ghost var n;
      ok, n := fs.WriteFile(tmpPath, content);
      if n.Some? {
        Then(f, f, cacheDir, actionID, WriteFile(MetaTmp, content[..n.value]));
      }
      if !ok {
        return;
      }
      ghost var g := fs.files;
      Then(f, g, cacheDir, actionID, RenameFile(MetaTmp, Kind.Meta));
      Then(f, g, cacheDir, actionID, RemoveFile(MetaTmp));
      ok := fs.Rename(tmpPath, metaPath);
      if !ok {
        fs.Remove(tmpPath);
      }
    }

    /** readMetadata; `failed` says that the file is there but could not be read. */
    method ReadMetadata(actionID: ActionID) returns (m: Option<Metadata>, failed: bool)
      requires actionID != []
      modifies fs`failedCalls
      ensures fs.failedCalls == old(fs.failedCalls) + (if failed then 1 else 0)
      ensures m == if failed then None else ReadBack(View(actionID))
    {
      var data;
      data, failed := fs.ReadFile(FilePath(cacheDir, actionID, Kind.Meta));
      if data.None? {
        return None, failed;
      }
      var lines := Split(FromBytes(data.value));
      var outputIDHex := "";
      var size: int64 := 0;
      var putTimeUnix: int64 := 0;
      for i := 0 to |lines|
        invariant MetadataText.Fields(outputIDHex, size, putTimeUnix) == MetadataText.ReadLines(lines[..i])
        invariant fs.failedCalls == old(fs.failedCalls)
      {
        assert lines[..i + 1][..i] == lines[..i];
        var line := Trim(lines[i]);
        if HasPrefix(line, "outputID:") {
          var w := MetadataText.ScanWord(line[9..]);
          if w.Some? {
            outputIDHex := w.value;
          }
        } else if HasPrefix(line, "size:") {
          var n := MetadataText.Decimal.Scan(line[5..]);
          if n.Some? {
            size := n.value;
          }
        } else if HasPrefix(line, "time:") {
          var n := MetadataText.Decimal.Scan(line[5..]);
          if n.Some? {
            putTimeUnix := n.value;
          }
        }
      }
      assert lines[..|lines|] == lines;
      if outputIDHex == "" {
        return None, false;
      }
      var outputID := Hex.Decode(outputIDHex);
      if outputID.None? {
        return None, false;
      }
      return Some(Metadata(outputID.value, size, putTimeUnix)), false;
    }

    /** write: the data file appears whole, or not at all. */
    method Write(actionID: ActionID, body: Bytes) returns (path: Option<string>)
      requires actionID != []
      modifies fs
      ensures OnlyFiles(old(fs.files), fs.files, cacheDir, actionID)
      ensures path.Some? ==> path.value == Path(cacheDir, actionID)
      ensures path.Some? ==> View(actionID) == old(View(actionID)).(data := Some(body), dataTmp := None)
      ensures path.None? ==> View(actionID) == old(View(actionID)).(dataTmp := View(actionID).dataTmp)
      ensures fs.failedCalls == old(fs.failedCalls) + (if path.Some? then 0 else 1)
      ensures fs.failedRemoves == old(fs.failedRemoves) ==>
        View(actionID).dataTmp.None? || (path.None? && View(actionID) == old(View(actionID)))
    {
      hide FilePath;
      hide ViewAt;
      hide OnlyFiles;
      ghost var f := fs.files;
      NothingChanged(f, cacheDir, actionID);
      DataPath(cacheDir, actionID);
      var diskPath := Path(cacheDir, actionID);
      var tmpPath := FilePath(cacheDir, actionID, DataTmp);
      var created := fs.Create(tmpPath);
      if !created {
        return None;
      }
      var copied;
      ghost var n;
      copied, n := fs.Copy(tmpPath, body);
      ghost var g := fs.files;
      assert g == Call(f, cacheDir, actionID, WriteFile(DataTmp, body[..n]));
      Then(f, f, cacheDir, actionID, WriteFile(DataTmp, body[..n]));
      if copied {
        Then(f, g, cacheDir, actionID, RenameFile(DataTmp, Data));
        copied := fs.Rename(tmpPath, diskPath);
      }
      Then(f, fs.files, cacheDir, actionID, RemoveFile(DataTmp));
      fs.Remove(tmpPath);
      return if copied then Some(diskPath) else None;
    }

    /** writeWithMetadata; `logged` says that the metadata could not be written, which is only logged. */
    method WriteWithMetadata(actionID: ActionID, body: Bytes, meta: Metadata)
        returns (path: Option<string>, logged: bool)
      requires actionID != []
      modifies fs
      ensures OnlyFiles(old(fs.files), fs.files, cacheDir, actionID)
      ensures path.Some? ==> path.value == Path(cacheDir, actionID)
      ensures path.None? ==> View(actionID) == old(View(actionID)).(dataTmp := View(actionID).dataTmp)
      ensures path.Some? ==> fs.failedCalls == old(fs.failedCalls) + (if logged then 1 else 0)
      ensures path.None? ==> fs.failedCalls == old(fs.failedCalls) + 1
      ensures path.None? && fs.failedRemoves == old(fs.failedRemoves) ==>
        View(actionID).dataTmp.None? || View(actionID) == old(View(actionID))
      ensures path.Some? ==> View(actionID) == old(View(actionID)).(data := Some(body), dataTmp := None,
        meta := if logged then old(View(actionID)).meta else Some(MetadataText.Format(meta)),
        metaTmp := if logged then View(actionID).metaTmp else None)
    {
      hide FilePath;
      hide ViewAt;
      logged := false;
      path := Write(actionID, body);
      if path.None? {
        return;
      }
      var ok := WriteMetadata(actionID, meta);
      logged := !ok;
    }

    /** check: unreadable metadata of any kind is a miss. */
    method Check(actionID: ActionID) returns (m: Option<Metadata>, failed: bool)
      requires actionID != []
      modifies fs`failedCalls
      ensures fs.failedCalls == old(fs.failedCalls) + (if failed then 1 else 0)
      ensures m == if failed then None else ReadBack(View(actionID))
    {
      m, failed := ReadMetadata(actionID);
    }
  }
}
