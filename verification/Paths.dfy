/**
  Where an action's four files live (localcache.go:244-258), and why the disk may be thought of as one View per action
  ID: no two (action, file kind) pairs share a path, so a system call on one path shows in one View only.
 */
module Paths {
  import opened Basics
  import opened Disk
  import opened Text
  import Hex

  function Root(dir: string): string {
    if dir == "/" then "" else dir
  }

  /** The data file of a non-empty action ID, in a cache directory that is an absolute, clean path. */
  function Path(dir: string, id: ActionID): string
    requires id != []
  {
    HexHasNoDot(id);
    var hex := Hex.Encode(id);
    Root(dir) + "/" + hex[..2] + "/v2" + hex
  }

  function Suffix(k: Kind): string {
    match k
    case Data => ""
    case DataTmp => ".tmp"
    case Meta => ".meta"
    case MetaTmp => ".meta.tmp"
  }

  function FilePath(dir: string, id: ActionID, k: Kind): string
    requires id != []
  {
    Path(dir, id) + Suffix(k)
  }

  predicate Extension(s: string) {
    s == "" || s[0] == '.'
  }

  /** A name without dots and the extension after it can be told apart. */
  lemma {:induction false} SplitExtension(a: string, b: string, x: string, y: string)
    requires '.' !in a && '.' !in b && Extension(x) && Extension(y) && a + x == b + y
    ensures a == b && x == y
  {
    assert a == "" ==> a + x == x;
    assert b == "" ==> b + y == y;
    assert a != "" ==> a[0] in a && (a + x)[0] == a[0] && (a + x)[1..] == a[1..] + x;
    assert b != "" ==> b[0] in b && (b + y)[0] == b[0] && (b + y)[1..] == b[1..] + y;
    if a != "" && b != "" {
      SplitExtension(a[1..], b[1..], x, y);
      assert a == [a[0]] + a[1..] && b == [b[0]] + b[1..];
    }
  }

  lemma SuffixInjective(j: Kind, k: Kind)
    ensures Extension(Suffix(j)) && (Suffix(j) == Suffix(k) ==> j == k)
  {
    assert |Suffix(j)| == |Suffix(k)| ==> j == k;
  }

  lemma HexHasNoDot(id: ActionID)
    ensures '.' !in Hex.Encode(id) && |Hex.Encode(id)| == 2 * |id|
  {
    Hex.Encoded(id);
    var s := Hex.Encode(id);
    forall i | 0 <= i < |s| ensures s[i] != '.' {
      assert Hex.IsHexDigit(s[i]);
    }
  }

  /** The last component of a path, after the format version. */
  lemma LastPart(dir: string, id: ActionID, k: Kind)
    requires id != []
    ensures |FilePath(dir, id, k)| >= |Root(dir)| + 6
    ensures FilePath(dir, id, k)[|Root(dir)| + 6..] == Hex.Encode(id) + Suffix(k)
  {
    HexHasNoDot(id);
    var hex := Hex.Encode(id);
    var stem := Root(dir) + "/" + hex[..2] + "/v2";
    assert |stem| == |Root(dir)| + 6;
    assert FilePath(dir, id, k) == stem + (hex + Suffix(k));
  }

  /** The four paths of every action ID are distinct from each other and from those of every other action ID. */
  lemma FilePathInjective(dir: string, a: ActionID, j: Kind, b: ActionID, k: Kind)
    requires a != [] && b != [] && FilePath(dir, a, j) == FilePath(dir, b, k)
    ensures a == b && j == k
  {
    LastPart(dir, a, j);
    LastPart(dir, b, k);
    hide FilePath;
    HexHasNoDot(a);
    HexHasNoDot(b);
    SuffixInjective(j, k);
    SuffixInjective(k, j);
    hide Suffix;
    SplitExtension(Hex.Encode(a), Hex.Encode(b), Suffix(j), Suffix(k));
    Hex.Injective(a, b);
  }

  /** One of the 256 directories that newLocalCache makes (localcache.go:50-66). */
  function Directory(dir: string, i: byte): string {
    (if dir == "/" then "" else dir) + "/" + ["0123456789abcdef"[i / 16], "0123456789abcdef"[i % 16]]
  }

  /**
    The files of an action are in the directory named after its first byte, which newLocalCache has made; the file
    name is the format version, the action ID in hexadecimal, and a suffix that says what the file is for.
   */
  lemma FilePathIs(dir: string, id: ActionID, k: Kind)
    requires id != []
    ensures FilePath(dir, id, k) == Directory(dir, id[0]) + "/v2" + Hex.Encode(id) +
      match k
      case Data => ""
      case DataTmp => ".tmp"
      case Meta => ".meta"
      case MetaTmp => ".meta.tmp"
    ensures '/' !in Hex.Encode(id) + Suffix(k)
  {
    Hex.EncodedAt(id, 0);
    NoSlash(id, k);
    hide Hex.Encode;
    assert Hex.Encode(id)[..2] == ["0123456789abcdef"[id[0] / 16], "0123456789abcdef"[id[0] % 16]];
  }

  lemma NoSlash(id: ActionID, k: Kind)
    ensures '/' !in Hex.Encode(id) + Suffix(k)
  {
    Hex.Encoded(id);
    var name := Hex.Encode(id) + Suffix(k);
    assert '/' !in Suffix(k);
    hide Suffix;
    forall i | 0 <= i < |name| ensures name[i] != '/' {
      assert i < |Hex.Encode(id)| ==> Hex.IsHexDigit(Hex.Encode(id)[i]);
    }
  }

  // ---------------------------------------------------------------- a disk of plain paths

  type FlatFiles = map<string, Bytes>

  function ViewAt(fs: FlatFiles, dir: string, id: ActionID): View
    requires id != []
  {
    View(Get(fs, FilePath(dir, id, Data)), Get(fs, FilePath(dir, id, DataTmp)),
         Get(fs, FilePath(dir, id, Meta)), Get(fs, FilePath(dir, id, MetaTmp)))
  }

  function Renamed(fs: FlatFiles, src: string, dst: string): FlatFiles {
    if src in fs then (fs - {src})[dst := fs[src]] else fs
  }

  /** The system call behind `op` on the files of `id`. */
  function Call(fs: FlatFiles, dir: string, id: ActionID, op: FsOp): FlatFiles
    requires id != []
  {
    match op
    case Nop => fs
    case WriteFile(k, c) => fs[FilePath(dir, id, k) := c]
    case RenameFile(a, b) => Renamed(fs, FilePath(dir, id, a), FilePath(dir, id, b))
    case RemoveFile(k) => fs - {FilePath(dir, id, k)}
  }

  lemma SlotAt(fs: FlatFiles, dir: string, id: ActionID, k: Kind)
    requires id != []
    ensures ViewAt(fs, dir, id).Slot(k) == Get(fs, FilePath(dir, id, k))
  {
    hide FilePath;
  }

  /** Two views with the same files are equal. */
  lemma SameSlots(v: View, w: View)
    requires forall k: Kind :: v.Slot(k) == w.Slot(k)
    ensures v == w
  {
    assert v.Slot(Data) == w.Slot(Data) && v.Slot(DataTmp) == w.Slot(DataTmp);
    assert v.Slot(Meta) == w.Slot(Meta) && v.Slot(MetaTmp) == w.Slot(MetaTmp);
  }

  lemma WithSlot(v: View, k: Kind, c: Option<Bytes>, j: Kind)
    ensures v.With(k, c).Slot(j) == if j == k then c else v.Slot(j)
  {
  }

  /** The contents of one file after a system call on the files of the same action ID. */
  function SlotAfter(v: View, op: FsOp, k: Kind): Option<Bytes> {
    match op
    case Nop => v.Slot(k)
    case WriteFile(j, c) => if k == j then Some(c) else v.Slot(k)
    case RenameFile(a, b) =>
      if v.Slot(a).None? then v.Slot(k) else if k == b then v.Slot(a) else if k == a then None else v.Slot(k)
    case RemoveFile(j) => if k == j then None else v.Slot(k)
  }

  lemma ApplySlot(v: View, op: FsOp, k: Kind)
    ensures ApplyView(v, op).Slot(k) == SlotAfter(v, op, k)
  {
    hide View.Slot;
    hide View.With;
    match op
    case Nop =>
    case WriteFile(j, c) => WithSlot(v, j, Some(c), k);
    case RenameFile(a, b) =>
      WithSlot(v, a, None, k);
      WithSlot(v.With(a, None), b, v.Slot(a), k);
    case RemoveFile(j) => WithSlot(v, j, None, k);
  }

  lemma SamePath(dir: string, a: ActionID, j: Kind, b: ActionID, k: Kind)
    requires a != [] && b != []
    ensures FilePath(dir, a, j) == FilePath(dir, b, k) <==> a == b && j == k
  {
    if FilePath(dir, a, j) == FilePath(dir, b, k) {
      FilePathInjective(dir, a, j, b, k);
    }
  }

  lemma RenamedGet(fs: FlatFiles, src: string, dst: string, path: string)
    requires src != dst
    ensures Get(Renamed(fs, src, dst), path) ==
      if src !in fs then Get(fs, path) else if path == dst then Get(fs, src) else if path == src then None else Get(fs,
          path)
  {
  }

  lemma RenameSlot(fs: FlatFiles, dir: string, id: ActionID, src: Kind, dst: Kind, other: ActionID, k: Kind)
    requires id != [] && other != [] && src != dst
    ensures Get(Call(fs, dir, id, RenameFile(src, dst)), FilePath(dir, other, k)) ==
      if other == id then SlotAfter(ViewAt(fs, dir, id), RenameFile(src, dst), k) else Get(fs, FilePath(dir, other, k))
  {
    SamePath(dir, id, src, other, k);
    SamePath(dir, id, dst, other, k);
    SamePath(dir, id, src, id, dst);
    SlotAt(fs, dir, id, k);
    SlotAt(fs, dir, id, src);
    hide FilePath;
    hide ViewAt;
    hide View.Slot;
    hide Renamed;
    RenamedGet(fs, FilePath(dir, id, src), FilePath(dir, id, dst), FilePath(dir, other, k));
  }

  lemma WriteSlot(fs: FlatFiles, dir: string, id: ActionID, j: Kind, c: Bytes, other: ActionID, k: Kind)
    requires id != [] && other != []
    ensures Get(Call(fs, dir, id, WriteFile(j, c)), FilePath(dir, other, k)) ==
      if other == id then SlotAfter(ViewAt(fs, dir, id), WriteFile(j, c), k) else Get(fs, FilePath(dir, other, k))
  {
    SamePath(dir, id, j, other, k);
    SlotAt(fs, dir, id, k);
    hide FilePath;
    hide ViewAt;
    hide View.Slot;
  }

  lemma RemoveSlot(fs: FlatFiles, dir: string, id: ActionID, j: Kind, other: ActionID, k: Kind)
    requires id != [] && other != []
    ensures Get(Call(fs, dir, id, RemoveFile(j)), FilePath(dir, other, k)) ==
      if other == id then SlotAfter(ViewAt(fs, dir, id), RemoveFile(j), k) else Get(fs, FilePath(dir, other, k))
  {
    SamePath(dir, id, j, other, k);
    SlotAt(fs, dir, id, k);
    hide FilePath;
    hide ViewAt;
    hide View.Slot;
  }

  lemma NopSlot(fs: FlatFiles, dir: string, id: ActionID, other: ActionID, k: Kind)
    requires id != [] && other != []
    ensures Get(Call(fs, dir, id, Nop), FilePath(dir, other, k)) ==
      if other == id then SlotAfter(ViewAt(fs, dir, id), Nop, k) else Get(fs, FilePath(dir, other, k))
  {
    SlotAt(fs, dir, id, k);
  }

  /** One file after a system call. */
  lemma CallSlot(fs: FlatFiles, dir: string, id: ActionID, op: FsOp, other: ActionID, k: Kind)
    requires id != [] && other != []
    requires op.RenameFile? ==> op.src != op.dst
    ensures Get(Call(fs, dir, id, op), FilePath(dir, other, k)) ==
      if other == id then SlotAfter(ViewAt(fs, dir, id), op, k) else Get(fs, FilePath(dir, other, k))
  {
    hide Call;
    hide SlotAfter;
    hide FilePath;
    hide ViewAt;
    hide Get;
    match op
    case Nop => NopSlot(fs, dir, id, other, k);
    case WriteFile(j, c) => WriteSlot(fs, dir, id, j, c, other, k);
    case RenameFile(a, b) => RenameSlot(fs, dir, id, a, b, other, k);
    case RemoveFile(j) => RemoveSlot(fs, dir, id, j, other, k);
  }

  /** A system call shows in the View of its own action ID, as ApplyView says, and in no other. */
  lemma CallView(fs: FlatFiles, dir: string, id: ActionID, op: FsOp, other: ActionID)
    requires id != [] && other != [] && (op.RenameFile? ==> op.src != op.dst)
    ensures ViewAt(Call(fs, dir, id, op), dir, other) ==
      if other == id then ApplyView(ViewAt(fs, dir, id), op) else ViewAt(fs, dir, other)
  {
    hide FilePath;
    hide ViewAt;
    hide View.Slot;
    hide SlotAfter;
    hide ApplyView;
    hide Call;
    var w := if other == id then ApplyView(ViewAt(fs, dir, id), op) else ViewAt(fs, dir, other);
    forall k: Kind ensures ViewAt(Call(fs, dir, id, op), dir, other).Slot(k) == w.Slot(k) {
      CallSlot(fs, dir, id, op, other, k);
      ApplySlot(ViewAt(fs, dir, id), op, k);
      SlotAt(Call(fs, dir, id, op), dir, other, k);
      SlotAt(fs, dir, other, k);
    }
    SameSlots(ViewAt(Call(fs, dir, id, op), dir, other), w);
  }

  /** A system call leaves every path alone that belongs to no action's cache files. */
  lemma CallFrame(fs: FlatFiles, dir: string, id: ActionID, op: FsOp, path: string)
    requires id != [] && forall k: Kind :: path != FilePath(dir, id, k)
    ensures Get(Call(fs, dir, id, op), path) == Get(fs, path)
  {
    hide FilePath;
  }

  /** The disk of plain paths holds what the per-action views say. */
  ghost predicate Represents(fs: FlatFiles, dir: string, files: Files) {
    forall id: ActionID :: id != [] ==> ViewAt(fs, dir, id) == At(files, id)
  }

  lemma CallRepresents(fs: FlatFiles, dir: string, files: Files, id: ActionID, op: FsOp)
    requires Represents(fs, dir, files) && id != [] && (op.RenameFile? ==> op.src != op.dst)
    ensures Represents(Call(fs, dir, id, op), dir, if op.Nop? then files else files[id := ApplyView(At(files, id), op)])
  {
    forall other: ActionID | other != []
      ensures ViewAt(Call(fs, dir, id, op), dir, other) ==
        At(if op.Nop? then files else files[id := ApplyView(At(files, id), op)], other)
    {
      CallView(fs, dir, id, op, other);
      assert ViewAt(fs, dir, other) == At(files, other);
    }
  }
}
