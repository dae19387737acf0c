/** The configuration the program really runs with: its own paths, metadata files and lock keys. */
module Deployment {
  import opened Basics
  import opened Protocol
  import Hex
  import Paths
  import MetadataText

  /** LZ4 as the server uses it: compressData, which may return an error, and decompressData. */
  datatype Codec = Codec(compress: Bytes -> Option<Blob>, decompress: Bytes -> Option<Blob>)

  /** Which calls of the environment may fail. */
  datatype Faults = Faults(lock: bool, meta: bool, read: bool, compress: bool)

  function PathOf(dir: string, id: ActionID): string {
    if id == [] then "" else Paths.Path(dir, id)
  }

  function RealConfig(dir: string, lz4: Codec, compression: bool, mode: RemoteMode, lockName: string -> string,
                      faults: Faults): Config {
    Config(id => PathOf(dir, id), m => MetadataText.Format(m), b => MetadataText.ParseBytes(b), lz4.compress,
        lz4.decompress,
           id => lockName(Hex.Encode(id)), compression, mode, faults.lock, faults.meta, faults.read, faults.compress)
  }

  /** The program's own metadata files meet what the proofs about runs ask of them, whatever the compressor. */
  lemma RealConfigIsSound(dir: string, lz4: Codec, compression: bool, mode: RemoteMode, lockName: string -> string,
                          faults: Faults)
    ensures Sound(RealConfig(dir, lz4, compression, mode, lockName, faults))
  {
    var cfg := RealConfig(dir, lz4, compression, mode, lockName, faults);
    forall m: Metadata ensures cfg.parse(cfg.format(m)) == if m.outputID == [] then None else Some(m) {
      MetadataText.FileRoundTrip(m);
    }
    hide MetadataText.Format;
    hide MetadataText.ParseBytes;
  }

  /** With one mutex or lock file per key, handlers of different action IDs take different locks. */
  lemma OwnLockPerAction(dir: string, lz4: Codec, compression: bool, mode: RemoteMode, faults: Faults, a: ActionID,
                         b: ActionID)
    requires var cfg := RealConfig(dir, lz4, compression, mode, s => s, faults); cfg.lockName(a) == cfg.lockName(b)
    ensures a == b
  {
    Hex.Injective(a, b);
  }

  /** The lock file of a key (fslock.go:48-50); `hash` is SHA-256. */
  function LockPath(lockDir: string, hash: string -> Bytes, key: string): string {
    lockDir + "/" + Hex.Encode(hash(key)) + ".lock"
  }

  /** Action IDs share a lock file exactly when the hashes of their keys collide. */
  lemma SharedLockIsCollision(lockDir: string, hash: string -> Bytes, a: ActionID, b: ActionID)
    ensures LockPath(lockDir, hash, Hex.Encode(a)) == LockPath(lockDir, hash, Hex.Encode(b))
      <==> hash(Hex.Encode(a)) == hash(Hex.Encode(b))
  {
    var ha, hb := hash(Hex.Encode(a)), hash(Hex.Encode(b));
    var p := lockDir + "/";
    var x, y := p + Hex.Encode(ha) + ".lock", p + Hex.Encode(hb) + ".lock";
    assert x[|p|..|x| - 5] == Hex.Encode(ha) && y[|p|..|y| - 5] == Hex.Encode(hb);
    if x == y {
      Hex.Injective(ha, hb);
    }
  }

  // ---------------------------------------------------------------- the assumption on LZ4

  /** A compressor in the manner of LZ4 frames: a magic number in front, and an error when the result gets too long. */
  const MAGIC: Bytes := [4, 34, 77, 24]

  function AddMagic(b: Bytes): Option<Blob> {
    if |b| + |MAGIC| < 0x8000_0000_0000_0000 then Some(MAGIC + b) else None
  }

  function DropMagic(c: Bytes): Option<Blob> {
    if |c| >= |MAGIC| && c[..|MAGIC|] == MAGIC && |c| < 0x8000_0000_0000_0000 then Some(c[|MAGIC|..]) else None
  }

  const FRAMES := Codec(b => AddMagic(b), c => DropMagic(c))

  /** The assumption on LZ4 can be met by a codec that adds a header, and that takes every body that fits in memory. */
  lemma FramesAreLossless(dir: string, compression: bool, mode: RemoteMode, lockName: string -> string, faults: Faults)
    ensures Lossless(RealConfig(dir, FRAMES, compression, mode, lockName, faults))
    ensures forall b: Bytes :: |b| < 0x4000_0000_0000_0000 ==>
      FRAMES.compress(b).Some? && |FRAMES.compress(b).value| > |b|
  {
    forall b: Bytes | AddMagic(b).Some?
      ensures DropMagic(AddMagic(b).value) == Some(b)
    {
      assert (MAGIC + b)[|MAGIC|..] == b && (MAGIC + b)[..|MAGIC|] == MAGIC;
    }
  }
}
