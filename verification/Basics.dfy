/** Values shared by every module: bytes, Go's int64, and Option. */
module Basics {
  datatype Option<+T> = None | Some(value: T)

  type byte = x: int | 0 <= x < 256

  /** A Go byte slice or the contents of a file. */
  type Bytes = seq<byte>

  /** Go's int64. */
  type int64 = x: int | -0x8000_0000_0000_0000 <= x < 0x8000_0000_0000_0000

  /** A byte slice whose length is a Go int, as the result of every slice-producing call is. */
  type Blob = b: Bytes | |b| < 0x8000_0000_0000_0000

  type ActionID = Bytes

  function Get<K, V>(m: map<K, V>, k: K): Option<V> {
    if k in m then Some(m[k]) else None
  }
}
