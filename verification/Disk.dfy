/** The four files a cache entry owns, and the file operations localcache.go performs on them. */
module Disk {
  import opened Basics

  /** Suffixes "", ".tmp", ".meta" and ".meta.tmp" of an action's path. */
  datatype Kind = Data | DataTmp | Meta | MetaTmp

  /** What the disk holds for one action ID. */
  datatype View = View(data: Option<Bytes>, dataTmp: Option<Bytes>, meta: Option<Bytes>, metaTmp: Option<Bytes>) {
    function Slot(k: Kind): Option<Bytes> {
      match k
      case Data => data
      case DataTmp => dataTmp
      case Meta => meta
      case MetaTmp => metaTmp
    }

    function With(k: Kind, c: Option<Bytes>): View {
      match k
      case Data => this.(data := c)
      case DataTmp => this.(dataTmp := c)
      case Meta => this.(meta := c)
      case MetaTmp => this.(metaTmp := c)
    }
  }

  const NO_FILES := View(None, None, None, None)

  /** One system call. A rename replaces its target; renaming or removing a missing file changes nothing. */
  datatype FsOp = Nop | WriteFile(kind: Kind, content: Bytes) | RenameFile(src: Kind,
                                  dst: Kind) | RemoveFile(kind: Kind)

  function ApplyView(v: View, op: FsOp): View {
    match op
    case Nop => v
    case WriteFile(k, c) => v.With(k, Some(c))
    case RenameFile(a, b) => if v.Slot(a).None? then v else v.With(a, None).With(b, v.Slot(a))
    case RemoveFile(k) => v.With(k, None)
  }

  type Files = map<ActionID, View>

  function At(fs: Files, id: ActionID): View {
    if id in fs then fs[id] else NO_FILES
  }
}
