/**
 * lib/protocol/2.0/index.js: the `NFS` object with its wire constants, the procedure
 * enumeration `NFS.PROC` and the `DirOp` record.
 */
module Nfs {
  import opened Common
  import opened Names
  import NfsFile

  const PROGRAM: int := 100003
  const VERSION: int := 2
  const FHSIZE: int := 32
  const COOKIESIZE: int := 4
  const MAXNAMELEN: int := 255
  const MAXPATHLEN: int := 1024
  const MAXDATA: int := 8192

  /** The procedures in the order of their numbers. */
  const PROCS: seq<Proc> := [
    NULL, GETATTR, SETATTR, ROOT, LOOKUP, READLINK, READ, WRITECACHE, WRITE,
    CREATE, REMOVE, RENAME, LINK, SYMLINK, MKDIR, RMDIR, READDIR, STATFS]

  /** `NFS.PROC`: the numbers 0..17, in the order of `PROCS`. */
  function ProcNumber(p: Proc): (n: int)
    ensures 0 <= n < |PROCS| && PROCS[n] == p
  {
    match p
    case NULL => 0
    case GETATTR => 1
    case SETATTR => 2
    case ROOT => 3
    case LOOKUP => 4
    case READLINK => 5
    case READ => 6
    case WRITECACHE => 7
    case WRITE => 8
    case CREATE => 9
    case REMOVE => 10
    case RENAME => 11
    case LINK => 12
    case SYMLINK => 13
    case MKDIR => 14
    case RMDIR => 15
    case READDIR => 16
    case STATFS => 17
  }

  /** The procedure a number stands for, if any. */
  function ProcOf(n: int): (r: Option<Proc>)
    ensures r.Some? <==> 0 <= n < 18
    ensures r.Some? ==> ProcNumber(r.value) == n
  {
    if 0 <= n < |PROCS| then Some(PROCS[n]) else None
  }

  /** The numbers are 0..17, one per procedure, and `ProcOf` inverts `ProcNumber`. */
  lemma ProcNumbersBijective()
    ensures forall p :: 0 <= ProcNumber(p) < 18 && ProcOf(ProcNumber(p)) == Some(p)
    ensures forall p, q | ProcNumber(p) == ProcNumber(q) :: p == q
  {
  }

  /** An `NFS` instance; the constructor's `options` argument is not used. */
  datatype Instance = Instance(version: int)

  /** `NFS(options)`. */
  function New(): (nfs: Instance)
    ensures nfs.version == VERSION == 2
  {
    Instance(VERSION)
  }

  /** `NFS.DirOp`: a file handle and a file name. */
  datatype DirOp = DirOp(fhandle: NfsFile.Handle, filename: string)

  /** `new NFS.DirOp()`: an empty name and a handle made without an argument. */
  function NewDirOp(): (d: DirOp)
    ensures d.filename == ""
    ensures d.fhandle == NfsFile.NewHandle(None) && d.fhandle.buffer.None?
  {
    DirOp(NfsFile.NewHandle(None), "")
  }
}
