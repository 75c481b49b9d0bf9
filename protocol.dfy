/**
 * lib/protocol/version-2.0.js: the `Protocol` object, a second rendering of the version 2
 * protocol with its own wire constants, procedure and status enumerations, file types, and
 * record constructors that allocate a real 32-byte handle buffer and leave attributes null.
 */
module Protocol {
  import opened Common
  import opened Names

  const PROGRAM: int := 100003
  const VERSION: int := 2
  const FHSIZE: int := 32
  const COOKIESIZE: int := 4
  const MAXNAMELEN: int := 255
  /** 255 in this module, as written; the other protocol module and RFC 1094 use 1024. */
  const MAXPATHLEN: int := 255
  const MAXDATA: int := 8192

  /** The procedures in the order of their numbers. */
  const PROCS: seq<Proc> := [
    NULL, GETATTR, SETATTR, ROOT, LOOKUP, READLINK, READ, WRITECACHE, WRITE,
    CREATE, REMOVE, RENAME, LINK, SYMLINK, MKDIR, RMDIR, READDIR, STATFS]

  /** `Protocol.PROC`: the numbers 0..17, in the order of `PROCS`. */
  function ProcNumber(p: Proc): (n: int)
    ensures 0 <= n < |PROCS| && PROCS[n] == p
  {
    match p
    case NULL => 0
    case GETATTR => 1
    case SETATTR => 2
    case ROOT => 3
    case LOOKUP => 4
    case READLINK => 5
    case READ => 6
    case WRITECACHE => 7
    case WRITE => 8
    case CREATE => 9
    case REMOVE => 10
    case RENAME => 11
    case LINK => 12
    case SYMLINK => 13
    case MKDIR => 14
    case RMDIR => 15
    case READDIR => 16
    case STATFS => 17
  }

  /** The procedure a number stands for, if any. */
  function ProcOf(n: int): (r: Option<Proc>)
    ensures r.Some? <==> 0 <= n < 18
    ensures r.Some? ==> ProcNumber(r.value) == n
  {
    if 0 <= n < |PROCS| then Some(PROCS[n]) else None
  }

  /** The numbers are 0..17, one per procedure, and `ProcOf` inverts `ProcNumber`. */
  lemma ProcNumbersBijective()
    ensures forall p :: 0 <= ProcNumber(p) < 18 && ProcOf(ProcNumber(p)) == Some(p)
    ensures forall p, q | ProcNumber(p) == ProcNumber(q) :: p == q
  {
  }

  /** The entries of `Protocol.STAT` read from value to identifier. */
  const STAT_BY_CODE: map<int, StatName> := map[
     0 := OK, 1 := ERR_PERM, 2 := ERR_NOENT, 5 := ERR_IO, 6 := ERR_NXIO, 13 := ERR_ACCES,
    17 := ERR_EXIST, 19 := ERR_NODEV, 20 := ERR_NOTDIR, 21 := ERR_ISDIR, 27 := ERR_FBIG,
    28 := ERR_NOSPC, 30 := ERR_ROFS, 63 := ERR_NAMETOOLONG, 66 := ERR_NOTEMPTY,
    69 := ERR_DQUOT, 70 := ERR_STALE, 99 := ERR_WFLUSH]

  /** `Protocol.STAT`: each code reads back, through `STAT_BY_CODE`, to its identifier. */
  function StatCode(s: StatName): (n: int)
    ensures n in STAT_BY_CODE && STAT_BY_CODE[n] == s
  {
    match s
    case OK => 0
    case ERR_PERM => 1
    case ERR_NOENT => 2
    case ERR_IO => 5
    case ERR_NXIO => 6
    case ERR_ACCES => 13
    case ERR_EXIST => 17
    case ERR_NODEV => 19
    case ERR_NOTDIR => 20
    case ERR_ISDIR => 21
    case ERR_FBIG => 27
    case ERR_NOSPC => 28
    case ERR_ROFS => 30
    case ERR_NAMETOOLONG => 63
    case ERR_NOTEMPTY => 66
    case ERR_DQUOT => 69
    case ERR_STALE => 70
    case ERR_WFLUSH => 99
  }

  /** The eighteen status codes are pairwise distinct, and every key of the inverse is one. */
  lemma StatCodesBijective()
    ensures forall s, t | StatCode(s) == StatCode(t) :: s == t
    ensures forall n | n in STAT_BY_CODE :: StatCode(STAT_BY_CODE[n]) == n
  {
  }

  /** The file types in the order of their codes. */
  const FILE_TYPES: seq<FType> := [NON, REG, DIR, BLK, CHR, LNK]

  /** `Protocol.FileType`: the codes 0..5, in the order of `FILE_TYPES`. */
  function FileTypeCode(t: FType): (n: int)
    ensures 0 <= n < |FILE_TYPES| && FILE_TYPES[n] == t
  {
    match t
    case NON => 0
    case REG => 1
    case DIR => 2
    case BLK => 3
    case CHR => 4
    case LNK => 5
  }

  /** The codes are 0..5, pairwise distinct. */
  lemma FileTypeCodesDistinct()
    ensures forall t :: 0 <= FileTypeCode(t) < 6
    ensures forall t, u | FileTypeCode(t) == FileTypeCode(u) :: t == u
  {
  }

  /** `Protocol.FileHandle`: a Node.js `Buffer`. */
  datatype FileHandle = FileHandle(buffer: seq<byte>)

  /**
   * `new Protocol.FileHandle()`: `new Buffer(FHSIZE)` allocates FHSIZE bytes without
   * clearing them (on Node.js before 8.0; later versions zero-fill); `memory`
   * stands for whatever those bytes happen to hold.
   */
  function NewFileHandle(memory: nat -> byte): (h: FileHandle)
    ensures |h.buffer| == FHSIZE
  {
    FileHandle(seq(FHSIZE, i requires 0 <= i => memory(i)))
  }

  /**
   * `Protocol.FileAttributes`. `type` is a reserved word here, so the file type field is
   * called `ftype`; `None` stands for `null`.
   */
  datatype FileAttributes = FileAttributes(
    ftype: int, mode: Option<int>, nlink: Option<int>, uid: Option<int>, gid: Option<int>,
    size: Option<int>, blocksize: Option<int>, rdev: Option<int>, blocks: Option<int>,
    fsid: Option<int>, fileid: Option<int>, atime: Option<int>, mtime: Option<int>,
    ctime: Option<int>)

  /** The thirteen fields after `type`, in declaration order. */
  function OtherFields(a: FileAttributes): seq<Option<int>> {
    [a.mode, a.nlink, a.uid, a.gid, a.size, a.blocksize, a.rdev,
     a.blocks, a.fsid, a.fileid, a.atime, a.mtime, a.ctime]
  }

  /** `new Protocol.FileAttributes()`: type NON, every other field null. */
  function NewFileAttributes(): (a: FileAttributes)
    ensures a.ftype == FileTypeCode(NON) == 0
    ensures |OtherFields(a)| == 13
    ensures forall i | 0 <= i < |OtherFields(a)| :: OtherFields(a)[i] == None
  {
    FileAttributes(FileTypeCode(NON), None, None, None, None, None, None,
                   None, None, None, None, None, None, None)
  }

  /** `Protocol.DirOp`: a file handle and a file name. */
  datatype DirOp = DirOp(fhandle: FileHandle, filename: string)

  /** `new Protocol.DirOp()`: an empty name and a freshly allocated FHSIZE-byte handle. */
  function NewDirOp(memory: nat -> byte): (d: DirOp)
    ensures d.filename == ""
    ensures |d.fhandle.buffer| == FHSIZE
  {
    DirOp(NewFileHandle(memory), "")
  }

  /** A `Protocol` instance; the constructor's `options` argument is not used. */
  datatype Instance = Instance(version: int)

  /** `Protocol(options)`. */
  function New(): (p: Instance)
    ensures p.version == VERSION == 2
  {
    Instance(VERSION)
  }
}
