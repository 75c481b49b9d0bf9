/**
 * lib/protocol/2.0/file.js: the `ftype` constants, the file-attributes record whose
 * constructor marks every field "ignore", and the file-handle wrapper.
 */
module NfsFile {
  import opened Common
  import opened Names

  /** The value file.js stores in an attribute field that should be ignored. */
  const IGNORE: int := -1

  /** The file types in the order of their codes. */
  const FTYPES: seq<FType> := [NON, REG, DIR, BLK, CHR, LNK]

  /** `File.NON` .. `File.LNK`: the codes 0..5, in the order of `FTYPES`. */
  function FTypeCode(t: FType): (n: int)
    ensures 0 <= n < |FTYPES| && FTYPES[n] == t
  {
    match t
    case NON => 0
    case REG => 1
    case DIR => 2
    case BLK => 3
    case CHR => 4
    case LNK => 5
  }

  /** The file type a number stands for, if any. */
  function FTypeOf(n: int): (r: Option<FType>)
    ensures r.Some? <==> 0 <= n < 6
    ensures r.Some? ==> FTypeCode(r.value) == n
  {
    if 0 <= n < |FTYPES| then Some(FTYPES[n]) else None
  }

  /** Codes 0..5, one per file type, and `FTypeOf` inverts `FTypeCode`. */
  lemma FTypeCodesBijective()
    ensures forall t :: 0 <= FTypeCode(t) < 6 && FTypeOf(FTypeCode(t)) == Some(t)
    ensures forall t, u | FTypeCode(t) == FTypeCode(u) :: t == u
  {
  }

  /**
   * The `File.Attributes` record. `type` is a reserved word here, so the file type field
   * is called `ftype`; the three timestamps are plain numbers in this constructor.
   */
  datatype Attributes = Attributes(
    ftype: int, mode: int, nlink: int, uid: int, gid: int, size: int, blocksize: int,
    rdev: int, blocks: int, fsid: int, fileid: int, atime: int, mtime: int, ctime: int)

  /** The fields in declaration order. */
  function Fields(a: Attributes): seq<int> {
    [a.ftype, a.mode, a.nlink, a.uid, a.gid, a.size, a.blocksize,
     a.rdev, a.blocks, a.fsid, a.fileid, a.atime, a.mtime, a.ctime]
  }

  /** `File.Attributes()`: all fourteen fields carry the ignore value. */
  function NewAttributes(): (a: Attributes)
    ensures |Fields(a)| == 14
    ensures forall i | 0 <= i < |Fields(a)| :: Fields(a)[i] == IGNORE
    ensures FTypeOf(a.ftype) == None
  {
    Attributes(IGNORE, IGNORE, IGNORE, IGNORE, IGNORE, IGNORE, IGNORE,
               IGNORE, IGNORE, IGNORE, IGNORE, IGNORE, IGNORE, IGNORE)
  }

  /**
   * The `File.Handle` wrapper. Its `buffer` is whatever the caller passed; `None` stands
   * for a call without an argument, which leaves it `undefined`.
   */
  datatype Handle = Handle(buffer: Option<seq<byte>>)

  /** `File.Handle(fh)`: the value of `fh` is kept as it is, of any length, without padding. */
  function NewHandle(fh: Option<seq<byte>>): (h: Handle)
    ensures h.buffer == fh
  {
    Handle(fh)
  }
}
