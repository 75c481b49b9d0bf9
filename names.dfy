/**
 * The identifiers of the protocol's enumerations (RFC 1094, sections 2.2, 2.3.1 and 2.3.2).
 * The two protocol modules of the repository each attach their own numbers to them; those
 * tables live with the module that declares them.
 */
module Names {

  /** The eighteen procedures, listed in the order of section 2.2 of RFC 1094. */
  datatype Proc =
    | NULL | GETATTR | SETATTR | ROOT | LOOKUP | READLINK | READ | WRITECACHE | WRITE
    | CREATE | REMOVE | RENAME | LINK | SYMLINK | MKDIR | RMDIR | READDIR | STATFS

  /** The file types of section 2.3.2 (`ftype`). */
  datatype FType = NON | REG | DIR | BLK | CHR | LNK

  /** The status identifiers of section 2.3.1 (`stat`) as the repository spells them. */
  datatype StatName =
    | OK | ERR_PERM | ERR_NOENT | ERR_IO | ERR_NXIO | ERR_ACCES | ERR_EXIST | ERR_NODEV
    | ERR_NOTDIR | ERR_ISDIR | ERR_FBIG | ERR_NOSPC | ERR_ROFS | ERR_NAMETOOLONG
    | ERR_NOTEMPTY | ERR_DQUOT | ERR_STALE | ERR_WFLUSH

  /** The identifier as a string, the way it is written as a property key in the source. */
  function StatIdent(s: StatName): string {
    match s
    case OK => "OK"
    case ERR_PERM => "ERR_PERM"
    case ERR_NOENT => "ERR_NOENT"
    case ERR_IO => "ERR_IO"
    case ERR_NXIO => "ERR_NXIO"
    case ERR_ACCES => "ERR_ACCES"
    case ERR_EXIST => "ERR_EXIST"
    case ERR_NODEV => "ERR_NODEV"
    case ERR_NOTDIR => "ERR_NOTDIR"
    case ERR_ISDIR => "ERR_ISDIR"
    case ERR_FBIG => "ERR_FBIG"
    case ERR_NOSPC => "ERR_NOSPC"
    case ERR_ROFS => "ERR_ROFS"
    case ERR_NAMETOOLONG => "ERR_NAMETOOLONG"
    case ERR_NOTEMPTY => "ERR_NOTEMPTY"
    case ERR_DQUOT => "ERR_DQUOT"
    case ERR_STALE => "ERR_STALE"
    case ERR_WFLUSH => "ERR_WFLUSH"
  }
}
