/**
 * Facts that relate the repository's modules to each other: the two protocol modules'
 * tables against one another and against the status tables.
 */
module Consistency {
  import opened Common
  import opened Names
  import NfsStatus
  import NfsFile
  import Nfs
  import Protocol

  /** Both procedure tables number every procedure alike. */
  lemma ProcTablesAgree()
    ensures forall p :: Nfs.ProcNumber(p) == Protocol.ProcNumber(p)
    ensures forall n :: Nfs.ProcOf(n) == Protocol.ProcOf(n)
  {
  }

  /** `Protocol.STAT` and the `Status.*` constants give every identifier the same code. */
  lemma StatTableMatchesStatusConstants()
    ensures forall s :: Protocol.StatCode(s) == NfsStatus.Code(s)
  {
  }

  /** For each entry `X: n` of `Protocol.STAT`, the status NAME table maps `n` to `"X"`. */
  lemma StatTableMatchesNames()
    ensures forall s :: Protocol.StatCode(s) in NfsStatus.NAME
    ensures forall s :: NfsStatus.NAME[Protocol.StatCode(s)] == StatIdent(s)
  {
    StatTableMatchesStatusConstants();
  }

  /** A status made from a `Protocol.STAT` code is named by that code's identifier. */
  lemma StatusOfStatCode(s: StatName)
    ensures NfsStatus.New(Some(Protocol.StatCode(s))).name == StatIdent(s)
  {
    StatTableMatchesNames();
    NfsStatus.TablesShareDomain();
  }

  /** `Protocol.FileType` and the constants of file.js agree. */
  lemma FileTypesAgree()
    ensures forall t :: Protocol.FileTypeCode(t) == NfsFile.FTypeCode(t)
  {
  }

  /** The wire constants agree between the two modules except for MAXPATHLEN. */
  lemma WireConstants()
    ensures Nfs.PROGRAM == Protocol.PROGRAM == 100003
    ensures Nfs.VERSION == Protocol.VERSION == 2
    ensures Nfs.FHSIZE == Protocol.FHSIZE == 32
    ensures Nfs.COOKIESIZE == Protocol.COOKIESIZE == 4
    ensures Nfs.MAXNAMELEN == Protocol.MAXNAMELEN == 255
    ensures Nfs.MAXDATA == Protocol.MAXDATA == 8192
    ensures Nfs.MAXPATHLEN == 1024 && Protocol.MAXPATHLEN == 255
  {
  }

  /**
   * The two attribute constructors disagree on every field: file.js writes the ignore
   * value -1 everywhere, version-2.0.js writes type NON (0) and null elsewhere.
   */
  lemma AttributeDefaultsDiffer()
    ensures NfsFile.NewAttributes().ftype == -1 != Protocol.NewFileAttributes().ftype
    ensures forall i | 0 <= i < 13 ::
      NfsFile.Fields(NfsFile.NewAttributes())[i + 1] == NfsFile.IGNORE
      && Protocol.OtherFields(Protocol.NewFileAttributes())[i] == None
  {
  }

  /**
   * A DirOp of index.js holds a handle with no buffer, while one of version-2.0.js holds a
   * buffer of exactly the handle size both modules declare.
   */
  lemma DirOpHandlesDiffer(memory: nat -> byte)
    ensures Nfs.NewDirOp().fhandle.buffer.None?
    ensures |Protocol.NewDirOp(memory).fhandle.buffer| == Nfs.FHSIZE
  {
  }
}
