/**
 * lib/protocol/2.0/status.js: the NFS status value. A code is looked up in two constant
 * tables, NAME and MESSAGE, and rendered as `NAME(code): message`.
 */
module NfsStatus {
  import opened Common
  import opened Text
  import opened Names

  /** The keys the NAME and MESSAGE tables are written with. */
  const CODES: set<int> := {0, 1, 2, 5, 6, 13, 17, 19, 20, 21, 27, 28, 30, 63, 66, 69, 70, 99}

  const NAME: map<int, string> := map[
     0 := "OK",
     1 := "ERR_PERM",
     2 := "ERR_NOENT",
     5 := "ERR_IO",
     6 := "ERR_NXIO",
    13 := "ERR_ACCES",
    17 := "ERR_EXIST",
    19 := "ERR_NODEV",
    20 := "ERR_NOTDIR",
    21 := "ERR_ISDIR",
    27 := "ERR_FBIG",
    28 := "ERR_NOSPC",
    30 := "ERR_ROFS",
    63 := "ERR_NAMETOOLONG",
    66 := "ERR_NOTEMPTY",
    69 := "ERR_DQUOT",
    70 := "ERR_STALE",
    99 := "ERR_WFLUSH"
  ]

  const MESSAGE: map<int, string> := map[
     0 := "OK",
     1 := "Not owner",
     2 := "No such file or directory",
     5 := "IO Error",
     6 := "No such device or address",
    13 := "Permission denied",
    17 := "File exists",
    19 := "No such device",
    20 := "Not a directory",
    21 := "Is a directory",
    27 := "File too large",
    28 := "No space left on device",
    30 := "Read-only filesystem",
    63 := "File name too long",
    66 := "Directory not empty",
    69 := "Disk quota exceeded",
    70 := "Invalid file handle",
    99 := "Cache flushed"
  ]

  /** The three fields a `Status` object is given by its constructor. */
  datatype Status = Status(code: int, name: string, message: string)

  /**
   * JavaScript's `x || d` on a string: an absent or empty string is falsy, so the default
   * is taken for both.
   */
  function LookupOr(table: map<int, string>, key: int, default: string): (r: string)
    ensures key in table && table[key] != "" ==> r == table[key]
    ensures key !in table ==> r == default
    ensures key in table && table[key] == "" ==> r == default
  {
    if key in table && table[key] != "" then table[key] else default
  }

  /**
   * `Status(code)`. The argument is `None` for `undefined`, `null` and every other falsy
   * value that is not a number; `code || 0` turns those, and the number 0, into 0.
   */
  function New(code: Option<int>): (s: Status)
    ensures code.None? ==> s.code == 0
    ensures code.Some? ==> s.code == code.value
    ensures s.code in CODES ==> s.name == NAME[s.code] && s.message == MESSAGE[s.code]
    ensures s.code !in CODES ==> s.name == "UNKNOWN" && s.message == ""
  {
    var c := if code.Some? then code.value else 0;
    Status(c, LookupOr(NAME, c, "UNKNOWN"), LookupOr(MESSAGE, c, ""))
  }

  /**
   * `Status.prototype.toString`: the name, then `(`, the code in decimal, `): ` and the
   * message.
   */
  function ToString(s: Status): (r: string)
    ensures |r| == |s.name| + 1 + |Decimal(s.code)| + 3 + |s.message|
    ensures r[..|s.name|] == s.name
    ensures r[|s.name|..|s.name| + 1 + |Decimal(s.code)|] == "(" + Decimal(s.code)
    ensures r[|r| - |s.message| - 3..] == "): " + s.message
  {
    s.name + "(" + Decimal(s.code) + "): " + s.message
  }

  /**
   * The static constants `Status.OK` .. `Status.ERR_WFLUSH`; NAME gives back each
   * constant's own identifier.
   */
  function Code(x: StatName): (c: int)
    ensures c in NAME && NAME[c] == StatIdent(x)
  {
    match x
    case OK => 0
    case ERR_PERM => 1
    case ERR_NOENT => 2
    case ERR_IO => 5
    case ERR_NXIO => 6
    case ERR_ACCES => 13
    case ERR_EXIST => 17
    case ERR_NODEV => 19
    case ERR_NOTDIR => 20
    case ERR_ISDIR => 21
    case ERR_FBIG => 27
    case ERR_NOSPC => 28
    case ERR_ROFS => 30
    case ERR_NAMETOOLONG => 63
    case ERR_NOTEMPTY => 66
    case ERR_DQUOT => 69
    case ERR_STALE => 70
    case ERR_WFLUSH => 99
  }

  /** A missing or falsy code makes the success status. */
  lemma MissingCodeIsOk()
    ensures New(None) == Status(0, "OK", "OK")
    ensures New(Some(0)) == Status(0, "OK", "OK")
  {
  }

  lemma CodeCount()
    ensures |CODES| == 18
  {
    var low := {0, 1, 2, 5, 6, 13, 17, 19, 20};
    var high := {21, 27, 28, 30, 63, 66, 69, 70, 99};
    assert |low| == 9 && |high| == 9;
    assert low * high == {};
    assert CODES == low + high;
  }

  /** Both tables are written over the same eighteen keys. */
  lemma TablesShareDomain()
    ensures NAME.Keys == MESSAGE.Keys == CODES
    ensures |NAME| == |MESSAGE| == 18
  {
    assert NAME.Keys == CODES;
    assert MESSAGE.Keys == CODES;
    CodeCount();
  }

  /** No table entry is an empty string, so the `||` fallbacks fire only on a missing key. */
  lemma TableEntriesNonEmpty()
    ensures forall c | c in NAME :: NAME[c] != ""
    ensures forall c | c in MESSAGE :: MESSAGE[c] != ""
  {
  }

  /** Distinct codes have distinct names. */
  lemma NameInjective()
    ensures forall a, b | a in NAME && b in NAME && NAME[a] == NAME[b] :: a == b
  {
  }

  /** A non-zero code outside the tables is UNKNOWN with an empty message, never OK. */
  lemma UnknownCode(c: int)
    requires c !in CODES
    ensures New(Some(c)) == Status(c, "UNKNOWN", "")
    ensures New(Some(c)).name != "OK"
  {
  }

  /** A status is named OK exactly when its code is 0. */
  lemma OkIffCodeZero(code: Option<int>)
    ensures New(code).name == "OK" <==> New(code).code == 0
  {
    NameInjective();
  }

  /** The static constants are pairwise distinct. */
  lemma ConstantsDistinct()
    ensures forall x, y | Code(x) == Code(y) :: x == y
  {
  }

  /** Every key of the tables has a static constant. */
  lemma ConstantsCoverCodes()
    ensures forall c | c in CODES :: exists x :: Code(x) == c
  {
    forall c | c in CODES ensures exists x :: Code(x) == c {
      var x := if c == 0 then OK else if c == 1 then ERR_PERM else if c == 2 then ERR_NOENT
        else if c == 5 then ERR_IO else if c == 6 then ERR_NXIO else if c == 13 then ERR_ACCES
        else if c == 17 then ERR_EXIST else if c == 19 then ERR_NODEV else if c == 20 then ERR_NOTDIR
        else if c == 21 then ERR_ISDIR else if c == 27 then ERR_FBIG else if c == 28 then ERR_NOSPC
        else if c == 30 then ERR_ROFS else if c == 63 then ERR_NAMETOOLONG
        else if c == 66 then ERR_NOTEMPTY else if c == 69 then ERR_DQUOT
        else if c == 70 then ERR_STALE else ERR_WFLUSH;
      assert Code(x) == c;
    }
  }

  lemma NewOfNoEnt()
    ensures New(Some(2)) == Status(2, "ERR_NOENT", "No such file or directory")
  {
    assert NAME[2] == "ERR_NOENT" && MESSAGE[2] == "No such file or directory";
  }

  /** The rendering of code 2, ERR_NOENT. */
  lemma ToStringOfNoEnt()
    ensures ToString(New(Some(2))) == "ERR_NOENT(2): No such file or directory"
  {
    NewOfNoEnt();
    RenderNoEnt();
  }

  lemma RenderNoEnt()
    ensures ToString(Status(2, "ERR_NOENT", "No such file or directory"))
         == "ERR_NOENT(2): No such file or directory"
  {
    assert DigitChar(2) == '2';
    assert Decimal(2) == "2";
    assert "ERR_NOENT" + "(" + "2" + "): " + "No such file or directory"
        == "ERR_NOENT(2): No such file or directory";
  }

  lemma TableNamesHaveNoParen()
    ensures forall c | c in NAME :: '(' !in NAME[c]
  {
  }

  /** No name a constructed status can carry contains an opening parenthesis. */
  lemma NameHasNoParen(code: Option<int>)
    ensures '(' !in New(code).name
  {
    TableNamesHaveNoParen();
  }

  /**
   * Splits a rendered status line back into its fields: the name runs up to the first
   * `(`, and the rest is read by `ParseCodeAndMessage`.
   */
  function ParseLine(line: string): Option<Status> {
    match IndexOf(line, '(')
    case None => None
    case Some(i) =>
      match ParseCodeAndMessage(line[i + 1..])
      case None => None
      case Some(cm) => Some(Status(cm.0, line[..i], cm.1))
  }

  /** Reads `code): message`: the code runs up to the first `)`, then `": "` follows. */
  function ParseCodeAndMessage(rest: string): Option<(int, string)> {
    match IndexOf(rest, ')')
    case None => None
    case Some(j) =>
      var tail := rest[j..];
      if 3 <= |tail| && tail[..3] == "): " then
        match ParseDecimal(rest[..j])
        case None => None
        case Some(code) => Some((code, tail[3..]))
      else None
  }

  lemma CodeAndMessageRoundTrip(code: int, message: string)
    ensures ParseCodeAndMessage(Decimal(code) + "): " + message) == Some((code, message))
  {
    var dec := Decimal(code);
    var rest := dec + "): " + message;
    assert rest == dec + [')'] + (": " + message);
    IndexOfAfterPrefix(dec, ')', ": " + message);
    assert rest[|dec|..] == "): " + message;
    assert rest[..|dec|] == dec;
    DecimalRoundTrip(code);
  }

  /** `toString` loses nothing: name, code and message are recovered from the text. */
  lemma ToStringRoundTrip(s: Status)
    requires '(' !in s.name
    ensures ParseLine(ToString(s)) == Some(s)
  {
    var rest := Decimal(s.code) + "): " + s.message;
    var line := ToString(s);
    assert line == s.name + ['('] + rest;
    IndexOfAfterPrefix(s.name, '(', rest);
    assert line[|s.name| + 1..] == rest;
    assert line[..|s.name|] == s.name;
    CodeAndMessageRoundTrip(s.code, s.message);
  }

  /** Two constructed statuses with the same rendering are the same status. */
  lemma ToStringInjective(a: Option<int>, b: Option<int>)
    ensures ToString(New(a)) == ToString(New(b)) ==> New(a) == New(b)
  {
    NameHasNoParen(a);
    NameHasNoParen(b);
    ToStringRoundTrip(New(a));
    ToStringRoundTrip(New(b));
  }
}
