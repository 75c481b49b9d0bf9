# NFS version 2 protocol tables, modelled in Dafny

This project models the protocol layer of a JavaScript scaffold for an NFS version 2 server
(RFC 1094). The repository holds two descriptions of the version 2 protocol that do not
depend on each other.

- `lib/protocol/2.0/` is split into three files. `status.js` holds status values, `file.js`
  holds the file types, the attribute record and the handle wrapper, and `index.js` holds the
  constants, the procedures and `DirOp`.
- `lib/protocol/version-2.0.js` is a single file. It has its own constants, enumerations and
  record constructors.

The one piece of real behaviour is the status value. `Status(code)` falls back to code 0 when
the argument is missing or falsy. It looks the code up in a NAME table and a MESSAGE table,
using `'UNKNOWN'` and `''` when the code is absent. Its `toString` renders
`NAME(code): message`. Everything else is constant tables and constructors that fill in
default fields. Every procedure method (`noop` … `statfs`) has an empty body, so there is
nothing of them to model.

Modules:

- `Common` holds `Option` (for `undefined`/`null`) and `byte`.
- `Text` holds JavaScript's rendering of an integer in a string concatenation, a parser that
  inverts it, and a first-occurrence search.
- `Names` holds the identifiers of the procedure, file type and status enumerations, which
  both protocol modules share.
- `NfsStatus` models `status.js`, `NfsFile` models `file.js`, `Nfs` models `2.0/index.js`
  and `Protocol` models `version-2.0.js`.
- `Consistency` holds the facts that relate the modules to each other.

The status tables are Dafny `map`s written as in the source. The enumerations are
datatypes, and each number table is a function. Each number table's contract reads
its number back through a table written independently in the opposite direction (a sequence
for the procedures and file types, a map for `Protocol.STAT`, the NAME table for the
`Status.*` constants). The procedure, file-type and `Protocol.STAT` tables are proved to be
bijections. The `Status.*` constants are proved pairwise distinct and to cover every key of
the status tables. `ParseLine` is the partner of `toString`: it splits a rendered line back
into name, code and message. The round trip is proved for every status whose name has no
`(`, which holds for every status built by `Status(code)`. So two statuses built by
`Status(code)` that render to the same text are equal.

Where the two modules disagree, each is modelled as written. `MAXPATHLEN` is 255 in
`version-2.0.js` and 1024 in `2.0/index.js`; RFC 1094 section 2.3 gives 1024. No code in the
repository reads either constant, so the difference shows up in no behaviour. It is stated
as a lemma (`Consistency.WireConstants`). The attribute constructors also differ: `file.js`
sets all fields to -1, while `version-2.0.js` sets the type to NON and the rest to null.

The repository has no XDR codec, dispatcher or READDIR cookie handling, and every procedure
body is empty, so none of these is modelled (see "Left out").

## Model

| member | source | states |
|---|---|---|
| `Text.Decimal` | lib/protocol/2.0/status.js:89 | the rendered code is non-empty, starts with '-' exactly when the code is negative, and is otherwise decimal digits with no leading zero: it starts with '0' only when it is "0", and no '0' follows the minus sign |
| `Text.DecimalRoundTrip` | lib/protocol/2.0/status.js:89 | parsing the rendered code gives back the same integer |
| `Text.DecimalInjective` | lib/protocol/2.0/status.js:89 | two codes render alike exactly when they are equal |
| `NfsStatus.LookupOr` | lib/protocol/2.0/status.js:54-55 | JavaScript's `table[key] \|\| default`: a present, non-empty entry is the result; a missing key or an empty entry gives the default |
| `NfsStatus.New` | lib/protocol/2.0/status.js:48-57 | a missing code gives code 0; otherwise the code is kept; a code in the tables gets its NAME and MESSAGE entries; any other code gets 'UNKNOWN' and '' |
| `NfsStatus.MissingCodeIsOk` | lib/protocol/2.0/status.js:53-55 | a missing code and code 0 both give the status (0, 'OK', 'OK') |
| `NfsStatus.UnknownCode` | lib/protocol/2.0/status.js:53-55 | a code outside the tables gives (code, 'UNKNOWN', ''), whose name is never 'OK' |
| `NfsStatus.TableEntriesNonEmpty` | lib/protocol/2.0/status.js:2-42 | no entry in NAME or MESSAGE is empty, so each `\|\|` default applies only to a missing key |
| `NfsStatus.TablesShareDomain` | lib/protocol/2.0/status.js:2-42 | NAME and MESSAGE are both written over exactly the eighteen codes 0,1,2,5,6,13,17,19,20,21,27,28,30,63,66,69,70,99 |
| `NfsStatus.CodeCount` | lib/protocol/2.0/status.js:2-21 | there are eighteen distinct codes |
| `NfsStatus.NameInjective` | lib/protocol/2.0/status.js:2-21 | different codes have different names in NAME |
| `NfsStatus.OkIffCodeZero` | lib/protocol/2.0/status.js:53-54 | a constructed status is named 'OK' if and only if its code is 0 |
| `NfsStatus.Code` | lib/protocol/2.0/status.js:60-77 | for each static constant `Status.X`, the value is a key of NAME and NAME maps it to the string "X" |
| `NfsStatus.ConstantsDistinct` | lib/protocol/2.0/status.js:60-77 | the static constants are pairwise distinct |
| `NfsStatus.ConstantsCoverCodes` | lib/protocol/2.0/status.js:60-77 | every code in the tables is the value of some static constant |
| `NfsStatus.ToString` | lib/protocol/2.0/status.js:87-91 | the text starts with the name, then '(' and the code in decimal, and ends with "): " and the message, with nothing else in between |
| `NfsStatus.NewOfNoEnt` | lib/protocol/2.0/status.js:5 | code 2 gives the status (2, 'ERR_NOENT', 'No such file or directory') |
| `NfsStatus.ToStringOfNoEnt` | lib/protocol/2.0/status.js:87-91 | code 2 renders as "ERR_NOENT(2): No such file or directory" |
| `NfsStatus.RenderNoEnt` | lib/protocol/2.0/status.js:87-91 | the status (2, 'ERR_NOENT', 'No such file or directory') renders as "ERR_NOENT(2): No such file or directory" |
| `NfsStatus.CodeAndMessageRoundTrip` | lib/protocol/2.0/status.js:89-90 | the text after the name's '(' splits back into exactly the code and the message |
| `NfsStatus.TableNamesHaveNoParen` | lib/protocol/2.0/status.js:2-21 | no name in NAME contains '(' |
| `NfsStatus.NameHasNoParen` | lib/protocol/2.0/status.js:54 | no constructed status has a name containing '(' |
| `NfsStatus.ToStringRoundTrip` | lib/protocol/2.0/status.js:87-91 | for a name without '(', the rendering `name(code): message` splits back into exactly that name, code and message |
| `NfsStatus.ToStringInjective` | lib/protocol/2.0/status.js:87-91 | two constructed statuses that render alike are equal |
| `NfsFile.FTypeCode` | lib/protocol/2.0/file.js:3-14 | each file type's constant is a number in 0..5 that reads back to that type in the list NON, REG, DIR, BLK, CHR, LNK |
| `NfsFile.FTypeOf` | lib/protocol/2.0/file.js:3-14 | a number names a file type exactly when it is in 0..5, and that type's constant is the number |
| `NfsFile.FTypeCodesBijective` | lib/protocol/2.0/file.js:3-14 | NON..LNK get the codes 0..5, pairwise distinct, and `FTypeOf` inverts them |
| `NfsFile.NewAttributes` | lib/protocol/2.0/file.js:21-44 | all fourteen attribute fields hold -1, the ignore value, and the type field -1 is none of the `ftype` constants |
| `NfsFile.NewHandle` | lib/protocol/2.0/file.js:52-61 | the handle's buffer is the argument as passed, of any length and without padding, and absent when none is passed |
| `Nfs.ProcNumber` | lib/protocol/2.0/index.js:65-84 | each procedure's number is in 0..17 and reads back to that procedure in the list NULL … STATFS |
| `Nfs.ProcOf` | lib/protocol/2.0/index.js:65-84 | a number names a procedure exactly when it is in 0..17, and that procedure's number is the given one |
| `Nfs.ProcNumbersBijective` | lib/protocol/2.0/index.js:65-84 | NULL..STATFS get the numbers 0..17, pairwise distinct, and `ProcOf` inverts them |
| `Nfs.New` | lib/protocol/2.0/index.js:5-12 | a new NFS object has version `NFS.VERSION`, which is 2 |
| `Nfs.NewDirOp` | lib/protocol/2.0/index.js:102-105 | a new DirOp has an empty file name and a File.Handle built without an argument, so its buffer is unset |
| `Protocol.ProcNumber` | lib/protocol/version-2.0.js:65-84 | each procedure's number is in 0..17 and reads back to that procedure in the list NULL … STATFS |
| `Protocol.ProcOf` | lib/protocol/version-2.0.js:65-84 | a number names a procedure exactly when it is in 0..17, and that procedure's number is the given one |
| `Protocol.ProcNumbersBijective` | lib/protocol/version-2.0.js:65-84 | NULL..STATFS get the numbers 0..17, pairwise distinct, and `ProcOf` inverts them |
| `Protocol.StatCode` | lib/protocol/version-2.0.js:90-109 | each STAT entry's code reads back to its own identifier through the value-to-identifier table |
| `Protocol.StatCodesBijective` | lib/protocol/version-2.0.js:90-109 | the eighteen STAT codes are pairwise distinct, and every code of the inverse table belongs to the identifier it names |
| `Protocol.FileTypeCode` | lib/protocol/version-2.0.js:134-141 | each FileType code is in 0..5 and reads back to that type in the list NON, REG, DIR, BLK, CHR, LNK |
| `Protocol.FileTypeCodesDistinct` | lib/protocol/version-2.0.js:134-141 | the FileType codes lie in 0..5 and are pairwise distinct |
| `Protocol.NewFileHandle` | lib/protocol/version-2.0.js:126-128 | a new FileHandle's buffer has exactly FHSIZE = 32 bytes |
| `Protocol.NewFileAttributes` | lib/protocol/version-2.0.js:147-162 | a new FileAttributes has type `FileType.NON` = 0 and all thirteen other fields null |
| `Protocol.NewDirOp` | lib/protocol/version-2.0.js:115-118 | a new DirOp has an empty file name and a handle whose buffer has FHSIZE = 32 bytes |
| `Protocol.New` | lib/protocol/version-2.0.js:5-12 | a new Protocol object has version `Protocol.VERSION`, which is 2 |
| `Consistency.ProcTablesAgree` | lib/protocol/version-2.0.js:65-84 | `Protocol.PROC` and `NFS.PROC` number every procedure alike, and so decode every number alike |
| `Consistency.StatTableMatchesStatusConstants` | lib/protocol/version-2.0.js:90-109 | every `Protocol.STAT` entry has the value of the static `Status` constant of the same name |
| `Consistency.StatTableMatchesNames` | lib/protocol/version-2.0.js:90-109 | for each STAT entry `X: n`, the status NAME table maps n to "X" |
| `Consistency.StatusOfStatCode` | lib/protocol/version-2.0.js:90-109 | a status built from the code of STAT entry X is named "X" |
| `Consistency.FileTypesAgree` | lib/protocol/version-2.0.js:134-141 | `Protocol.FileType` gives NON..LNK the same codes as the file.js constants |
| `Consistency.WireConstants` | lib/protocol/version-2.0.js:18-59 | both modules declare PROGRAM 100003, VERSION 2, FHSIZE 32, COOKIESIZE 4, MAXNAMELEN 255 and MAXDATA 8192; MAXPATHLEN is 1024 in index.js and 255 here |
| `Consistency.AttributeDefaultsDiffer` | lib/protocol/version-2.0.js:147-162 | file.js defaults every attribute field to -1, whereas this module uses type 0 and null for the rest |
| `Consistency.DirOpHandlesDiffer` | lib/protocol/version-2.0.js:115-118 | the index.js DirOp holds a handle with no buffer; this module's DirOp holds a buffer of exactly FHSIZE bytes |

## Left out

- Procedure methods (`noop` … `statfs` in both protocol modules): every body is empty, so they have no behaviour to model. The repository has no XDR encoding or decoding, dispatch, SETATTR sentinel handling, exclusive CREATE or READDIR cookie handling, and none is invented here.
- `Protocol.NewFileHandle`: states only the buffer's length. `new Buffer(FHSIZE)` leaves its bytes uninitialised (on Node.js before 8.0; later versions zero-fill), and the `memory` parameter stands for whatever they hold.
- Object identity is not modelled, because values have none. `File.Handle(fh)` shares the caller's Buffer object rather than copying it, and each `Protocol.DirOp` gets a Buffer of its own. The model records only the bytes each buffer holds, so sharing and aliasing are not captured.
- `NfsStatus.New`: the argument is a number or absent. JavaScript also accepts strings (`Status('2')` finds the same table entry) and non-integer numbers. Those arguments are not modelled.
- `Text.Decimal`: renders every integer in plain decimal. JavaScript switches to exponent notation from 1e21 and loses precision above 2^53. Those ranges are not modelled.
- Calling without `new`: `Status`, `File.Attributes`, `File.Handle`, `NFS` and `Protocol` re-invoke themselves with `new` when called without it, so both call forms give the same object, and each is one function here. `NFS.DirOp`, `Protocol.DirOp`, `Protocol.FileHandle` and `Protocol.FileAttributes` have no such guard. Called without `new`, they assign their fields to whatever `this` is (`NFS` or `Protocol` for a call like `NFS.DirOp()`, the global object for a detached call) and return `undefined`. They are modelled only as called with `new`.
- The `options` argument of the `NFS` and `Protocol` constructors is unused in the source and is not a parameter here.
- Callbacks and asynchrony (`done`) are not modelled; no code in the repository calls a callback.
- `lib/nfs.js` (module wiring and the UDP port 2049) and `lib/server/index.js` (an empty constructor) contain no protocol logic and are not part of this model.
