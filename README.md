# lwithers/pkg core, modelled in Dafny

This project models three packages of the Go module `github.com/lwithers/pkg`
and proves properties of the model:

- **byteio**: reads and writes 16-, 32- and 64-bit integers, signed and
  unsigned, in big-endian and little-endian byte order. A byte source
  (`io.ByteReader`) is the class `ByteStream.Reader`. It holds its data and
  the error it reports once the data runs out. A byte sink (`io.ByteWriter`)
  is the class `ByteStream.Writer`. It can be given a budget of bytes after
  which every write fails. Each reader and writer is a method with the
  source's byte-at-a-time steps. Each is proved against a specification
  function: `ByteRead.ReadSpec` for reads and `ByteStream.PutBytes` of
  `ByteLayout.Encode` for writes. `ByteLayout` holds the byte layouts, the
  round trips between them, and the two's-complement reinterpretation that
  the `Int` variants use.
- **versionsort**: the comparison of version strings such as `1.2` and
  `1.10`. Bytes are compared up to the first difference. If that difference
  lies in or just after a run of digits, the digit runs starting at the first
  difference, leading zeros skipped, are compared by length and then byte by
  byte. The runs start at the difference, not at the beginning of the number
  (see Findings). The
  method `VersionSort.Less` and its helper `VersionSort.IntegerStartEnd` keep
  the source's loops and are proved equal to the recursive definitions
  `VersionSort.VersionLess`, `DigitRunEnd` and `ZeroSkip`. The
  `sort.Interface` of `Versions` is the class `VersionSlice.Versions`, which
  wraps an array.
- **writefile**: the write-temporary-then-rename protocol. `New` follows
  symbolic links for at most 16 hops and opens a temporary file beside the
  final name. `Commit` syncs, inherits the permissions, closes and renames.
  `Abort` closes and removes. The file system is a value `WriteFs.FsState`
  held by the class `WriteFs.Fs`. It maps paths to regular files, symbolic
  links and other entries, and records open handles. A fault map decides
  which operation on which path fails and with what errno. The path helpers
  (`filepath.IsAbs`, `Join`, `Clean`, `Dir`) and the temporary-name
  generator are a `PathLib` parameter. Each operation is a method whose new
  state and result equal a specification function (`NewSpec`, `CommitSpec`,
  `AbortSpec`). The properties are proved about those functions.

Strings are `seq<char>`, with each `char` standing for one byte. Go's
fixed-width integers are subset types with explicit bounds (`Uint16` and
so on). Go's truncating conversions are written out as `Truncate` (`byte(x)`)
and `ToSigned`/`ToUnsigned` (`int16(n)`, `uint16(i)` and so on).

## Model

| member | source | states |
|---|---|---|
| ByteRead.ReadSpec | byteio/val_read.go:9-23 | A k-byte read succeeds exactly when k bytes remain and consumes them. The value is the one whose encoding is those bytes. A source empty from the start gives its own error, `EOF` or another, unchanged. A source that ends part-way gives `ErrUnexpectedEOF` in place of `EOF` and any other error unchanged. On error the value is 0. |
| ByteRead.ReadAfterWrite | byteio/val_read.go:74-126 | Reading back the bytes a writer emitted, in the same width and order, yields the written value and consumes exactly those bytes. |
| ByteRead.ReadLEIsReversedBE | byteio/val_read.go:206-258 | A little-endian read gives the value of a big-endian read of the same bytes reversed. |
| ByteRead.ReadUint16BE | byteio/val_read.go:9-23 | Result, error and bytes consumed equal ReadSpec for 2 big-endian bytes. |
| ByteRead.ReadUint32BE | byteio/val_read.go:32-58 | Result, error and bytes consumed equal ReadSpec for 4 big-endian bytes. |
| ByteRead.ReadUint64BE | byteio/val_read.go:74-126 | Result, error and bytes consumed equal ReadSpec for 8 big-endian bytes. |
| ByteRead.ReadUint16LE | byteio/val_read.go:142-155 | Result, error and bytes consumed equal ReadSpec for 2 little-endian bytes. |
| ByteRead.ReadUint32LE | byteio/val_read.go:164-190 | Result, error and bytes consumed equal ReadSpec for 4 little-endian bytes. |
| ByteRead.ReadUint64LE | byteio/val_read.go:206-258 | Result, error and bytes consumed equal ReadSpec for 8 little-endian bytes. |
| ByteRead.ReadInt16BE | byteio/val_read.go:26-29 | The two's-complement reinterpretation of the unsigned 16-bit big-endian read, with the same error and consumption. |
| ByteRead.ReadInt32BE | byteio/val_read.go:61-64 | The two's-complement reinterpretation of the unsigned 32-bit big-endian read. |
| ByteRead.ReadInt64BE | byteio/val_read.go:129-132 | The two's-complement reinterpretation of the unsigned 64-bit big-endian read. |
| ByteRead.ReadInt16LE | byteio/val_read.go:158-161 | The two's-complement reinterpretation of the unsigned 16-bit little-endian read. |
| ByteRead.ReadInt32LE | byteio/val_read.go:193-196 | The two's-complement reinterpretation of the unsigned 32-bit little-endian read. |
| ByteRead.ReadInt64LE | byteio/val_read.go:261-264 | The two's-complement reinterpretation of the unsigned 64-bit little-endian read. |
| ByteWrite.WriteUint16BE | byteio/val_write.go:6-11 | The sink receives the 2-byte big-endian encoding one byte at a time, stopping at the first failed write, whose error is returned. |
| ByteWrite.WriteUint32BE | byteio/val_write.go:19-30 | The same for the 4-byte big-endian encoding. |
| ByteWrite.WriteUint64BE | byteio/val_write.go:44-67 | The same for the 8-byte big-endian encoding. |
| ByteWrite.WriteUint16LE | byteio/val_write.go:81-86 | The same for the 2-byte little-endian encoding. |
| ByteWrite.WriteUint32LE | byteio/val_write.go:94-105 | The same for the 4-byte little-endian encoding. |
| ByteWrite.WriteUint64LE | byteio/val_write.go:119-142 | The same for the 8-byte little-endian encoding. |
| ByteWrite.WriteInt16BE | byteio/val_write.go:14-16 | Emits what WriteUint16BE emits for the unsigned reinterpretation of i. |
| ByteWrite.WriteInt32BE | byteio/val_write.go:33-35 | Emits what WriteUint32BE emits for the unsigned reinterpretation of i. |
| ByteWrite.WriteInt64BE | byteio/val_write.go:70-72 | Emits what WriteUint64BE emits for the unsigned reinterpretation of i. |
| ByteWrite.WriteInt16LE | byteio/val_write.go:89-91 | Emits what WriteUint16LE emits for the unsigned reinterpretation of i. |
| ByteWrite.WriteInt32LE | byteio/val_write.go:108-110 | Emits what WriteUint32LE emits for the unsigned reinterpretation of i. |
| ByteWrite.WriteInt64LE | byteio/val_write.go:145-147 | Emits what WriteUint64LE emits for the unsigned reinterpretation of i. |
| ByteWrite.Layout16BE | byteio/val_write.go:7-10 | The 2-byte big-endian encoding is exactly `byte(n >> 8), byte(n)`. |
| ByteWrite.Layout32BE | byteio/val_write.go:20-29 | The 4-byte big-endian encoding is `byte(n >> 24)` down to `byte(n)`. |
| ByteWrite.Layout64BE | byteio/val_write.go:45-66 | The 8-byte big-endian encoding is `byte(n >> 56)` down to `byte(n)`. |
| ByteWrite.Layout16LE | byteio/val_write.go:82-85 | The 2-byte little-endian encoding is exactly `byte(n), byte(n >> 8)`. |
| ByteWrite.Layout32LE | byteio/val_write.go:95-104 | The 4-byte little-endian encoding is `byte(n)` up to `byte(n >> 24)`. |
| ByteWrite.Layout64LE | byteio/val_write.go:120-141 | The 8-byte little-endian encoding is `byte(n)` up to `byte(n >> 56)`. |
| ByteLayout.DecodeBound | byteio/val_read.go:22 | Assembling k bytes gives a value below 256^k, so it fits the k-byte unsigned type. |
| ByteLayout.DecodeEncode | byteio/val_read.go:122-125 | Decoding the encoding of any n below 256^k gives n back, in either byte order. |
| ByteLayout.EncodeDecodeBE | byteio/val_write.go:44-67 | Encoding the big-endian value of any byte sequence reproduces the sequence. |
| ByteLayout.EncodeDecodeLE | byteio/val_write.go:119-142 | Encoding the little-endian value of any byte sequence reproduces the sequence. |
| ByteLayout.EncodeLEIsReversedBE | byteio/val_write.go:81-86 | The little-endian encoding is the big-endian encoding reversed. |
| ByteLayout.DecodeLEIsReversedBE | byteio/val_read.go:142-155 | The little-endian value of a sequence is the big-endian value of its reverse. |
| ByteLayout.EncodeBEAt | byteio/val_write.go:45-66 | Byte i of the k-byte big-endian encoding is `byte(n >> 8(k-1-i))`. |
| ByteLayout.EncodeLEAt | byteio/val_write.go:120-141 | Byte i of the k-byte little-endian encoding is `byte(n >> 8i)`. |
| ByteLayout.ToSigned | byteio/val_read.go:28 | The signed reinterpretation lies in [-2^(8k-1), 2^(8k-1)) and is congruent to n modulo 256^k. |
| ByteLayout.ToUnsigned | byteio/val_write.go:15 | The unsigned reinterpretation lies in [0, 256^k) and is congruent to i modulo 256^k. |
| ByteLayout.SignedUnsigned | byteio/val_write.go:14-16 | Converting a signed value to unsigned and back is the identity. |
| ByteLayout.UnsignedSigned | byteio/val_read.go:26-29 | Converting an unsigned value to signed and back is the identity. |
| ByteRoundTrip.RoundTrip64BE | byteio/val_read_test.go:16-82 | Writing any uint64 big-endian into a buffer and reading it back gives the value, no errors, then `EOF` from the drained source. |
| ByteRoundTrip.RoundTripInt64LE | byteio/val_read_test.go:84-150 | Writing any int64 little-endian and reading it back gives the value with no errors. |
| ByteRoundTrip.AbortedWrite64BE | byteio/val_write_test.go:233-260 | A sink that fails on its (when+1)-th byte returns that error, keeps exactly the first `when` bytes of the encoding, and is asked for no further byte. |
| ByteRoundTrip.ShortRead64LE | byteio/val_read_test.go:233-285 | Fewer than 8 bytes give 0 and: the source's own error when none was there, `ErrUnexpectedEOF` after a partial read ending in `EOF`, otherwise the source's error. |
| ByteRoundTrip.DeadBeefLE | byteio/example_test.go:46-63 | 0xDEADBEEF written little-endian is the bytes `ef be ad de`. |
| VersionSort.IntegerStartEnd | versionsort/sort.go:110-121 | The run end is the first non-digit at or after p. The start skips leading zeros but keeps the last digit of the run. |
| VersionSort.IntegerStartEndExamples | versionsort/sort_test.go:51-77 | The twelve (start, end) pairs of the package's test table. |
| VersionSort.Less | versionsort/sort.go:31-105 | The loop computes exactly VersionLess, the recursive definition of the ordering. |
| VersionSort.CommonPrefixUnique | versionsort/sort.go:50-55 | The first differing position is unique: any n with equal bytes before it and a difference or an end at it is that position. |
| VersionSort.CommonPrefixSymmetric | versionsort/sort.go:50-55 | The first differing position does not depend on argument order. |
| VersionSort.LexLessAt | versionsort/sort.go:80-83 | Byte-wise string order is decided at the first difference, or by length when one string is a prefix of the other. |
| VersionSort.LexLessAsymmetric | versionsort/sort.go:80-83 | Byte-wise string order never holds both ways. |
| VersionSort.LexLessTotal | versionsort/sort.go:80-83 | Two distinct strings are ordered byte-wise one way or the other. |
| VersionSort.LessIrreflexive | versionsort/sort.go:32-34 | No version is less than itself. |
| VersionSort.LessPrefix | versionsort/sort.go:74-79 | A proper prefix is less than the longer string and not the other way round. |
| VersionSort.LessByteFallback | versionsort/sort.go:80-83 | Outside a digit run, or where one side has no digit, the ordering is the order of the first differing bytes. |
| VersionSort.LessAsymmetric | versionsort/sort.go:31-105 | Less never holds in both directions. |
| VersionSort.ValueBelow | versionsort/sort.go:91-104 | A run of k digits has value below 10^k. |
| VersionSort.ValueAtLeast | versionsort/sort.go:91-104 | A run of k digits with a non-zero first digit has value at least 10^(k-1). |
| VersionSort.SameLengthValue | versionsort/sort.go:100-103 | For digit runs of equal length, byte-wise order is numeric order. |
| VersionSort.NumericOrder | versionsort/sort.go:91-104 | For zero-stripped digit runs, "shorter, or same length and byte-wise less" is exactly numeric less-than. |
| VersionSort.LessNumeric | versionsort/sort.go:86-104 | Where both strings have a digit at the first difference, Less is the numeric comparison of the two digit runs starting there. |
| VersionSort.LessRunEnds | versionsort/sort.go:86-104 | Where the first difference follows a digit and only one side has a digit there, the side with the longer number is greater. |
| VersionSort.ExampleMinor | versionsort/sort_test.go:14-25 | "1.2" < "1.10", not the reverse. |
| VersionSort.ExampleMagnitude | versionsort/sort_test.go:14-25 | "x99" < "x100", not the reverse. |
| VersionSort.ExamplePatch | versionsort/sort_test.go:14-25 | "1.2.3" < "1.3.1", not the reverse. |
| VersionSort.ExampleLetters | versionsort/sort_test.go:14-25 | "abc" < "xyz", not the reverse. |
| VersionSort.UnorderedAfterDigit | versionsort/sort.go:86-104 | The distinct strings "1a" and "1b" are not ordered either way (see Findings). |
| VersionSort.FixedTrichotomy | versionsort/sort.go:31-105 | With the byte-order tie-break, any two distinct strings are ordered exactly one way. |
| VersionSort.FixedAgrees | versionsort/sort.go:31-105 | The tie-broken ordering agrees with Less wherever Less orders the pair. |
| VersionSort.SplitNumberMisordered | versionsort/sort.go:86-104 | "1.100" < "1.19" and not the reverse: only the digits from the first difference on are compared (see Findings). |
| VersionSort.WholeTrichotomy | versionsort/sort.go:31-105 | The whole-number ordering orders any two distinct strings exactly one way. |
| VersionSort.NumbersCompareAt | versionsort/sort.go:1-4 | Two strings that agree up to a number and hold different numbers there are ordered, whole numbers compared, shorter first and then byte by byte. |
| VersionSort.NumbersCompare | versionsort/sort.go:1-4 | Two strings that agree up to a number and differ in it are ordered by the values of the two numbers, whatever follows them ("1.2" < "1.10"). |
| VersionSlice.SwappedPermutes | versionsort/sort.go:20-22 | A swap exchanges positions i and j, leaves every other position alone and keeps the multiset of elements. |
| VersionSlice.SwappedTwice | versionsort/sort.go:20-22 | Swapping the same pair twice restores the slice. |
| VersionSlice.Versions.Len | versionsort/sort.go:12-14 | Returns the slice length. |
| VersionSlice.Versions.Less | versionsort/sort.go:16-18 | Compares elements i and j with the version ordering. |
| VersionSlice.Versions.Swap | versionsort/sort.go:20-22 | The array afterwards is the old one with i and j exchanged. |
| WriteFile.NewSpec | writefile/writefile.go:34-76 | A temporary file is returned exactly when no error is. No fault and no existing entry changes. On success the walk ended, without an lstat error, at an absent path or a regular file. The new file is a fresh empty entry of mode 0o600 in that path's directory and is open. A failure creates no entry and leaves the open handles unchanged. |
| WriteFile.NewOpens | writefile/writefile.go:46-48 | Where the walk reaches p and the directory accepts a new file, New returns p and the new temporary file, and nothing else changes. |
| WriteFile.WalkResolved | writefile/writefile.go:46-48 | A walk that succeeds ends at an absent path or a regular file that lstat could read. |
| WriteFile.WalkFailed | writefile/writefile.go:42-75 | A failed walk gives ELOOP or "not a regular file" naming the original target, or passes on the lstat or readlink error of the hop it stopped at. |
| WriteFile.WalkCycle | writefile/writefile.go:70-75 | Two symbolic links pointing at each other make New fail with ELOOP on the original target, whatever the hop budget. |
| WriteFile.New | writefile/writefile.go:34-76 | The loop of at most MaxSymlinkDeref lstat calls leaves the file system and results equal to NewSpec. |
| WriteFile.NewNoDeref | writefile/writefile.go:86-88 | Opens a temporary file in the directory of the name given, without following links. |
| WriteFile.CommitSpec | writefile/writefile.go:93-116 | Succeeds exactly when the handle is open, the temporary file exists, and sync, close and rename succeed. The handle stays open only if sync failed. On failure only the temporary file may change, and it is gone unless removing it failed. On success the temporary file is renamed over finalFname. Its content is kept, and its permission bits are inherited from the old target when stat and chmod both succeed. The error returned is that of the first failing step: the sync error, else the close error, else a link error from the rename. Other open handles are unchanged. |
| WriteFile.CommitInstalls | writefile/writefile.go:93-116 | With no faults on the temporary file, Commit installs its content at finalFname with the inherited or its own permissions, closes it and removes the temporary name. |
| WriteFile.Commit | writefile/writefile.go:93-116 | New state and error equal CommitSpec. |
| WriteFile.AbortSpec | writefile/writefile.go:79-82 | The handle is closed, so a second close fails with "file already closed". The temporary file is removed unless removal fails. Exactly that handle leaves the open set. Nothing else changes. |
| WriteFile.Abort | writefile/writefile.go:79-82 | New state equals AbortSpec. |
| WriteFileScenarios.Overwrite | writefile/unit_test.go:45-70 | The original file is intact while the new content is being written; after Commit the target holds the new content with the original's permissions, and nothing else remains. |
| WriteFileScenarios.Aborted | writefile/unit_test.go:72-98 | After Abort the directory is as before and the handle is closed. |
| WriteFileScenarios.SymlinkRelative | writefile/unit_test.go:100-131 | Writing through a relative link replaces the file it points to and leaves the link. |
| WriteFileScenarios.SymlinkAbsolute | writefile/unit_test.go:133-164 | Writing through an absolute link replaces the file it points to and leaves the link. |
| WriteFileScenarios.SymlinkDangling | writefile/unit_test.go:166-186 | Writing through a dangling link creates the file it names, with mode 0o600. |
| WriteFileScenarios.SymlinkLoop | writefile/unit_test.go:188-210 | Two links to each other give ELOOP on the target and no file. |
| WriteFileScenarios.SymlinkDir | writefile/unit_test.go:212-236 | A link to a directory gives "not a regular file" on the target and no file. |
| WriteFileScenarios.RenameFails | writefile/writefile.go:110-113 | A failing rename is reported as a link error and leaves the original file untouched, with the temporary file removed. |

## Left out

- Float readers and writers (`ReadFloat*`, `WriteFloat*`) are left out: Dafny has no IEEE 754 bit reinterpretation to model `math.Float64bits` with.
- The `Reader`/`Writer` adapters in byteio/reader.go and byteio/writer.go are not part of this model. Their byte-level interfaces are the classes `ByteStream.Reader` and `ByteStream.Writer`.
- `ByteStream.Reader` models a source as fixed data followed by a single error. A source whose errors vary from call to call is not modelled.
- `Strings` and `sort.Sort` in versionsort/sort.go are left out. They call the standard library sort, which is not part of this model. No transitivity of Less is claimed.
- VersionSort: Go strings are byte sequences. Here each `char` stands for one byte, and no UTF-8 decoding takes place, as in the source.
- WriteFile: the operating system is a value of `FsState`. Durability after `Sync`, atomicity of `Rename`, concurrent writers and directories as real containers are not modelled.
- WriteFile.NewNoDeref: `ioutil.TempFile` retries random names until one is free. The model makes one attempt at `tempName(dir, nextTemp)`, and an existing name there is an error.
- WriteFile.NewSpec: a failed New may still advance the temporary-name counter `nextTemp`, because a failed TempFile attempt uses up a name. Entries and open handles are unchanged.
- WriteFile.CommitSpec: `os.Stat` results are reduced to the permission bits of the entry reached through at most 40 links.
- The path helpers `filepath.IsAbs`, `Join`, `Clean` and `Dir` are uninterpreted functions in `PathLib`. Their properties are not modelled.
- Errors carry an operation, a path and a cause. The exact text of Go's error messages is not modelled.

## Findings

| source | as written | input that shows it | evidently intended | confidence | as-written member | corrected member |
|---|---|---|---|---|---|---|
| versionsort/sort.go:86-104 | When the first difference follows a digit and neither differing byte is a digit, both digit runs at that position are empty, the numeric comparison ties, and Less returns false both ways | Less("1a", "1b") and Less("1b", "1a") are both false | Distinct strings are ordered one way or the other; here, by the differing bytes | medium, not executed | VersionSort.UnorderedAfterDigit | VersionSort.FixedTrichotomy |
| versionsort/sort.go:86-88 | integerStartEnd is called at the first difference `pos`, not at the start of the number, so a difference inside a number compares only the digits from there on | Less("1.100", "1.19") is true and Less("1.19", "1.100") is false | Whole numbers are compared, as the package comment at sort.go:2-3 promises ("1.2" is less than "1.10") | high, not executed | VersionSort.SplitNumberMisordered | VersionSort.NumbersCompare |

The corrected ordering `VersionSort.VersionLessFixed` falls back to byte order when the numbers tie. `VersionSort.FixedAgrees` proves that it agrees with the source wherever the source orders a pair. `VersionSort.VersionLessWhole` reads each number from the start of its digit run, the source's `vStart`. `VersionSort.NumbersCompare` proves that it orders two strings that differ in a number by the values of the numbers, and `VersionSort.WholeTrichotomy` proves that it orders distinct strings exactly one way. `VersionSlice.Versions.Less` keeps the ordering as written, because that is what the package exports.
