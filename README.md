# Remote file handles: FTP random access and SFTP format-aware readers

This project models two parts of a remote-file abstraction layer written in Go.

**1. The FTP file handle.** A handle holds a path, a stored offset and a reference to a shared transfer session. The session offers four calls: retrieve-from-offset, store-from-offset, file size and modification time. Reading the data connection a retrieve opens is a function on the retrieved stream (`FtpSession.ReadStream`), not a session call.
- `Read` and `Write` work at the stored offset and advance it.
- `ReadAt` and `WriteAt` work at an explicit offset and leave the stored offset alone.
- `Seek` queries the remote size on every call. It accepts a target only inside `[0, size]` and never clamps one. Any failure returns position 0 and leaves the stored offset as it was.

The handle is a Dafny class (`FtpFile.File`) with a mutable `offset` field. The session is a class (`FtpSession.Session`) over a value of the remote side (`FtpSession.Remote`). The session keeps a ghost log of every call made on it, so a handle's contract can state which remote calls it makes and in which order. Go's wrapping `int64` addition and its `uint64(offset)` conversion are written out (`GoInt.AddInt64`, `GoInt.ToUint64`).

**2. The SFTP reader factory.** `ReadAll` picks a reader by the file's name:
- A name ending in `.json` gets a JSON reader. The factory first looks at the first token on a copy of the decoder, which consumes nothing.
  - If that token is `[`, the result is an array reader that keeps the original decoder, with nothing consumed (see Findings; `SftpFile.File.ReadAllCorrected` is the corrected factory).
  - If the token cannot be read, that error is the result.
  - Otherwise the handle is closed and the file reopened from its start, for a reader that decodes one whole value.
- Every other name gets a line reader with a nil error.

Readers are iterated with `Next` and `Scan`:
- For the JSON reader, `Next` is the decoder's `More`, and `Scan` decodes the next value.
- For the line reader, `Next` advances a `bufio.Scanner`. `Scan` writes the current line into a `*string` target and refuses any other target.

The byte stream is a `seq<char>`. JSON values are a datatype (`JsonValue.Json`), with an encoder and a parser for a subset of the grammar. The encoder takes a layout (`JsonValue.Layout`): the blanks it writes after `[`, `{`, each comma and each colon, and before `]` and `}`. Every round-trip and iteration property holds for every layout of blanks, and the layout of the JSON test files (`SftpFile.TestLayout`) is one of them. The streaming decoder is a value (`JsonDecoder.Decoder`: the unconsumed input plus the decoder's token state, as in Go's `json.Decoder`). Because it is a value, peeking at it through a function leaves it unchanged. The line scanner follows `bufio.ScanLines` (`LineScan`).

Files:
- `wrappers.dfy`: `Option`, `Result`, the error kinds, and Go's `int64`/`uint64`.
- `ftp_session.dfy`: the remote side and the session.
- `ftp_file.dfy`: the FTP handle.
- `json_value.dfy`: JSON values, encoding, parsing and the round trip.
- `json_decoder.dfy`: `More`, `Decode`, `Token`, and iteration.
- `line_scanner.dfy`: the line scanner.
- `sftp_file.dfy`: the reader factory, the two readers, and the iteration loops their callers write.

The Go source of the FTP handle itself is not part of this model. Its behaviour is taken from its test file: the mocked session expectations, the tables of inputs and expected results, and the integration tests.

## Model

| member | source | states |
|---|---|---|
| GoInt.AddInt64 | pkg/gofr/datasource/file/ftp/file_test.go:367-415 | Go's wrapping `int64` addition: the result is congruent to the mathematical sum modulo 2^64 (with the int64 range this fixes it), and it is the sum itself whenever the sum fits |
| GoInt.ToUint64 | pkg/gofr/datasource/file/ftp/file_test.go:84-88 | `uint64(off)`: a non-negative offset is unchanged; a negative one becomes a value above MaxInt64 that is congruent to it modulo 2^64 |
| FtpSession.Retrieve | pkg/gofr/datasource/file/ftp/file_test.go:84-88 | a retrieve succeeds iff the session does not fail and the path exists; it then streams the object from the offset on, with nothing past the end; a missing path is NotFound |
| FtpSession.ReadStream | pkg/gofr/datasource/file/ftp/file_test.go:24-41 | one read delivers min(cap, remaining) bytes, a prefix of the stream; io.EOF comes with them exactly when fewer than cap remain; a broken stream delivers nothing and the error |
| FtpSession.ReadFrom | pkg/gofr/datasource/file/ftp/file_test.go:17-100 | retrieve-then-read: no error iff no fault, the path exists and the requested range fits; the bytes are exactly the object's slice at the offset; a failed retrieve delivers nothing |
| FtpSession.Overwrite | pkg/gofr/datasource/file/ftp/file_test.go:191-349 | storing at an offset keeps the prefix, places the data exactly there, keeps the bytes beyond it, and grows the object only as far as the data reaches |
| FtpSession.Store | pkg/gofr/datasource/file/ftp/file_test.go:191-349 | a store succeeds iff the session does not fail, the path exists, the offset leaves no gap and the int64 size range holds; it changes only that object and stamps it with the remote clock; a missing path is NotFound |
| FtpSession.Size | pkg/gofr/datasource/file/ftp/file_test.go:446-447 | FileSize succeeds iff the session does not fail and the path exists, and then returns the object's length; a missing path is NotFound |
| FtpSession.ModTime | pkg/gofr/datasource/file/ftp/file_test.go:204 | what GetTime returns: the object's last stamp, 0 when it was never stamped |
| FtpSession.StoreStampsModTime | pkg/gofr/datasource/file/ftp/file_test.go:204 | after a successful store, the stored object's modification time is the remote clock and every other object's is unchanged |
| FtpSession.StoreThenRead | pkg/gofr/datasource/file/ftp/file_test.go:458-504 | after a successful store, reading back at the same offset for the same length gives exactly the stored bytes, without error |
| FtpSession.StoreSequential | pkg/gofr/datasource/file/ftp/file_test.go:191-267 | two stores where the second starts where the first ended leave the concatenation of the two payloads at the first offset |
| FtpSession.Session.constructor | pkg/gofr/datasource/file/ftp/file_test.go:54-70 | a session over a remote side starts with an empty call log |
| FtpSession.Session.RetrFrom | pkg/gofr/datasource/file/ftp/file_test.go:84-88 | returns the retrieve outcome and logs exactly one RetrFrom call |
| FtpSession.Session.StorFrom | pkg/gofr/datasource/file/ftp/file_test.go:197-221 | applies the store on success, leaves the remote side unchanged on error, and logs exactly one StorFrom call |
| FtpSession.Session.FileSize | pkg/gofr/datasource/file/ftp/file_test.go:446-447 | returns the size and no error on success, or 0 and the error; logs exactly one FileSize call |
| FtpSession.Session.GetTime | pkg/gofr/datasource/file/ftp/file_test.go:204 | returns the object's modification time and logs exactly one GetTime call |
| FtpFile.SeekTarget | pkg/gofr/datasource/file/ftp/file_test.go:351-455 | an unrecognised whence is ErrInvalid; for a valid handle the target is exactly base + offset when it lies in [0, size] and out of range otherwise, so wrap-around never admits a target; no result lies outside [0, size] |
| FtpFile.SeekTable | pkg/gofr/datasource/file/ftp/file_test.go:358-421 | the nine rows of the Seek table (size 10, stored offset 5): the expected positions and errors |
| FtpFile.SeekAgainStaysPut | pkg/gofr/datasource/file/ftp/file_test.go:351-455 | after a successful seek, seeking from Start to the returned position, or by 0 from Current, lands on the same position |
| FtpFile.File.constructor | pkg/gofr/datasource/file/ftp/file_test.go:83 | a handle starts at offset 0 on its path and session |
| FtpFile.File.Read | pkg/gofr/datasource/file/ftp/file_test.go:17-100 | logs one RetrFrom at `uint64(offset)`; the bytes and error are those of ReadFrom; the buffer holds them and nothing else in it changes; the offset advances by the count delivered |
| FtpFile.File.ReadAt | pkg/gofr/datasource/file/ftp/file_test.go:102-189 | same as Read but at the explicit offset, and the stored offset is untouched |
| FtpFile.File.Write | pkg/gofr/datasource/file/ftp/file_test.go:191-267 | on store success: `len(p)` and nil, offset advanced by `len(p)`, modification time refreshed, calls StorFrom then GetTime; on store error: the error is returned as it is with 0, nothing else changes, and GetTime is never called |
| FtpFile.File.WriteAt | pkg/gofr/datasource/file/ftp/file_test.go:269-349 | same as Write at the explicit offset, with the stored offset untouched |
| FtpFile.File.Seek | pkg/gofr/datasource/file/ftp/file_test.go:351-455 | logs one FileSize on every call, also for an invalid whence; a FileSize error gives (0, err); otherwise the SeekTarget outcome; success stores the position; any failure returns 0 and keeps the stored offset |
| FtpFile.TenByteSession | pkg/gofr/datasource/file/ftp/file_test.go:431-437 | a fresh session over one 10-byte object with an empty log |
| JsonValue.ParseValue | pkg/gofr/datasource/file/sftp/file.go:124-127 | parsing one value consumes at least one character on success |
| JsonValue.SkipBlank | pkg/gofr/datasource/file/sftp/file.go:124-127 | blanks in front of a stream change nothing about where its next token starts |
| JsonValue.ParseValueSkips | pkg/gofr/datasource/file/sftp/file.go:124-127 | blanks in front of a value change nothing about what parses |
| JsonDecoder.DrainSkips | pkg/gofr/datasource/file/sftp/file.go:93-127 | blanks in front of the rest change neither More nor the values a decoder yields, in every token state |
| JsonValue.ParseEncoded | pkg/gofr/datasource/file/sftp/file.go:124-127 | for every blank layout, parsing an encoded well-formed value gives back exactly that value and leaves what follows it |
| JsonValue.ParseArrayEncoded | pkg/gofr/datasource/file/sftp/file.go:124-127 | for every blank layout, an encoded array (after its `[`) parses back to its elements |
| JsonValue.ParseItemsEncoded | pkg/gofr/datasource/file/sftp/file.go:124-127 | for every blank layout, encoded array elements parse back in order, up to the blanks and the closing bracket |
| JsonValue.ParseObjectEncoded | pkg/gofr/datasource/file/sftp/file.go:124-127 | for every blank layout, an encoded object (after its `{`) parses back to its members |
| JsonValue.ParseMemberEncoded | pkg/gofr/datasource/file/sftp/file.go:124-127 | for every blank layout, an encoded `"key": value` member parses back, blanks after the colon included |
| JsonValue.ParseMembersEncoded | pkg/gofr/datasource/file/sftp/file.go:124-127 | for every blank layout, encoded members parse back in order, up to the blanks and the closing brace |
| JsonDecoder.More | pkg/gofr/datasource/file/sftp/file.go:119-122 | `json.Decoder.More`, which the JSON reader's Next returns: some character other than a blank, `]` or `}` comes next (false on blank input by BlankIsEndOfFile, true before each element by DecodeElement) |
| JsonDecoder.NewDecoder | pkg/gofr/datasource/file/sftp/file.go:63 | `json.NewDecoder`: the whole content unconsumed, at the top level (also at file.go:107 for the reopened file) |
| JsonDecoder.Drain | pkg/gofr/datasource/file/ftp/file_test.go:577-587 | the values a `for reader.Next() { reader.Scan(&v) }` loop receives, up to the first failing Scan (also the loop at file_test.go:618-627); its meaning is carried by DrainSingle, DrainElements and BlankIsEndOfFile |
| JsonDecoder.ReadValue | pkg/gofr/datasource/file/sftp/file.go:124-127 | reading a value consumes input and moves an array decoder from before an element to after it |
| JsonDecoder.Decode | pkg/gofr/datasource/file/sftp/file.go:124-127 | Decode consumes input on success and keeps a top-level decoder at the top level |
| JsonDecoder.PeekToken | pkg/gofr/datasource/file/sftp/file.go:81-90 | the first token is `[` exactly when the first non-blank character is `[`; it is `{` when that character is `{`; a delimiter is only `[` or `{`; a leading `]`, `}`, `,` or `:` is a syntax error; blank input is io.EOF; a scalar token is the value Decode would return |
| JsonDecoder.ConsumeArrayStart | pkg/gofr/datasource/file/sftp/file.go:71-74 | on a stream whose first token is `[`, the decoder is left just after that `[`, with only blanks before it, standing before the first element |
| JsonDecoder.BlankIsEndOfFile | pkg/gofr/datasource/file/sftp/file.go:65-69 | on an empty or blank stream More is false, and Decode and Token both return io.EOF |
| JsonDecoder.DecodeEncoded | pkg/gofr/datasource/file/sftp/file.go:124-127 | for every blank layout, a top-level Decode of an encoded value returns it and leaves the decoder after it |
| JsonDecoder.PeekEncoded | pkg/gofr/datasource/file/sftp/file.go:81-90 | for every blank layout, the first token of an encoded value is `[` for an array, `{` for an object, the value itself otherwise |
| JsonDecoder.DrainSingle | pkg/gofr/datasource/file/sftp/file.go:93-110 | for every blank layout, a decoder over one encoded value (and blanks after it) yields exactly that value once, after which More is false |
| JsonDecoder.DecodeElement | pkg/gofr/datasource/file/sftp/file.go:119-127 | inside an array, More is true before an encoded element, and Decode returns it and moves on to the comma state |
| JsonDecoder.ClosingBracketEnds | pkg/gofr/datasource/file/sftp/file.go:93-110 | a `]`, with or without blanks before it, makes More false and ends the iteration, in every token state |
| JsonDecoder.CommaStep | pkg/gofr/datasource/file/sftp/file.go:119-127 | after an element, a comma, blanks and another element read on as if the comma and the blanks were not there |
| JsonDecoder.DrainElements | pkg/gofr/datasource/file/sftp/file.go:119-127 | for every blank layout, a decoder before the elements of an encoded array yields them in order, and More turns false exactly at `]` |
| JsonDecoder.DrainArrayElements | pkg/gofr/datasource/file/sftp/file.go:71-74 | for every blank layout, with the `[` consumed, an encoded array yields exactly its elements |
| LineScan.NextLine | pkg/gofr/datasource/file/sftp/file.go:129-132 | a step yields nothing exactly on an empty stream; otherwise a line without `\n` that, with its `\n`, `\r\n` or (at the end) nothing or `\r`, and the rest of the stream, makes up the stream again; the line is the text before the first `\n`, one character shorter exactly when that text ends in `\r` (dropCR) |
| LineScan.NewScanner | pkg/gofr/datasource/file/sftp/file.go:114 | `bufio.NewScanner`: the whole content still to scan and an empty current line |
| LineScan.DropCR | pkg/gofr/datasource/file/sftp/file.go:129-132 | ScanLines' dropCR: the line is kept or loses its last character, and it loses it exactly when that character is `\r` |
| LineScan.Lines | pkg/gofr/datasource/file/sftp/file.go:129-132 | every line the scanner produces, in order: none exactly for an empty stream, and none of them holds `\n` |
| LineScan.ScanStep | pkg/gofr/datasource/file/sftp/file.go:129-132 | Scan is true exactly while input remains; the current line followed by the lines still to come are all the lines left |
| LineScan.LinesOfJoin | pkg/gofr/datasource/file/ftp/file_test.go:458-504 | plain lines joined with `\n` (the last not empty) scan back into exactly those lines |
| LineScan.JoinOfLines | pkg/gofr/datasource/file/sftp/file.go:129-141 | a stream without `\r` that does not end in `\n` is exactly its scanned lines joined with `\n` |
| SftpFile.Classify | pkg/gofr/datasource/file/sftp/file.go:53-78 | Text exactly for a name without `.json`; Array exactly for a `.json` name whose first non-blank character is `[`; Object exactly for a `.json` name whose first token is `{` or a whole scalar value; a first token that cannot be read is that error |
| SftpFile.IsJsonName | pkg/gofr/datasource/file/sftp/file.go:54 | `strings.HasSuffix(name, ".json")`: the name's last five characters are `.json` |
| SftpFile.JsonNameIsStemDotJson | pkg/gofr/datasource/file/sftp/file.go:54 | `strings.HasSuffix(name, ".json")` (`SftpFile.IsJsonName`) holds exactly when the name is some stem followed by `.json` |
| SftpFile.ArrayDecoder | pkg/gofr/datasource/file/sftp/file.go:71-74 | the corrected array reader's decoder (not the one the source keeps): it stands inside the array and has consumed input |
| SftpFile.StringVar.constructor | pkg/gofr/datasource/file/sftp/file.go:134-141 | a `*string` target holding the given string |
| SftpFile.JsonVar.constructor | pkg/gofr/datasource/file/sftp/file.go:124-127 | a decode target holding the given value |
| SftpFile.JsonReader.constructor | pkg/gofr/datasource/file/sftp/file.go:27-30 | a JSON reader over the given decoder and stored token |
| SftpFile.JsonReader.Next | pkg/gofr/datasource/file/sftp/file.go:119-122 | Next is exactly More on the current decoder; it reports no error and moves nothing |
| SftpFile.JsonReader.Scan | pkg/gofr/datasource/file/sftp/file.go:124-127 | on success the target holds the decoded value and the decoder has moved past it; a decode error is returned unchanged and neither changes |
| SftpFile.TextReader.constructor | pkg/gofr/datasource/file/sftp/file.go:112-117 | a line reader with a fresh scanner over the content |
| SftpFile.TextReader.Next | pkg/gofr/datasource/file/sftp/file.go:129-132 | advances the scanner one line; true exactly while input remains, and then the current line is the next line in order |
| SftpFile.TextReader.Scan | pkg/gofr/datasource/file/sftp/file.go:134-145 | a `*string` target receives the current line with a nil error; any other target gets errNotStringPointer and nothing changes; the scanner never moves |
| SftpFile.ScanLine | pkg/gofr/datasource/file/sftp/file.go:134-141 | scanning into a fresh `*string` gives the current line and a nil error, leaving the scanner where it is |
| SftpFile.File.constructor | pkg/gofr/datasource/file/sftp/file.go:15-20 | an open handle with its name and content |
| SftpFile.File.ReadAll | pkg/gofr/datasource/file/sftp/file.go:53-59 | per Classify: Text gives a fresh line reader over the content with a nil error; Array gives a fresh array reader holding `[` and the original decoder, with nothing consumed; an unreadable first token gives that error and builds nothing; Object closes the handle and gives the close error, else the reopen error, else a fresh reader over the reopened content with no token |
| SftpFile.File.CreateJsonReader | pkg/gofr/datasource/file/sftp/file.go:62-78 | the peek error is returned as it is; `[` gives a fresh array reader holding the original decoder `NewDecoder(data)` and the token, without closing; anything else goes to the object reader |
| SftpFile.File.ReadAllCorrected | pkg/gofr/datasource/file/sftp/file.go:71-74 | ReadAll in every case except Array, where the reader's decoder is the original one with the `[` consumed (`ArrayDecoder`), standing before the first element |
| SftpFile.File.CreateJsonObjectReader | pkg/gofr/datasource/file/sftp/file.go:93-110 | closes the handle; a close error, then an open error, is returned; otherwise a fresh reader over the reopened content with no stored token |
| SftpFile.ObjectOutcome | pkg/gofr/datasource/file/sftp/file.go:96-109 | the outcome of building the object reader: the close error if closing failed, else the open error if reopening failed, else a reader over the reopened content with no token |
| SftpFile.File.CreateTextReader | pkg/gofr/datasource/file/sftp/file.go:112-117 | a fresh line reader over the handle's content |
| SftpFile.ReadValues | pkg/gofr/datasource/file/ftp/file_test.go:538-590 | the `for Next() { Scan }` loop over a JSON reader collects exactly the values Drain gives, in order |
| SftpFile.ReadLines | pkg/gofr/datasource/file/ftp/file_test.go:458-504 | the `for Next() { Scan(&line) }` loop collects exactly the scanned lines, in order |
| SftpFile.ClassifyText | pkg/gofr/datasource/file/sftp/file.go:53-59 | only the name decides that a file is read as lines, whatever its content |
| SftpFile.ClassifyEncoded | pkg/gofr/datasource/file/sftp/file.go:62-78 | for every blank layout, a `.json` file holding an encoded value is Array exactly for an array and Object otherwise |
| SftpFile.ClassifyBlank | pkg/gofr/datasource/file/sftp/file.go:65-69 | an empty or blank `.json` file makes ReadAll fail with io.EOF |
| SftpFile.ArrayReaderAsWrittenYieldsWholeArray | pkg/gofr/datasource/file/sftp/file.go:71-74 | for every blank layout, with the decoder kept as written, iterating an array file yields the one whole array, not its elements |
| SftpFile.ArrayReaderYieldsElements | pkg/gofr/datasource/file/sftp/file.go:71-74 | for every blank layout, with the `[` consumed, iterating an array file yields its elements in order and then stops |
| SftpFile.ReadArrayFileAsWritten | pkg/gofr/datasource/file/sftp/file.go:71-74 | for every blank layout, reading a `.json` array file through ReadAll as written and the Next/Scan loop yields one value, the whole array, and not its elements |
| SftpFile.ReadArrayFile | pkg/gofr/datasource/file/ftp/file_test.go:538-590 | for every blank layout, reading a `.json` array file through the corrected ReadAll and the loop yields exactly its elements, in order |
| SftpFile.ReadObjectFile | pkg/gofr/datasource/file/ftp/file_test.go:592-629 | for every blank layout, reading a `.json` file holding one other value yields that value exactly once |
| SftpFile.UserText | pkg/gofr/datasource/file/ftp/file_test.go:540-543 | a user record written with the test layout is the tests' line `{"name": "<name>", "age": <age>}` |
| SftpFile.ArrayTestContent | pkg/gofr/datasource/file/ftp/file_test.go:540-543 | the array file of the test is the encoding of its four users with the test layout: `[`, one user line per line with `,` and a newline between, `]` |
| SftpFile.TestUsersWellformed | pkg/gofr/datasource/file/ftp/file_test.go:550-553 | the four users of the test can be written down in the subset |
| SftpFile.ReadArrayTestFile | pkg/gofr/datasource/file/ftp/file_test.go:538-590 | the test's array file, read through the corrected ReadAll and the loop, yields its four users in file order |
| SftpFile.ReadObjectTestFile | pkg/gofr/datasource/file/ftp/file_test.go:592-629 | the test's object file yields its one user once |
| SftpFile.ReadCsvFile | pkg/gofr/datasource/file/ftp/file_test.go:458-504 | a `.csv` file holding the rows joined with `\n` gives the rows back verbatim and in order |
| SftpFile.ReadMalformedJson | pkg/gofr/datasource/file/ftp/file_test.go:631-655 | a `.json` file holding `!@#$%^&*` makes ReadAll fail with a syntax error |
| SftpFile.ScanIntoNonPointer | pkg/gofr/datasource/file/ftp/file_test.go:507-536 | scanning a line into anything but a `*string` gives errNotStringPointer while lines remain |

The scenario methods `FtpFile.SeekScenario`, `SeekThenReadScenario`, `ReadAtEofScenario`, `MissingPathScenario` and `WriteThenReadScenario` drive whole handles through the test tables with assertions. They have no contract of their own.

## Left out

- The FTP handle's Go source (`ftp/file.go`) is not part of this model. The handle's operations are modelled from the behaviour their tests pin down, and where the tests leave a choice open it is stated here.
- FtpFile.File.Read: the offset advances by the bytes delivered also when io.EOF comes with them (the io.Reader convention). The tests check only that an error is returned.
- FtpFile.File.Write: a GetTime failure after a successful store is not modelled. The tests never make GetTime fail, and the handle's source is not part of this model.
- Closing the data connection after a read (the mocked response's `Close`) is not recorded. The call log holds only the calls made on the session.
- FtpSession.ReadStream: one read fills the buffer as far as the stream allows, and io.EOF comes exactly when fewer bytes than asked for remain. This rests on the mocked read (`Return(10, io.EOF)`); a real data connection may return fewer bytes with a nil error, or report io.EOF only on a later read. `FtpSession.ReadFrom`'s exact slice and error condition, `FtpSession.StoreThenRead`, and the byte counts of `FtpFile.File.Read` and `FtpFile.File.ReadAt` hold under this assumption.
- The remote side's store semantics are an assumption about the server, not something the tests show. A store overwrites at the offset; it is refused when it would leave a gap or exceed the int64 size range.
- Logging and metrics (`Errorf`, `Logf`, `RecordHistogram`) are left out. They do not affect results.
- JSON is a subset: `null`, `true`, `false`, numbers as non-empty digit runs with no leading zero (a number that starts with `0` ends right after it, as in Go's scanner), strings without escapes, arrays and objects. Negative, fractional and exponent numbers and escapes (`\"`, `\\`, `\u` and the rest) are left out; any other character from a space upwards, Unicode included, may appear in a string as it is.
- Decoding into Go structs is left out, including field mapping and the pointer-in-interface indirection of `Decode(&i)`. A target holds the decoded JSON value.
- SftpFile.JsonReader.Scan: on a decode error the target is left unchanged. Go's decoder may have filled part of it.
- SftpFile.ReadValues stops at the first Scan error. The callers' loop in Go would keep calling Scan, and the error would repeat.
- The real behaviour of the shallow `json.Decoder` copy (its shared reader and read-ahead buffer) is left out. The peek is modelled as lookahead that consumes nothing.
- `bufio.Scanner`'s 64 KiB token limit and its ErrTooLong are left out.
- The line reader reads lazily from the handle. The model takes the content from the handle's read position on as one string.
- `Close` and `os.Open` are I/O. Their outcomes are the parameters `closeErr` and `reopened` of `ReadAll`. In the source, `os.Open` opens the local path with the handle's name; the model takes whatever it yields.
- The textReader's logger is left out.
- Directory operations, `Stat`, connection setup and the server set up by the integration tests are left out. They are outside the handle and the readers.
- `pkg/gofr/http/responder_test.go` is unrelated to this core and is not modelled.
- Concurrent use of one handle is left out.

## Findings

| source | as written | input that shows it | evidently intended | confidence | as-written member | corrected member |
|---|---|---|---|---|---|---|
| pkg/gofr/datasource/file/sftp/file.go:71-74 | the array reader keeps the original decoder, with nothing consumed, so its first `Scan` decodes the whole top-level array and `Next` is then false | a `.json` file holding `[{"n":1},{"n":2}]` yields one value, the whole array | one `Scan` per array element, in file order, with `Next` false at the closing `]` | medium, not executed | SftpFile.ReadArrayFileAsWritten | SftpFile.ReadArrayFile |

`SftpFile.File.ReadAll` and `SftpFile.File.CreateJsonReader` keep the original decoder, as the source does; `SftpFile.ArrayReaderAsWrittenYieldsWholeArray` shows what that decoder yields. The corrected factory `SftpFile.File.ReadAllCorrected` consumes the `[` on the decoder it keeps (`SftpFile.ArrayDecoder`), and `SftpFile.ArrayReaderYieldsElements` proves that it then yields the elements in order.

This finding holds under lookahead that consumes nothing, which is how the copy is meant to behave. With Go's real decoder the copy also moves the shared file position and takes the bytes it buffered with it, so the kept decoder may see nothing at all. In neither case are the elements delivered one by one.
