# Tauk XCTest reporter — a verified model of its core

The Tauk XCTest library reports each UI test to the Tauk service:
- `TaukXCTestCase` keeps a bounded queue of console lines while a test runs.
- It records the test's status, error, screenshot and view hierarchy in a `TestResult`.
- When a test fails, `TaukError` reads the failing source file with a chunked `StreamingFileReader` and keeps a window of lines around the failing line.
- At tear-down the result is finalised and sent by `TaukUpload`. The upload is a POST whose callback classifies the HTTP status and retries transport failures under a process-wide counter.

This project models that core in Dafny and proves what it does.

The modules follow the Swift files:

| module | file | form |
|---|---|---|
| `Wrappers` | — | `Option`, the counterpart of Swift's `T?` |
| `Utils` | `Utils.swift` | functions for the pure mappings; methods for the tree traversal |
| `LineReader` | `StreamingFileReader.swift` | class `StreamingFileReader` with the file, the handle offset `pos` and the `buffer` as fields |
| `TaukErrors` | `TaukError.swift` | the extraction loop as methods over the reader, proved against a closed-form window |
| `TestResults` | `TestResult.swift` | value datatypes and functions |
| `Upload` | `TaukUpload.swift` | functions for the mappings; class `TaukUploader` holding `retryCount` |
| `TaukCase` | `Tauk.swift` | class `TaukXCTestCase` with the test case's stored properties as fields |

Foundation and XCTest are parameters rather than code:
- The file system, UTF-8 decoding and whitespace trimming are the `Host` functions.
- The application under test is an element tree plus the screenshot text it would give.
- Clock readings are `real` arguments.
- The network is the sequence of replies the successive upload attempts receive.

## Model

| member | source | states |
|---|---|---|
| Utils.TruncateToInt | Sources/Tauk/Utils.swift:298-301 | Swift's `Int(x)` on a floating value truncates toward zero: the result is at most 1 from `x`, on the zero side of it, and has the sign of `x` |
| Utils.Digits | Sources/Tauk/Utils.swift:298-301 | the decimal rendering of a natural number is non-empty and all digits |
| Utils.DigitsRoundTrip | Sources/Tauk/Utils.swift:298-301 | reading the digits back gives the number |
| Utils.IntStringRoundTrip | Sources/Tauk/Utils.swift:298-301 | `String(Int)` loses nothing: parsing the rendering, sign included, gives back the integer |
| Utils.BoolString | Sources/Tauk/Utils.swift:295-297 | `String(Bool)` is "true" or "false", and it is "true" exactly when the flag is set |
| Utils.RemoveOpenMarks | Sources/Tauk/Utils.swift:142 | removing every "-[" never lengthens the name |
| Utils.RemoveCloseMarks | Sources/Tauk/Utils.swift:143 | after removing every "]", none is left, and the name is no longer |
| Utils.RemoveOpenMarksNoBracket | Sources/Tauk/Utils.swift:142 | a string without "[" is left unchanged |
| Utils.RemoveCloseMarksNoBracket | Sources/Tauk/Utils.swift:143 | a string without "]" is left unchanged |
| Utils.RemoveCloseMarksAppend | Sources/Tauk/Utils.swift:143 | removing "]" from a concatenation is removing it from each part |
| Utils.Components | Sources/Tauk/Utils.swift:144 | `components(separatedBy: " ")` gives at least one piece, and no piece holds a space |
| Utils.ComponentsKeepChars | Sources/Tauk/Utils.swift:144 | splitting adds no character: one absent from the string is absent from every piece |
| Utils.JoinComponents | Sources/Tauk/Utils.swift:144 | joining the pieces with single spaces gives back the string, so splitting loses nothing, empty pieces included |
| Utils.ComponentsJoin | Sources/Tauk/Utils.swift:144 | conversely, splitting the join of space-free pieces gives back the pieces |
| Utils.ComponentsOfSpaceFree | Sources/Tauk/Utils.swift:144 | a space-free prefix becomes part of the first piece and leaves the other pieces alone |
| Utils.FormatTestMethodName | Sources/Tauk/Utils.swift:139-146 | the second piece of the stripped name, defined when there are at least two pieces (the source traps otherwise); it holds no space and no "]" |
| Utils.FormatTestMethodNameDefinedIff | Sources/Tauk/Utils.swift:144-145 | the piece index 1 is in range exactly when the stripped name contains a space |
| Utils.FormatTestMethodNameOfXCTestName | Sources/Tauk/Utils.swift:139-146 | "-[C m]" gives `m` for every class name `C` and method name `m` free of spaces and brackets |
| Utils.ElementTypeName | Sources/Tauk/Utils.swift:199-286 | every type name starts with "XCUIElementType" and goes on after it; types not listed give "XCUIElementTypeAny" |
| Utils.SuffixStartsWithTy | Sources/Tauk/Utils.swift:203-206 | what follows "XCUIElementType" starts with "Ty" exactly for activity indicators and alerts |
| Utils.SuffixStartsWithType | Sources/Tauk/Utils.swift:203-206 | for those two, it starts with "Type" |
| Utils.DoubledBySuffix | Sources/Tauk/Utils.swift:199-286 | whether a name doubles "Type" depends only on the first characters of what follows "XCUIElementType" |
| Utils.DoubledTypeExactly | Sources/Tauk/Utils.swift:199-286 | a name begins "XCUIElementTypeType" exactly when the type is an activity indicator or an alert |
| Utils.ElementAttributes | Sources/Tauk/Utils.swift:288-303 | the attribute map of one element; what it holds is stated by the five lemmas below |
| Utils.AttributeKeysCount | Sources/Tauk/Utils.swift:288-303 | the attribute keys are twelve distinct strings |
| Utils.ElementAttributesKeys | Sources/Tauk/Utils.swift:288-303 | every element's attribute map has exactly those twelve keys |
| Utils.ElementAttributesTexts | Sources/Tauk/Utils.swift:290-294 | `type` is the element's type name; `title`, `identifier` and `label` are the element's texts; an absent placeholder becomes "" and a present one is kept |
| Utils.ElementAttributesFlags | Sources/Tauk/Utils.swift:295-297 | each of the three flags is "true" or "false", and it is "true" exactly when the flag is set |
| Utils.ElementAttributesGeometry | Sources/Tauk/Utils.swift:298-301 | `x`, `y`, `width` and `height` read back as the truncated frame values |
| Utils.ChildViews | Sources/Tauk/Utils.swift:309-321 | the children's mirrors from index `k` on number as many as those children |
| Utils.ChildViewsSuffix | Sources/Tauk/Utils.swift:309-321 | dropping the first `k` child mirrors leaves the mirrors from child `k` on |
| Utils.ChildViewsStep | Sources/Tauk/Utils.swift:310-320 | one iteration of the loop moves the next child's mirror from the pending mirrors to the done ones |
| Utils.TraverseElementTree | Sources/Tauk/Utils.swift:309-321 | the nodes added under a parent are exactly its children's mirrors, in enumeration order; a leaf and an inner element add the same node |
| Utils.GetViewHierarchy | Sources/Tauk/Utils.swift:305-326 | the document root is the application's mirror, with one node per element |
| Utils.Mirrored | Sources/Tauk/Utils.swift:309-321 | a list of elements has as many mirrors as elements |
| Utils.MirroredAppend | Sources/Tauk/Utils.swift:309-321 | mirroring a concatenation is concatenating the mirrors |
| Utils.MirrorPreorder | Sources/Tauk/Utils.swift:305-326 | the view tree in preorder is the element tree in preorder, mirrored node for node: nothing is filtered or reordered |
| Utils.MirrorPreorderFrom | Sources/Tauk/Utils.swift:309-321 | the same holds for the children from index `k` on |
| LineReader.FirstDelimiter | Sources/Tauk/StreamingFileReader.swift:17 | `range(of: delimiter)`: a found index is in range and holds a newline |
| LineReader.FirstDelimiterIsFirst | Sources/Tauk/StreamingFileReader.swift:17 | no newline comes before the found one, and nothing is found only when the buffer holds no newline |
| LineReader.FirstDelimiterOfPrefix | Sources/Tauk/StreamingFileReader.swift:17-19 | bytes appended behind a newline do not move the first newline |
| LineReader.AfterLine | Sources/Tauk/StreamingFileReader.swift:36-39 | the line through the first newline and what is left make up the bytes exactly, and what is left is shorter |
| LineReader.LinesCount | Sources/Tauk/StreamingFileReader.swift:16-42 | when every line decodes, the lines handed out number one per newline plus one for an unterminated tail: no line is lost or split |
| LineReader.NewlinesOfNextLine | Sources/Tauk/StreamingFileReader.swift:36-39 | cutting one line removes exactly the newline that ends it; without a newline the bytes are an unterminated tail |
| LineReader.NewlineJoin | Sources/Tauk/StreamingFileReader.swift:36-39 | newline-free bytes, a newline and a rest hold one newline more than the rest, and are terminated exactly when the rest is |
| LineReader.NoNewlineCount | Sources/Tauk/StreamingFileReader.swift:17 | newline-free bytes hold no newline |
| LineReader.CutAtDelimiter | Sources/Tauk/StreamingFileReader.swift:36-41 | once the buffer holds a newline, the line cut, its decoding and the bytes left do not depend on the unread part of the file |
| LineReader.TailIsLast | Sources/Tauk/StreamingFileReader.swift:22-29 | an unterminated tail is handed out decoded but untrimmed, and the next call gives nothing |
| LineReader.AfterLinesShrink | Sources/Tauk/StreamingFileReader.swift:16-42 | each further `readLine` leaves no more bytes unread than the one before |
| LineReader.AfterLinesStrict | Sources/Tauk/StreamingFileReader.swift:16-42 | once a call finds bytes left, every later stop leaves strictly fewer |
| LineReader.LinesAfter | Sources/Tauk/StreamingFileReader.swift:16-42 | after `k` calls that each returned a line, the lines still to come are the lines from the `k`-th on |
| LineReader.LineAfter | Sources/Tauk/StreamingFileReader.swift:16-42 | call number `k + 1` returns the `k`-th line |
| LineReader.NotExhausted | Sources/Tauk/StreamingFileReader.swift:16-42 | while lines remain to be handed out, unread bytes remain |
| LineReader.NothingAfterLines | Sources/Tauk/StreamingFileReader.swift:16-42 | once every line has been handed out, the next call returns nothing |
| LineReader.ReadOn | Sources/Tauk/StreamingFileReader.swift:31-33 | appending the next chunk keeps the bytes taken so far a prefix of the file and the bytes not yet handed out unchanged |
| LineReader.StreamingFileReader.Remaining | Sources/Tauk/StreamingFileReader.swift:31-39 | the bytes already handed out followed by the buffer and the unread file are the file, in order |
| LineReader.StreamingFileReader.constructor | Sources/Tauk/StreamingFileReader.swift:11-14 | a new reader has an empty buffer at offset 0; a file that cannot be opened leaves no handle |
| LineReader.StreamingFileReader.Fill | Sources/Tauk/StreamingFileReader.swift:19-34 | chunks are appended in file order, only while the buffer holds no newline; every chunk but one that reaches end of file is a full 1024 bytes; no newline lies before the last chunk read, so at most 1023 bytes follow the newline found; the loop stops at the first newline, at end of file, or at once without a handle |
| LineReader.StreamingFileReader.FillBuffer | Sources/Tauk/StreamingFileReader.swift:17-34 | the loop on the reader's own buffer: nothing is read when the buffer already holds a newline, no byte is lost, and without a handle nothing changes |
| LineReader.StreamingFileReader.CutLine | Sources/Tauk/StreamingFileReader.swift:36-41 | the bytes through the first newline leave the buffer; the line is them decoded and trimmed, or nothing when they do not decode |
| LineReader.StreamingFileReader.TakeTail | Sources/Tauk/StreamingFileReader.swift:22-29 | at end of file a non-empty buffer is handed out decoded and untrimmed and then emptied; an empty one gives nothing |
| LineReader.StreamingFileReader.ReadLine | Sources/Tauk/StreamingFileReader.swift:16-42 | the line handed out is the next line of the unread bytes, which lose exactly that line; bytes are taken in file order; without a handle it gives nothing; a buffer holding a newline causes no read |
| TaukErrors.IssueTypeLabel | Sources/Tauk/TaukError.swift:44-55 | an issue kind not listed, and only such a kind, is labelled "Issue" |
| TaukErrors.IssueTypeLabelInjective | Sources/Tauk/TaukError.swift:44-55 | different issue kinds get different labels |
| TaukErrors.ErrorCodingKey | Sources/Tauk/TaukError.swift:36-42 | every error field except the code context has a JSON key, so the context is never encoded with the error |
| TaukErrors.ErrorCodingKeysDistinct | Sources/Tauk/TaukError.swift:36-42 | the keys are distinct |
| TaukErrors.CodeLineCodingKey | Sources/Tauk/TaukError.swift:13-16 | each `CodeLine` field has a non-empty JSON key |
| TaukErrors.CodeLineCodingKeysDistinct | Sources/Tauk/TaukError.swift:13-16 | the two `CodeLine` keys are distinct |
| TaukErrors.BeforeSize | Sources/Tauk/TaukError.swift:70-77 | the before-window never holds more than 9 lines or more than were pushed, and once full it never falls below 6 |
| TaukErrors.BlockExtend | Sources/Tauk/TaukError.swift:76-78 | a run of consecutive lines grows by appending its next line |
| TaukErrors.BeforeWindowStep | Sources/Tauk/TaukError.swift:70-77 | pushing a line drops the oldest 4 when 9 are held and then appends it, which gives the closed-form window of one more line |
| TaukErrors.FullWindowKeepsSix | Sources/Tauk/TaukError.swift:74-76 | a full window that takes one more line holds 6 |
| TaukErrors.AfterWindowStep | Sources/Tauk/TaukError.swift:84-86 | a line after the failing one joins the after-window while it holds fewer than 10, and later lines are read but discarded |
| TaukErrors.ContextShape | Sources/Tauk/TaukError.swift:63-95 | the context is absent exactly when the failing line is never read; otherwise it is a run of consecutive numbered lines, each with its text, the failing line at its place, at most 20 in all |
| TaukErrors.ContextOfLine15Of30 | Sources/Tauk/TaukError.swift:70-86 | 30 lines failing at line 15 give lines 9 to 25: 6 before and 10 after |
| TaukErrors.WindowAtEnd | Sources/Tauk/TaukError.swift:91-95 | at end of file the three windows concatenate to the closed-form context, or nothing without a center |
| TaukErrors.ScannedContext | Sources/Tauk/TaukError.swift:58-96 | the scan's windows give the issue's context, and the error's `codeExecuted` is the failing line's text when read and unchanged otherwise |
| TaukErrors.NextLine | Sources/Tauk/TaukError.swift:69 | a line the reader hands out is the next of the file's lines |
| TaukErrors.LastLine | Sources/Tauk/TaukError.swift:69 | when the reader hands out nothing, every line has been read |
| TaukErrors.PushLine | Sources/Tauk/TaukError.swift:70-86 | the loop body keeps each window equal to its closed form for one more line read |
| TaukErrors.ScanFile | Sources/Tauk/TaukError.swift:66-89 | the loop has no early exit: the reader is left where one `readLine` per line and one more leave it, which by `NotExhausted` and `AfterLinesStrict` is fewer unread bytes than any earlier stop; the windows are the closed-form windows of all the lines, with the failing line's text recorded when read |
| TaukErrors.GetCodeContext | Sources/Tauk/TaukError.swift:58-96 | nothing without a location; otherwise the context of the issue's file, nothing when the failing line is never reached; `codeExecuted` is set to that line's text or left unchanged |
| TaukErrors.LegacyTaukError | Sources/Tauk/Utils.swift:39-45 | the older initializer keeps message and method name and never sets the code context or the executed line |
| TaukErrors.IssueError | Sources/Tauk/TaukError.swift:27-34 | the record the initializer builds: the issue's label, message and method name, a line number exactly when the issue has a location, and the extracted context and executed line, one present exactly when the other is |
| TaukErrors.NewTaukError | Sources/Tauk/TaukError.swift:27-34 | the initializer, run through `getCodeContext`, builds exactly that record |
| TestResults.RawValue | Sources/Tauk/TestResult.swift:3-9 | each status's raw value is its case name, a non-empty lower-case word |
| TestResults.StatusNamed | Sources/Tauk/TestResult.swift:3-9 | a status found by raw value has that raw value |
| TestResults.RawValueRoundTrip | Sources/Tauk/TestResult.swift:3-9 | every status is found by its raw value |
| TestResults.RawValueInjective | Sources/Tauk/TestResult.swift:3-9 | the five raw values are distinct |
| TestResults.NewTestResult | Sources/Tauk/TestResult.swift:11-33 | a new result is undetermined, started now, not ended, and has no error, log, screenshot or view |
| TestResults.ElapsedTimeMilliseconds | Sources/Tauk/TestResult.swift:20-25 | absent exactly when there is no end time; otherwise (end − start)×1000 truncated toward zero, non-negative when end ≥ start |
| TestResults.NewResultHasNoElapsedTime | Sources/Tauk/TestResult.swift:20-25 | a new result has no elapsed time |
| TestResults.ElapsedTimeExample | Sources/Tauk/TestResult.swift:24 | 100 s to 102.3475 s is 2347 ms |
| TestResults.CalcElapsedTimeMilliseconds | Sources/Tauk/Utils.swift:120-126 | the older computation is absent exactly when there is no end time |
| TestResults.ElapsedTimeAgreesWithLegacy | Sources/Tauk/Utils.swift:120-126 | the older computation agrees with `elapsedTimeMilliseconds` |
| TestResults.FinalStatus | Sources/Tauk/Tauk.swift:110-114 | excluded exactly when the flag is set, even over a failure; otherwise failed stays failed and everything else passes |
| TestResults.FinalStatusIdempotent | Sources/Tauk/Tauk.swift:110-114 | finalising twice is finalising once, and only passed, failed or excluded come out |
| Upload.MethodName | Sources/Tauk/TaukUpload.swift:3-9 | each request method's raw value is an HTTP verb of at least three letters |
| Upload.MethodNameInjective | Sources/Tauk/TaukUpload.swift:3-9 | different methods send different verbs |
| Upload.Message | Sources/Tauk/TaukUpload.swift:30-53 | every error has a non-empty fixed message |
| Upload.MessageRoundTrip | Sources/Tauk/TaukUpload.swift:30-53 | every error is recovered from its message |
| Upload.MessagesDistinct | Sources/Tauk/TaukUpload.swift:30-53 | different errors have different messages |
| Upload.UploadEndpoint | Sources/Tauk/TaukUpload.swift:106-118 | a POST (its verb "POST" is what the request is sent with) to "https://www.tauk.com/api/v1/session/upload" whose headers are exactly `api_token` and `project_id` with the given values |
| Upload.UploadEndpointInjective | Sources/Tauk/TaukUpload.swift:112-117 | different credentials give different endpoints |
| Upload.PayloadOf | Sources/Tauk/TaukUpload.swift:73-86 | the status is sent as its raw value; the context is the error's; platform and version come from the device; the elapsed time is the result's `elapsedTimeMilliseconds`; automation type "XCTest" and language "Swift"; the other fields are copied |
| Upload.PayloadContextHasError | Sources/Tauk/TaukUpload.swift:81 | a context is sent only alongside the error it belongs to |
| Upload.PayloadCodingKey | Sources/Tauk/TaukUpload.swift:88-103 | every payload field has a non-empty JSON key |
| Upload.PayloadCodingKeysDistinct | Sources/Tauk/TaukUpload.swift:88-103 | no two payload fields share a JSON key |
| Upload.Classify | Sources/Tauk/TaukUpload.swift:158-179 | success with the data exactly for 200–299; any other status gives its listed error or "unexpected status code" |
| Upload.ClassifyExactly | Sources/Tauk/TaukUpload.swift:158-179 | 400, 401, 404, 500 and 503 each give their own error and only theirs; every other non-2xx status is unexpected |
| Upload.SessionOf | Sources/Tauk/TaukUpload.swift:136-179 | an upload counts at most one attempt per reply; only attempts whose callback ran are counted, so when the replies run out the request sent last is still waiting |
| Upload.AttemptsBound | Sources/Tauk/TaukUpload.swift:120-146 | at most max(1, 3 − count) attempts, so a counter earlier uploads left at 2 or more allows no retry |
| Upload.HttpRepliesNeverRetry | Sources/Tauk/TaukUpload.swift:148-179 | a reply without a transport error ends the upload after one attempt; a non-HTTP response or missing data never reaches the completion handler |
| Upload.ThreeAttemptsFromZero | Sources/Tauk/TaukUpload.swift:137-145 | from a fresh counter, transport failures give exactly 3 attempts and then `unknown` |
| Upload.UnknownOnlyAfterTransportFailure | Sources/Tauk/TaukUpload.swift:139-146 | `unknown` reaches the handler only after a transport failure that brought the counter to 3 |
| Upload.TaukUploader.constructor | Sources/Tauk/TaukUpload.swift:120 | the counter starts at 0 |
| Upload.TaukUploader.Upload | Sources/Tauk/TaukUpload.swift:122-182 | the counter grows by one per attempt whose callback ran and is never reset; the handler receives what the attempts decide; the requests of those attempts are all the original one, so every retry resends the same request |
| TaukCase.RecentLog | Sources/Tauk/Tauk.swift:49-56 | the newest entries of the queue in order: all of them up to 50, otherwise the newest 51 |
| TaukCase.Enqueued | Sources/Tauk/Tauk.swift:154-159 | the queue after one console line: the new entry is last and the queue grows by at most one |
| TaukCase.EnqueuedBound | Sources/Tauk/Tauk.swift:154-159 | the queue stays within 100; appending to a full queue first drops the oldest 25, leaving 76; the new entry is last, and the rest is the newest part of the old queue |
| TaukCase.SuffixAppend | Sources/Tauk/Tauk.swift:154-159 | appending the same entries keeps the newest part of a queue the newest part |
| TaukCase.SuffixTrans | Sources/Tauk/Tauk.swift:154-159 | the newest part of the newest part is the newest part |
| TaukCase.KeptCount | Sources/Tauk/Tauk.swift:154-159 | one append to a queue of `n` keeps at least min(n + 1, 76) of the entries seen |
| TaukCase.EnqueuedAllKeepsNewest | Sources/Tauk/Tauk.swift:154-159 | whatever lines arrive, the queue stays within 100, holds the newest lines in arrival order, and keeps at least the newest 76 of all it has seen, or all of them |
| TaukCase.TaukXCTestCase.constructor | Sources/Tauk/Tauk.swift:4-16 | the stored properties start unset: not excluded, timeout 0, empty path and empty queue |
| TaukCase.TaukXCTestCase.TaukInitialize | Sources/Tauk/Tauk.swift:19-29 | stores the configuration; an absent exclude flag means not excluded and an absent timeout means 4 seconds; the result and the queue are untouched |
| TaukCase.TaukXCTestCase.GetScreenshot | Sources/Tauk/Tauk.swift:40-47 | the application's screenshot, and nothing exactly when there is no application |
| TaukCase.TaukXCTestCase.GetViewSource | Sources/Tauk/Tauk.swift:31-38 | the application's mirrored view tree, with one node per element; nothing without an application |
| TaukCase.TaukXCTestCase.Record | Sources/Tauk/Tauk.swift:58-65 | a present result becomes failed with the error of this issue, so the latest issue wins, and is given the current log, screenshot and view; without a result nothing changes |
| TaukCase.TaukXCTestCase.SetUp | Sources/Tauk/Tauk.swift:67-74 | a fresh undetermined result named by the custom name, or else by the method part of the test's name |
| TaukCase.TaukXCTestCase.TearDown | Sources/Tauk/Tauk.swift:76-129 | nothing is sent without a token, a project id or a result; otherwise a copy is stamped, backfilled only where still absent, finalised, and sent with the credentials |
| TaukCase.TaukXCTestCase.HandlePipeNotification | Sources/Tauk/Tauk.swift:148-161 | a decoded console line is queued with its arrival time and an undecodable one is dropped; the queue stays within 100 |

## Behaviour of the code worth knowing

- **Before-window size.** The before-window is trimmed by 4 when it holds 9, so it settles between 6 and 9 lines rather than at 9 (`TaukErrors.BeforeSize`). Failing at line 15, the before lines are 9 to 14.
- **No early exit.** The extractor keeps reading after 10 after-lines are held. It stops only when the reader hands out nothing: at end of file, or at the first line that does not decode, which ends the lines it sees. `TaukErrors.ScanFile` states this as the reader's final position: one call per line and one more.
- **The failing line's text.** The text recorded as the executed code is the line as the reader hands it out: trimmed, except for an unterminated last line, which is handed out untrimmed.
- **Unterminated tail.** The reader hands out an unterminated last line decoded but not trimmed.
- **Log size.** `getLogEntries` hands out 51 entries, not 50, when the queue holds more than 50.
- **Exclusion wins.** At tear-down the exclude flag wins over a failure: an excluded failed test is reported as excluded.
- **Shared counter.** The retry counter is process-wide and never reset, so later uploads get fewer retries, possibly none.
- **The stored result is not finalised.** Tear-down finalises a copy of the result (`guard var`). `TearDown` therefore changes no field and returns the request it hands to the uploader.

## Left out

- The console tee (`openConsolePipe`, `dup2`, `Pipe`, notifications, writing data back to standard output) and `OutputListener` are operating-system I/O. Only the queue update of `handlePipeNotification` is modelled, with the decoded line as its input.
- Swift's `String` splits and compares by grapheme cluster; here a string is a sequence of characters (`Utils.Components`, `Utils.FormatTestMethodName`). The two agree on the ASCII Objective-C selector names these functions receive.
- The `DispatchGroup` wait with its timeout and the `URLSession` task are asynchronous. Each attempt's callback is modelled on the reply it receives, and the timeout is only stored.
- The request's `Accept` and `Content-Type` headers, the JSON encoding of the payload and the `print` warnings are not modelled. The payload is kept as a value and its JSON keys as a mapping.
- Upload.TaukUploader.Upload: the invalid-URL guard is not modelled, because the URL is a constant that always parses.
- `getDeviceInformation`, `DeviceInfo.swift` and its DeviceKit calls are not modelled. `DeviceInfo` is reduced to the platform name, its version and the bundle id.
- `UploadPayload.swift` is a superseded copy of the payload mapping with a stub upload, and is not part of this model.
- The application under test (`TaukCase.App`) is a snapshot: its element tree and screenshot are fixed values. A screenshot or view captured at `record` is therefore the same as one captured later at tear-down; how the application changes between the two is not modelled.
- The screenshot is the opaque base64 text the application gives. The view source is kept as the mirrored tree rather than its AEXML rendering, and the tree is built as a value instead of by `addChild` in place.
- Frame coordinates and times are `real`. Floating-point rounding is not modelled, and neither are values outside `Int`'s range.
- UTF-8 decoding and whitespace trimming are functions the host supplies. The reader's file handle is the file's contents, read in full chunks of 1024 bytes; a handle that returns shorter chunks is not modelled.
- The copies of `getCodeContext`, `StreamingFileReader` and `TestStatus` in `Utils.swift` have the same logic as the versions modelled, and are modelled once.
- `LogEntry` is not among the files. It is modelled as a message with its arrival time.
- TaukCase.TaukXCTestCase.TaukInitialize: Swift's default arguments are not modelled: `exclude` defaulting to `false`, `userProvidedBundleId` to `Bundle.main.bundleIdentifier` and `callerFilePath` to `#filePath`. Every argument is passed explicitly; only the `??` defaults inside the body (not excluded, 4 seconds) are modelled.
- TaukCase.TaukXCTestCase.SetUp: `Tauk.swift` line 73 calls a `TestResult` initializer without a file name, which `TestResult.swift` does not declare. The model takes the file name and the device description as arguments.
- `TestResult.swift` declares no `log` or `callerFilePath`, although `Tauk.swift` sets both. The model gives the record both fields.
- TaukCase.TaukXCTestCase.Record and TaukCase.TaukXCTestCase.SetUp: `formatTestMethodName` traps on a name without a space. These two require the test's name to have one wherever it is parsed.
