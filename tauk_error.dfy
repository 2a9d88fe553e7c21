/**
 * The error record of a failed test and the source-context window around the
 * failing line (Sources/Tauk/TaukError.swift).
 *
 * The window is read with `StreamingFileReader`, line by line from line 1. Up
 * to 9 lines before the failing line are kept: when 9 are held and another
 * arrives, the oldest 4 are dropped in one batch, so the window settles between
 * 6 and 9 lines. The failing line itself is kept, and up to 10 lines after it;
 * the file is read to its end either way.
 */
module TaukErrors {
  import opened Wrappers
  import opened LineReader

  datatype CodeLine = CodeLine(lineNumber: int, lineCode: string)

  /** XCTIssue.IssueType; cases added by later SDKs are `UnknownIssueType`. */
  datatype IssueType =
    | AssertionFailure | PerformanceRegression | System | ThrownError
    | UncaughtException | UnmatchedExpectedFailure | UnknownIssueType

  datatype SourceLocation = SourceLocation(fileUrl: string, lineNumber: int)

  /** The parts of an XCTIssue the reporter reads. */
  datatype Issue = Issue(issueType: IssueType, compactDescription: string, location: Option<SourceLocation>)

  /**
   * What the extractor takes from its host: the bytes of a file by URL (None
   * when it cannot be opened), UTF-8 decoding and whitespace trimming.
   */
  datatype Host = Host(
    fileContents: string -> Option<seq<byte>>,
    decode: seq<byte> -> Option<string>,
    trim: string -> string)

  datatype TaukError = TaukError(
    errorType: Option<string>,
    message: string,
    lineNumber: Option<int>,
    invokedFunction: string,
    codeExecuted: Option<string>,
    codeContext: Option<seq<CodeLine>>)

  // ---------------------------------------------------------------------------
  // getIssueType and the JSON keys
  // ---------------------------------------------------------------------------

  function IssueTypeLabel(t: IssueType): (name: string)
    ensures name == "Issue" <==> t == UnknownIssueType
  {
    match t
    case AssertionFailure => "Assertion Failure"
    case PerformanceRegression => "Performance Regression"
    case System => "Internal Failure"
    case ThrownError => "Error Thrown"
    case UncaughtException => "Uncaught Exception"
    case UnmatchedExpectedFailure => "Unmatched Expected Failure"
    case UnknownIssueType => "Issue"
  }

  /** Distinct issue types get distinct labels. */
  lemma IssueTypeLabelInjective(a: IssueType, b: IssueType)
    ensures IssueTypeLabel(a) == IssueTypeLabel(b) ==> a == b
  {
  }

  datatype ErrorField = ErrorType | Message | LineNumber | InvokedFunction | CodeExecuted | CodeContext

  /** The JSON key of each `TaukError` field; the context has none, so it is never encoded with the error. */
  function ErrorCodingKey(f: ErrorField): (key: Option<string>)
    ensures key.None? <==> f == CodeContext
  {
    match f
    case ErrorType => Some("error_type")
    case Message => Some("error_msg")
    case LineNumber => Some("line_number")
    case InvokedFunction => Some("invoked_func")
    case CodeExecuted => Some("code_executed")
    case CodeContext => None
  }

  lemma ErrorCodingKeysDistinct(f: ErrorField, g: ErrorField)
    requires f != g && f != CodeContext && g != CodeContext
    ensures ErrorCodingKey(f) != ErrorCodingKey(g)
  {
  }

  datatype CodeLineField = LineNumberField | LineCodeField

  /** The JSON key of each `CodeLine` field. */
  function CodeLineCodingKey(f: CodeLineField): (key: string)
    ensures |key| > 0
  {
    match f
    case LineNumberField => "line_number"
    case LineCodeField => "line_code"
  }

  lemma CodeLineCodingKeysDistinct(f: CodeLineField, g: CodeLineField)
    ensures CodeLineCodingKey(f) == CodeLineCodingKey(g) ==> f == g
  {
  }

  // ---------------------------------------------------------------------------
  // The context window, in closed form
  // ---------------------------------------------------------------------------

  const BeforeCapacity: nat := 9
  const BeforeTrim: nat := 4
  const AfterCapacity: nat := 10

  /** How many lines the before-window holds once `pushed` lines have been pushed into it. */
  function BeforeSize(pushed: nat): (size: nat)
    ensures size <= pushed && size <= BeforeCapacity
    ensures pushed >= BeforeCapacity ==> BeforeCapacity - BeforeTrim + 1 <= size
  {
    if pushed <= BeforeCapacity then pushed else 6 + (pushed - 10) % 4
  }

  /** `count` consecutive lines of the file, numbered from 1, starting at line `first`. */
  function Block(lines: seq<string>, first: int, count: nat): seq<CodeLine>
    requires 1 <= first && first - 1 + count <= |lines|
  {
    seq(count, k requires 0 <= k < count => CodeLine(first + k, lines[first - 1 + k]))
  }

  /** The before-window after `pushed` lines: the last `BeforeSize(pushed)` of them. */
  function BeforeWindow(lines: seq<string>, pushed: nat): seq<CodeLine>
    requires pushed <= |lines|
  {
    Block(lines, pushed - BeforeSize(pushed) + 1, BeforeSize(pushed))
  }

  function Min(a: int, b: int): int {
    if a <= b then a else b
  }

  /** The after-window once lines up to `read` have been read: the lines right after the failing one, at most 10. */
  function AfterWindow(lines: seq<string>, issueLine: int, read: nat): seq<CodeLine>
    requires 1 <= issueLine <= read <= |lines|
  {
    Block(lines, issueLine + 1, Min(read - issueLine, AfterCapacity))
  }

  /** The context of failing line `issueLine` in a file whose lines are `lines`. */
  function ContextOfLines(lines: seq<string>, issueLine: int): Option<seq<CodeLine>> {
    if 1 <= issueLine <= |lines| then
      Some(BeforeWindow(lines, issueLine - 1)
        + [CodeLine(issueLine, lines[issueLine - 1])]
        + AfterWindow(lines, issueLine, |lines|))
    else None
  }

  /** The lines the reader yields for the file at `url`; a file that cannot be opened yields none. */
  function FileLines(host: Host, url: string): seq<string> {
    Lines(host.fileContents(url).GetOr([]), host.decode, host.trim)
  }

  function ExtractedContext(issue: Issue, host: Host): Option<seq<CodeLine>> {
    match issue.location
    case None => None
    case Some(loc) => ContextOfLines(FileLines(host, loc.fileUrl), loc.lineNumber)
  }

  /** The text of the failing line, when the reader reaches it. */
  function ExecutedLine(issue: Issue, host: Host): Option<string> {
    match issue.location
    case None => None
    case Some(loc) =>
      var lines := FileLines(host, loc.fileUrl);
      if 1 <= loc.lineNumber <= |lines| then Some(lines[loc.lineNumber - 1]) else None
  }

  // ---------------------------------------------------------------------------
  // Properties of the window
  // ---------------------------------------------------------------------------

  lemma BlockExtend(lines: seq<string>, first: int, count: nat)
    requires 1 <= first && first + count <= |lines|
    ensures Block(lines, first, count + 1) == Block(lines, first, count) + [CodeLine(first + count, lines[first - 1 + count])]
  {
  }

  /** One more line read after the failing one joins the after-window while it holds fewer than 10. */
  lemma AfterWindowStep(lines: seq<string>, issueLine: int, read: nat)
    requires 1 <= issueLine <= read < |lines|
    ensures var w := AfterWindow(lines, issueLine, read);
      AfterWindow(lines, issueLine, read + 1) == if |w| < AfterCapacity then w + [CodeLine(read + 1, lines[read])] else w
  {
    if read - issueLine < AfterCapacity {
      BlockExtend(lines, issueLine + 1, read - issueLine);
    }
  }

  /**
   * One step of the batched trim: pushing line `pushed + 1` drops the oldest 4
   * when the window holds 9, and otherwise only appends.
   */
  lemma {:induction false} BeforeWindowStep(lines: seq<string>, pushed: nat)
    requires pushed < |lines|
    ensures var w := BeforeWindow(lines, pushed);
      (if |w| == BeforeCapacity then w[BeforeTrim..] else w) + [CodeLine(pushed + 1, lines[pushed])]
        == BeforeWindow(lines, pushed + 1)
  {
    var size := BeforeSize(pushed);
    var first := pushed - size + 1;
    var w := BeforeWindow(lines, pushed);
    if size == BeforeCapacity {
      assert BeforeSize(pushed + 1) == 6;
      assert w[BeforeTrim..] == Block(lines, first + 4, 5);
      BlockExtend(lines, first + 4, 5);
    } else {
      assert BeforeSize(pushed + 1) == size + 1;
      BlockExtend(lines, first, size);
    }
  }

  /** A full window and one more line before the failure leaves 6 lines. */
  lemma FullWindowKeepsSix(pushed: nat)
    requires BeforeSize(pushed) == BeforeCapacity
    ensures BeforeSize(pushed + 1) == BeforeCapacity - BeforeTrim + 1
  {
  }

  /**
   * The context is absent exactly when the failing line is never read; when
   * present it is a run of consecutive lines of the file, each with the text
   * read at its number, the failing line at its place, at most 20 in all.
   */
  lemma ContextShape(lines: seq<string>, issueLine: int)
    ensures ContextOfLines(lines, issueLine).None? <==> !(1 <= issueLine <= |lines|)
    ensures ContextOfLines(lines, issueLine).Some? ==>
      var c := ContextOfLines(lines, issueLine).value;
      var b := BeforeSize(issueLine - 1);
      && |c| == b + 1 + Min(|lines| - issueLine, AfterCapacity)
      && 1 <= |c| <= 20
      && c[b] == CodeLine(issueLine, lines[issueLine - 1])
      && (forall k :: 0 <= k < |c| ==> c[k] == CodeLine(issueLine - b + k, lines[issueLine - b + k - 1]))
  {
    if 1 <= issueLine <= |lines| {
      var c := ContextOfLines(lines, issueLine).value;
      var b := BeforeSize(issueLine - 1);
      var before := BeforeWindow(lines, issueLine - 1);
      var after := AfterWindow(lines, issueLine, |lines|);
      assert c == before + [CodeLine(issueLine, lines[issueLine - 1])] + after;
      forall k | 0 <= k < |c|
        ensures c[k] == CodeLine(issueLine - b + k, lines[issueLine - b + k - 1])
      {
        if k < b {
          assert c[k] == before[k];
        } else if k > b {
          assert c[k] == after[k - b - 1];
        }
      }
    }
  }

  /** The worked case: 30 lines failing at line 15 give lines 9 to 25 (6 before, 10 after). */
  lemma ContextOfLine15Of30(lines: seq<string>)
    requires |lines| == 30
    ensures ContextOfLines(lines, 15) == Some(Block(lines, 9, 17))
  {
    ContextShape(lines, 15);
    var c := ContextOfLines(lines, 15).value;
    assert BeforeSize(14) == 6;
    assert |c| == 17;
    var block := Block(lines, 9, 17);
    assert |block| == 17;
    forall k | 0 <= k < 17
      ensures c[k] == block[k]
    {
      assert c[k] == CodeLine(9 + k, lines[8 + k]);
    }
    assert c == block;
  }

  // ---------------------------------------------------------------------------
  // getCodeContext and the initializers
  // ---------------------------------------------------------------------------

  /** How many lines have entered the before-window once `read` lines were read. */
  function Pushed(issueLine: int, read: nat): nat {
    if 1 <= issueLine <= read then issueLine - 1 else read
  }

  /** Once the whole file is read, the three windows the loop keeps make up the closed-form context. */
  lemma WindowAtEnd(lines: seq<string>, issueLine: int, before: seq<CodeLine>, center: Option<CodeLine>, after: seq<CodeLine>)
    requires before == BeforeWindow(lines, Pushed(issueLine, |lines|))
    requires center == if 1 <= issueLine < |lines| + 1 then Some(CodeLine(issueLine, lines[issueLine - 1])) else None
    requires after == if 1 <= issueLine < |lines| + 1 then AfterWindow(lines, issueLine, |lines|) else []
    ensures ContextOfLines(lines, issueLine) == if center.None? then None else Some(before + [center.value] + after)
  {
  }

  /** What the scan of the issue's file leaves behind is the context and the updated error. */
  lemma ScannedContext(issue: Issue, host: Host, error: TaukError, lines: seq<string>, issueLine: int,
                       before: seq<CodeLine>, center: Option<CodeLine>, after: seq<CodeLine>, updated: TaukError)
    requires issue.location.Some? && issueLine == issue.location.value.lineNumber
    requires lines == FileLines(host, issue.location.value.fileUrl)
    requires before == BeforeWindow(lines, Pushed(issueLine, |lines|))
    requires center == (if 1 <= issueLine < |lines| + 1 then Some(CodeLine(issueLine, lines[issueLine - 1])) else None)
    requires after == (if 1 <= issueLine < |lines| + 1 then AfterWindow(lines, issueLine, |lines|) else [])
    requires updated == if 1 <= issueLine < |lines| + 1 then error.(codeExecuted := Some(lines[issueLine - 1])) else error
    ensures ExtractedContext(issue, host) == if center.None? then None else Some(before + [center.value] + after)
    ensures updated == error.(codeExecuted := if ExecutedLine(issue, host).Some? then ExecutedLine(issue, host) else error.codeExecuted)
  {
    WindowAtEnd(lines, issueLine, before, center, after);
  }

  /** A line handed out by the reader is the next of the file's lines. */
  lemma NextLine(lines: seq<string>, current: int, rest: seq<byte>, decode: seq<byte> -> Option<string>, trim: string -> string)
    requires 1 <= current <= |lines| + 1 && Lines(rest, decode, trim) == lines[current - 1..]
    requires LineOf(rest, decode, trim).Some?
    ensures current <= |lines| && lines[current - 1] == LineOf(rest, decode, trim).value
    ensures Lines(AfterLine(rest), decode, trim) == lines[current..]
  {
    var tail := lines[current - 1..];
    assert Lines(rest, decode, trim) == [LineOf(rest, decode, trim).value] + Lines(AfterLine(rest), decode, trim);
    assert |tail| >= 1;
    assert tail[0] == lines[current - 1];
    assert tail[1..] == lines[current..];
  }

  /** When the reader hands out nothing, every line has been read. */
  lemma LastLine(lines: seq<string>, current: int, rest: seq<byte>, decode: seq<byte> -> Option<string>, trim: string -> string)
    requires 1 <= current <= |lines| + 1 && Lines(rest, decode, trim) == lines[current - 1..]
    requires LineOf(rest, decode, trim).None?
    ensures current == |lines| + 1
  {
  }

  /**
   * The body of the loop of `getCodeContext` for line number `current`, whose
   * text is `text`: before the failing line it enters the before-window, at
   * the failing line it becomes the center, and after it it joins the
   * after-window while that holds fewer than 10 lines.
   */
  method PushLine(ghost lines: seq<string>, issueLine: int, current: int, text: string,
                  before: seq<CodeLine>, center: Option<CodeLine>, after: seq<CodeLine>)
    returns (before': seq<CodeLine>, center': Option<CodeLine>, after': seq<CodeLine>)
    requires 1 <= current <= |lines| && lines[current - 1] == text
    requires before == BeforeWindow(lines, Pushed(issueLine, current - 1))
    requires center == if 1 <= issueLine < current then Some(CodeLine(issueLine, lines[issueLine - 1])) else None
    requires after == if 1 <= issueLine < current then AfterWindow(lines, issueLine, current - 1) else []
    ensures before' == BeforeWindow(lines, Pushed(issueLine, current))
    ensures center' == if 1 <= issueLine < current + 1 then Some(CodeLine(issueLine, lines[issueLine - 1])) else None
    ensures after' == if 1 <= issueLine < current + 1 then AfterWindow(lines, issueLine, current) else []
  {
    before', center', after' := before, center, after;
    if current != issueLine && center.None? {
      BeforeWindowStep(lines, current - 1);
      if |before| == BeforeCapacity {
        before' := before'[BeforeTrim..];
      }
      before' := before' + [CodeLine(current, text)];
    }

    if current == issueLine {
      center' := Some(CodeLine(current, text));
    }

    if 1 <= issueLine < current {
      AfterWindowStep(lines, issueLine, current - 1);
    }
    if center'.Some? && current != issueLine && |after| < AfterCapacity {
      after' := after' + [CodeLine(current, text)];
    }
  }

  /**
   * `getCodeContext`: reads the issue's file to its end and returns its context
   * window; as a mutating method it also records the failing line's text in
   * `codeExecuted`, and leaves it unchanged when that line is never read.
   */
  method GetCodeContext(error: TaukError, issue: Issue, host: Host) returns (context: Option<seq<CodeLine>>, updated: TaukError)
    ensures context == ExtractedContext(issue, host)
    ensures updated == error.(codeExecuted := if ExecutedLine(issue, host).Some? then ExecutedLine(issue, host) else error.codeExecuted)
  {
    if issue.location.None? {
      return None, error;
    }
    var issueLine := issue.location.value.lineNumber;
    var reader := new StreamingFileReader(host.fileContents(issue.location.value.fileUrl), host.decode, host.trim);
    ghost var lines := FileLines(host, issue.location.value.fileUrl);
    assert reader.Remaining() == host.fileContents(issue.location.value.fileUrl).GetOr([]);
    var before, center, after;
    before, center, after, updated := ScanFile(reader, issueLine, error, lines);
    context := if center.None? then None else Some(before + [center.value] + after);
    ScannedContext(issue, host, error, lines, issueLine, before, center, after, updated);
  }

  /**
   * The loop of `getCodeContext`: reads every line `reader` hands out, keeps
   * the windows around line `issueLine`, and records that line's text in the
   * error when it is read. There is no early exit: the loop ends only when the
   * reader hands out nothing, which is at end of file or at the first line
   * that does not decode (where `lines` ends too); so the reader is left after
   * one call per line and one more: by `NotExhausted` and
   * `AfterLinesStrict`, a stop after fewer calls would leave more bytes unread.
   */
  method ScanFile(reader: StreamingFileReader, issueLine: int, error: TaukError, ghost lines: seq<string>)
    returns (before: seq<CodeLine>, center: Option<CodeLine>, after: seq<CodeLine>, updated: TaukError)
    requires reader.Valid() && lines == Lines(reader.Remaining(), reader.decode, reader.trim)
    modifies reader`pos, reader`buffer, reader`consumed
    ensures reader.Valid() && reader.Remaining() == AfterLines(old(reader.Remaining()), |lines| + 1)
    ensures
      && before == BeforeWindow(lines, Pushed(issueLine, |lines|))
      && center == (if 1 <= issueLine < |lines| + 1 then Some(CodeLine(issueLine, lines[issueLine - 1])) else None)
      && after == (if 1 <= issueLine < |lines| + 1 then AfterWindow(lines, issueLine, |lines|) else [])
      && updated == if 1 <= issueLine < |lines| + 1 then error.(codeExecuted := Some(lines[issueLine - 1])) else error
  {
    before, center, after, updated := [], None, [], error;
    var current := 1;
    ghost var rest0 := reader.Remaining();
    while true
      invariant reader.Valid()
      invariant reader.Remaining() == AfterLines(rest0, current - 1)
      invariant 1 <= current <= |lines| + 1
      invariant Lines(reader.Remaining(), reader.decode, reader.trim) == lines[current - 1..]
      invariant before == BeforeWindow(lines, Pushed(issueLine, current - 1))
      invariant center == if 1 <= issueLine < current then Some(CodeLine(issueLine, lines[issueLine - 1])) else None
      invariant after == if 1 <= issueLine < current then AfterWindow(lines, issueLine, current - 1) else []
      invariant updated == if 1 <= issueLine < current then error.(codeExecuted := Some(lines[issueLine - 1])) else error
      decreases |reader.Remaining()|
    {
      ghost var rest := reader.Remaining();
      var line := reader.ReadLine();
      if line.None? {
        LastLine(lines, current, rest, reader.decode, reader.trim);
        break;
      }
      NextLine(lines, current, rest, reader.decode, reader.trim);
      var text := line.value;

      if current == issueLine {
        updated := updated.(codeExecuted := Some(text));
      }
      before, center, after := PushLine(lines, issueLine, current, text, before, center, after);
      current := current + 1;
    }
  }

  /**
   * The error record of the older revision (Sources/Tauk/Utils.swift): the same
   * fields, but the code context is never computed.
   */
  function LegacyTaukError(issue: Issue, testMethodName: string): (error: TaukError)
    ensures error.codeContext.None? && error.codeExecuted.None?
    ensures error.message == issue.compactDescription && error.invokedFunction == testMethodName
  {
    TaukError(
      Some(IssueTypeLabel(issue.issueType)),
      issue.compactDescription,
      if issue.location.Some? then Some(issue.location.value.lineNumber) else None,
      testMethodName,
      None,
      None)
  }

  /**
   * The record `TaukError(issue:testMethodName:)` builds when files are read
   * through `host`: the legacy fields, with the context and the executed line
   * either both present or both absent.
   */
  function IssueError(issue: Issue, testMethodName: string, host: Host): (error: TaukError)
    ensures error.errorType == Some(IssueTypeLabel(issue.issueType))
    ensures error.message == issue.compactDescription && error.invokedFunction == testMethodName
    ensures error.lineNumber.Some? <==> issue.location.Some?
    ensures error.codeContext.Some? <==> error.codeExecuted.Some?
  {
    LegacyTaukError(issue, testMethodName).(
      codeContext := ExtractedContext(issue, host),
      codeExecuted := ExecutedLine(issue, host))
  }

  /**
   * `TaukError(issue:testMethodName:)`: the legacy record with the context of
   * the issue's file and the failing line's text filled in.
   */
  method NewTaukError(issue: Issue, testMethodName: string, host: Host) returns (error: TaukError)
    ensures error == IssueError(issue, testMethodName, host)
  {
    error := TaukError(
      Some(IssueTypeLabel(issue.issueType)),
      issue.compactDescription,
      if issue.location.Some? then Some(issue.location.value.lineNumber) else None,
      testMethodName,
      None,
      None);
    var context;
    context, error := GetCodeContext(error, issue, host);
    error := error.(codeContext := context);
  }
}
