/**
 * The per-test state of `TaukXCTestCase` (Sources/Tauk/Tauk.swift): the
 * configuration set by `taukInitialize`, the bounded queue of captured console
 * lines, the result record created at set-up, updated by `record` and
 * finalised at tear-down.
 *
 * The application under test is reduced to its element tree and the
 * screenshot it would give; clocks are parameters. The console plumbing that
 * feeds `handlePipeNotification`, and the hand-off of the finalised result to
 * the uploader, are outside the model: tear-down returns the request it would
 * upload.
 */
module TaukCase {
  import opened Wrappers
  import opened Utils
  import opened TaukErrors
  import opened TestResults
  import opened Upload

  /** The queue holds at most this many console lines. */
  const LogCapacity: nat := 100
  /** How many of the oldest lines a full queue drops at once. */
  const LogEviction: nat := 25
  /** How many of the newest lines `getLogEntries` hands out when the queue holds more than 50. */
  const LogTail: nat := 51

  const DefaultUploadTimeout: real := 4.0

  /** The application under test: its element tree and the screenshot (base64 PNG) it would take. */
  datatype App = App(root: Element, screenshotBase64: string)

  function ScreenshotOf(app: Option<App>): Option<string> {
    if app.Some? then Some(app.value.screenshotBase64) else None
  }

  function ViewSourceOf(app: Option<App>): Option<ViewNode> {
    if app.Some? then Some(ViewOf(app.value.root)) else None
  }

  // ---------------------------------------------------------------------------
  // The log queue
  // ---------------------------------------------------------------------------

  predicate IsSuffix(tail: seq<LogEntry>, whole: seq<LogEntry>) {
    |tail| <= |whole| && whole[|whole| - |tail|..] == tail
  }

  /** `getLogEntries`: the newest entries of the queue, all of them while there are at most 50. */
  function RecentLog(q: seq<LogEntry>): (tail: seq<LogEntry>)
    ensures IsSuffix(tail, q)
    ensures |tail| == Min(|q|, LogTail)
    ensures |q| <= 50 ==> tail == q
  {
    if |q| > 50 then q[|q| - 51..|q|] else q
  }

  /** The queue after one console line is appended by `handlePipeNotification`. */
  function Enqueued(q: seq<LogEntry>, e: LogEntry): (r: seq<LogEntry>)
    ensures |r| >= 1 && r[|r| - 1] == e
    ensures |r| <= |q| + 1
  {
    (if |q| == LogCapacity then q[LogEviction..] else q) + [e]
  }

  /**
   * The queue never exceeds 100 entries: appending to a full queue first drops
   * the oldest 25, leaving 76. The new entry is last, and what remains is the
   * newest part of the old queue followed by it.
   */
  lemma EnqueuedBound(q: seq<LogEntry>, e: LogEntry)
    requires |q| <= LogCapacity
    ensures var r := Enqueued(q, e);
      && |r| <= LogCapacity
      && (|q| == LogCapacity ==> |r| == LogCapacity - LogEviction + 1)
      && (|q| < LogCapacity ==> r == q + [e])
      && r[|r| - 1] == e
      && IsSuffix(r, q + [e])
  {
    var r := Enqueued(q, e);
    if |q| == LogCapacity {
      assert (q + [e])[LogEviction..] == r;
    }
  }

  /** The queue after a run of console lines, in arrival order. */
  function EnqueuedAll(q: seq<LogEntry>, es: seq<LogEntry>): seq<LogEntry>
    decreases |es|
  {
    if es == [] then q else EnqueuedAll(Enqueued(q, es[0]), es[1..])
  }

  lemma SuffixAppend(a: seq<LogEntry>, b: seq<LogEntry>, c: seq<LogEntry>)
    requires IsSuffix(a, b)
    ensures IsSuffix(a + c, b + c)
  {
    assert (b + c)[|b + c| - |a + c|..] == b[|b| - |a|..] + c;
  }

  lemma SuffixTrans(a: seq<LogEntry>, b: seq<LogEntry>, c: seq<LogEntry>)
    requires IsSuffix(a, b) && IsSuffix(b, c)
    ensures IsSuffix(a, c)
  {
    assert c[|c| - |a|..] == c[|c| - |b|..][|b| - |a|..];
  }

  /** The count step of `EnqueuedAllKeepsNewest`: one enqueue keeps min(n + 1, 76) of `n` entries. */
  lemma KeptCount(n: nat, n1: nat, m: nat, kept: nat)
    requires n <= LogCapacity
    requires n < LogCapacity ==> n1 == n + 1
    requires n == LogCapacity ==> n1 == LogCapacity - LogEviction + 1
    requires kept >= Min(n1 + m, LogCapacity - LogEviction + 1)
    ensures kept >= Min(n + m + 1, LogCapacity - LogEviction + 1)
  {
  }

  /**
   * Whatever lines arrive, the queue stays within 100 entries, holds the newest
   * lines in arrival order, and loses no line until it first fills: it keeps at
   * least the newest 76 of everything seen, or all of it.
   */
  lemma {:induction false} EnqueuedAllKeepsNewest(q: seq<LogEntry>, es: seq<LogEntry>)
    requires |q| <= LogCapacity
    ensures var r := EnqueuedAll(q, es);
      && |r| <= LogCapacity
      && IsSuffix(r, q + es)
      && |r| >= Min(|q| + |es|, LogCapacity - LogEviction + 1)
    decreases |es|
  {
    if es == [] {
      assert q + es == q;
    } else {
      var q1 := Enqueued(q, es[0]);
      var rest := es[1..];
      EnqueuedBound(q, es[0]);
      EnqueuedAllKeepsNewest(q1, rest);
      var r := EnqueuedAll(q1, rest);
      assert r == EnqueuedAll(q, es);
      KeptCount(|q|, |q1|, |rest|, |r|);
      SuffixAppend(q1, q + [es[0]], rest);
      assert q + [es[0]] + rest == q + es;
      SuffixTrans(r, q1 + rest, q + es);
    }
  }

  // ---------------------------------------------------------------------------
  // The test case
  // ---------------------------------------------------------------------------

  class TaukXCTestCase {
    /** XCTestCase's `name`, of the form "-[ClassName testMethodName]". */
    const name: string
    /** Where the error extractor reads source files from. */
    const host: Host

    var apiToken: Option<string>
    var projectId: Option<string>
    var appUnderTest: Option<App>
    var customTestName: Option<string>
    var bundleId: Option<string>
    var testResult: Option<TestResult>
    var excluded: bool
    var callerFilePath: string
    var uploadTimeout: real
    var logQueue: seq<LogEntry>

    ghost predicate Valid()
      reads this
    {
      |logQueue| <= LogCapacity
    }

    constructor (name: string, host: Host)
      ensures Valid()
      ensures this.name == name && this.host == host
      ensures apiToken.None? && projectId.None? && appUnderTest.None? && customTestName.None?
      ensures bundleId.None? && testResult.None?
      ensures !excluded && callerFilePath == "" && uploadTimeout == 0.0 && logQueue == []
    {
      this.name := name;
      this.host := host;
      apiToken, projectId, appUnderTest, customTestName := None, None, None, None;
      bundleId, testResult := None, None;
      excluded, callerFilePath, uploadTimeout, logQueue := false, "", 0.0, [];
    }

    /** `taukInitialize`: stores the configuration; an absent flag means not excluded, an absent timeout 4 seconds. */
    method TaukInitialize(apiToken: string, projectId: string, appUnderTest: App, exclude: Option<bool>,
                          uploadTimeoutSeconds: Option<real>, customTestName: Option<string>,
                          userProvidedBundleId: Option<string>, callerFilePath: string)
      requires Valid()
      modifies this
      ensures Valid()
      ensures this.apiToken == Some(apiToken) && this.projectId == Some(projectId)
      ensures this.appUnderTest == Some(appUnderTest) && this.customTestName == customTestName
      ensures excluded == (exclude.Some? && exclude.value)
      ensures uploadTimeout == if uploadTimeoutSeconds.Some? then uploadTimeoutSeconds.value else DefaultUploadTimeout
      ensures this.callerFilePath == callerFilePath && bundleId == userProvidedBundleId
      ensures testResult == old(testResult) && logQueue == old(logQueue)
    {
      this.apiToken := Some(apiToken);
      this.projectId := Some(projectId);
      this.appUnderTest := Some(appUnderTest);
      this.customTestName := customTestName;
      this.excluded := exclude.GetOr(false);
      this.uploadTimeout := uploadTimeoutSeconds.GetOr(DefaultUploadTimeout);
      this.callerFilePath := callerFilePath;
      this.bundleId := userProvidedBundleId;
    }

    /** `getScreenshot`: nothing without an application under test. */
    method GetScreenshot() returns (screenshot: Option<string>)
      ensures screenshot == ScreenshotOf(appUnderTest)
      ensures screenshot.None? <==> appUnderTest.None?
    {
      if appUnderTest.None? {
        return None;
      }
      return Some(appUnderTest.value.screenshotBase64);
    }

    /** `getViewSource`: the mirrored view tree of the application, nothing without one. */
    method GetViewSource() returns (view: Option<ViewNode>)
      ensures view == ViewSourceOf(appUnderTest)
      ensures view.Some? ==> NodeCount(view.value) == ElementCount(appUnderTest.value.root)
    {
      if appUnderTest.None? {
        return None;
      }
      var root := GetViewHierarchy(appUnderTest.value.root);
      return Some(root);
    }

    /**
     * `record`: marks the result failed and replaces its error with one built
     * from this issue, together with the current log, screenshot and view.
     * Without a result nothing happens (and the name is not parsed).
     */
    method Record(issue: Issue)
      requires testResult.Some? ==> |Components(StrippedName(name))| >= 2
      modifies this`testResult
      ensures old(testResult).None? ==> testResult.None?
      ensures old(testResult).Some? ==> testResult == Some(old(testResult).value.(
        status := Failed,
        error := Some(IssueError(issue, FormatTestMethodName(name), host)),
        log := Some(RecentLog(logQueue)),
        screenshot := ScreenshotOf(appUnderTest),
        viewSource := ViewSourceOf(appUnderTest)))
    {
      if testResult.None? {
        return;
      }
      var result := testResult.value;
      result := result.(status := Failed);
      var error := NewTaukError(issue, FormatTestMethodName(name), host);
      result := result.(error := Some(error));
      result := result.(log := Some(RecentLog(logQueue)));
      var screenshot := GetScreenshot();
      result := result.(screenshot := screenshot);
      var view := GetViewSource();
      result := result.(viewSource := view);
      testResult := Some(result);
    }

    /**
     * `setUpWithError`: a fresh result named by the custom name, or else by the
     * method part of the test's name. The filename and device description are
     * the caller's; the bundle id is the configured one.
     */
    method SetUp(device: DeviceInfo, filename: string, now: real)
      requires customTestName.None? ==> |Components(StrippedName(name))| >= 2
      modifies this`testResult
      ensures testResult.Some?
      ensures testResult.value == NewTestResult(
        if customTestName.Some? then customTestName.value else FormatTestMethodName(name),
        filename, device.(bundleId := bundleId), now)
      ensures testResult.value.status == Undetermined
    {
      var testName := if customTestName.Some? then customTestName.value else FormatTestMethodName(name);
      testResult := Some(NewTestResult(testName, filename, device.(bundleId := bundleId), now));
    }

    /**
     * `tearDownWithError`: without a token, a project id or a result, nothing
     * is uploaded. Otherwise a copy of the result is stamped with the end time,
     * the caller's path and the bundle id; its log, screenshot and view are
     * captured only where still absent; its status is finalised; and it is
     * handed to the uploader. The stored result is not changed.
     */
    method TearDown(now: real) returns (request: Option<UploadRequest>)
      ensures request.None? <==> apiToken.None? || projectId.None? || testResult.None?
      ensures request.Some? ==>
        request.value.apiToken == apiToken.value && request.value.projectId == projectId.value
      ensures request.Some? ==>
        var r, r0 := request.value.testResult, testResult.value;
        && r.status == FinalStatus(r0.status, excluded)
        && r.endTime == Some(now)
        && r.callerFilePath == Some(callerFilePath)
        && r.deviceInfo == r0.deviceInfo.(bundleId := bundleId)
        && r.log == (if r0.log.Some? then r0.log else Some(RecentLog(logQueue)))
        && r.screenshot == (if r0.screenshot.Some? then r0.screenshot else ScreenshotOf(appUnderTest))
        && r.viewSource == (if r0.viewSource.Some? then r0.viewSource else ViewSourceOf(appUnderTest))
        && r.name == r0.name && r.filename == r0.filename && r.startTime == r0.startTime && r.error == r0.error
    {
      if apiToken.None? || projectId.None? || testResult.None? {
        return None;
      }
      var result := testResult.value;
      result := result.(endTime := Some(now));
      result := result.(callerFilePath := Some(callerFilePath));
      result := result.(deviceInfo := result.deviceInfo.(bundleId := bundleId));
      if result.log.None? {
        result := result.(log := Some(RecentLog(logQueue)));
      }
      if result.screenshot.None? {
        var screenshot := GetScreenshot();
        result := result.(screenshot := screenshot);
      }
      if result.viewSource.None? {
        var view := GetViewSource();
        result := result.(viewSource := view);
      }
      result := result.(status := FinalStatus(result.status, excluded));
      return Some(UploadRequest(apiToken.value, projectId.value, result));
    }

    /** `handlePipeNotification`, the queue part: a console line that decoded is queued with its arrival time. */
    method HandlePipeNotification(logLine: Option<string>, now: real)
      requires Valid()
      modifies this`logQueue
      ensures Valid()
      ensures logQueue == if logLine.Some? then Enqueued(old(logQueue), LogEntry(now, logLine.value)) else old(logQueue)
    {
      if logLine.None? {
        return;
      }
      if |logQueue| == LogCapacity {
        logQueue := logQueue[LogEviction..];
        logQueue := logQueue + [LogEntry(now, logLine.value)];
      } else {
        logQueue := logQueue + [LogEntry(now, logLine.value)];
      }
      EnqueuedBound(old(logQueue), LogEntry(now, logLine.value));
    }
  }
}
