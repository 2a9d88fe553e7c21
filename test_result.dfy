/**
 * The per-test record (Sources/Tauk/TestResult.swift): its status, timing and
 * the captures attached to it.
 *
 * Times are `real` seconds of system uptime. The screenshot is the opaque
 * base64 text the host produced; the view source is kept as the mirrored view
 * tree rather than its XML rendering.
 */
module TestResults {
  import opened Wrappers
  import opened Utils
  import opened TaukErrors

  datatype TestStatus = Passed | Failed | Excluded | Resolved | Undetermined

  /** The enum's `rawValue`: the case name, in lower case. */
  function RawValue(s: TestStatus): (raw: string)
    ensures |raw| > 0 && forall k :: 0 <= k < |raw| ==> 'a' <= raw[k] <= 'z'
  {
    match s
    case Passed => "passed"
    case Failed => "failed"
    case Excluded => "excluded"
    case Resolved => "resolved"
    case Undetermined => "undetermined"
  }

  /** `TestStatus(rawValue:)`: the case of that name, if any. */
  function StatusNamed(raw: string): (s: Option<TestStatus>)
    ensures s.Some? ==> RawValue(s.value) == raw
  {
    if raw == "passed" then Some(Passed)
    else if raw == "failed" then Some(Failed)
    else if raw == "excluded" then Some(Excluded)
    else if raw == "resolved" then Some(Resolved)
    else if raw == "undetermined" then Some(Undetermined)
    else None
  }

  /** Every status is recovered from its raw value, so raw values are distinct. */
  lemma RawValueRoundTrip(s: TestStatus)
    ensures StatusNamed(RawValue(s)) == Some(s)
  {
  }

  lemma RawValueInjective(a: TestStatus, b: TestStatus)
    ensures RawValue(a) == RawValue(b) ==> a == b
  {
    RawValueRoundTrip(a);
    RawValueRoundTrip(b);
  }

  /** The device fields the model reads: the platform, its version and the app's bundle id. */
  datatype DeviceInfo = DeviceInfo(platformName: Option<string>, platformVersion: Option<string>, bundleId: Option<string>)

  /** One console line captured while the test ran, with the time it arrived. */
  datatype LogEntry = LogEntry(date: real, message: string)

  datatype TestResult = TestResult(
    status: TestStatus,
    name: string,
    filename: string,
    deviceInfo: DeviceInfo,
    screenshot: Option<string>,
    viewSource: Option<ViewNode>,
    startTime: real,
    endTime: Option<real>,
    error: Option<TaukError>,
    log: Option<seq<LogEntry>>,
    callerFilePath: Option<string>)

  /** `TestResult(testName:filename:deviceInfo:)`, started at uptime `now`. */
  function NewTestResult(name: string, filename: string, deviceInfo: DeviceInfo, now: real): (r: TestResult)
    ensures r.status == Undetermined && r.endTime.None? && r.startTime == now
    ensures r.name == name && r.filename == filename && r.deviceInfo == deviceInfo
    ensures r.error.None? && r.log.None? && r.screenshot.None? && r.viewSource.None?
  {
    TestResult(Undetermined, name, filename, deviceInfo, None, None, now, None, None, None, None)
  }

  /** `elapsedTimeMilliseconds`: the run time in whole milliseconds, truncated toward zero. */
  function ElapsedTimeMilliseconds(r: TestResult): (ms: Option<int>)
    ensures ms.None? <==> r.endTime.None?
    ensures ms.Some? && r.endTime.value >= r.startTime ==>
      0 <= ms.value && ms.value as real <= (r.endTime.value - r.startTime) * 1000.0 < ms.value as real + 1.0
    ensures ms.Some? && r.endTime.value < r.startTime ==>
      ms.value <= 0 && ms.value as real - 1.0 < (r.endTime.value - r.startTime) * 1000.0
  {
    match r.endTime
    case None => None
    case Some(end) => Some(TruncateToInt((end - r.startTime) * 1000.0))
  }

  /** A fresh result has no elapsed time until it is stamped. */
  lemma NewResultHasNoElapsedTime(name: string, filename: string, deviceInfo: DeviceInfo, now: real)
    ensures ElapsedTimeMilliseconds(NewTestResult(name, filename, deviceInfo, now)).None?
  {
  }

  /** Started at 100.000 s and ended at 102.3475 s: 2347 ms. */
  lemma ElapsedTimeExample(r: TestResult)
    requires r.startTime == 100.0 && r.endTime == Some(102.3475)
    ensures ElapsedTimeMilliseconds(r) == Some(2347)
  {
    var ms := ElapsedTimeMilliseconds(r).value;
    assert 2346 < ms < 2348;
  }

  /**
   * `calcElapsedTimeMilliseconds` of the older record (Sources/Tauk/Utils.swift):
   * the same computation on the same two times.
   */
  function CalcElapsedTimeMilliseconds(startTime: real, endTime: Option<real>): (ms: Option<int>)
    ensures ms.None? <==> endTime.None?
  {
    if endTime.Some? then Some(TruncateToInt((endTime.value - startTime) * 1000.0)) else None
  }

  lemma ElapsedTimeAgreesWithLegacy(r: TestResult)
    ensures CalcElapsedTimeMilliseconds(r.startTime, r.endTime) == ElapsedTimeMilliseconds(r)
  {
  }

  /** The status finalisation of `tearDownWithError`: exclusion wins, a failure stays, anything else passes. */
  function FinalStatus(s: TestStatus, excluded: bool): (f: TestStatus)
    ensures f == Excluded <==> excluded
    ensures f == Failed <==> !excluded && s == Failed
    ensures f == Passed <==> !excluded && s != Failed
  {
    if excluded then Excluded
    else if s != Failed then Passed
    else s
  }

  /** Finalising twice is finalising once, and only the three final statuses come out. */
  lemma FinalStatusIdempotent(s: TestStatus, excluded: bool)
    ensures FinalStatus(FinalStatus(s, excluded), excluded) == FinalStatus(s, excluded)
    ensures FinalStatus(s, excluded) in {Passed, Failed, Excluded}
  {
  }
}
