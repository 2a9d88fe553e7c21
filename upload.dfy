/**
 * Sending a finished test result to the Tauk service (Sources/Tauk/TaukUpload.swift):
 * the endpoint, the JSON payload built from the result, and the decision the
 * network callback takes on each reply, including the retry rule driven by the
 * process-wide `retryCount`.
 *
 * The network is modelled by the replies the successive attempts receive; an
 * attempt with no reply is one whose callback never runs.
 */
module Upload {
  import opened Wrappers
  import opened LineReader
  import opened Utils
  import opened TaukErrors
  import opened TestResults

  datatype HttpMethod = Get | Post | Put | Patch | Delete

  /** The enum's `rawValue`: the HTTP verb. */
  function MethodName(m: HttpMethod): (verb: string)
    ensures |verb| >= 3
  {
    match m
    case Get => "GET"
    case Post => "POST"
    case Put => "PUT"
    case Patch => "PATCH"
    case Delete => "DELETE"
  }

  /** Different methods send different verbs. */
  lemma MethodNameInjective(a: HttpMethod, b: HttpMethod)
    ensures MethodName(a) == MethodName(b) ==> a == b
  {
  }

  datatype RequestError =
    | InvalidURL | NoResponse | BadRequest | Unauthorized | NotFound
    | UnexpectedStatusCode | UnableToDecode | InternalServerError | ServiceUnavailable | Unknown

  /** The fixed message of each request error. */
  function Message(e: RequestError): (text: string)
    ensures |text| > 0
  {
    match e
    case InvalidURL => "Invalid URL"
    case NoResponse => "No response from server"
    case UnableToDecode => "Unable to decode"
    case BadRequest => "400 - Bad Request"
    case Unauthorized => "401 - Unauthorized"
    case NotFound => "404 - Not Found"
    case InternalServerError => "500 - Internal Server Error"
    case ServiceUnavailable => "503 - Service Unavailable"
    case UnexpectedStatusCode => "Unexpected Status Code"
    case Unknown => "Unknown Error"
  }

  /** The error whose message is `text`, if any. */
  function ErrorWithMessage(text: string): Option<RequestError> {
    if text == "Invalid URL" then Some(InvalidURL)
    else if text == "No response from server" then Some(NoResponse)
    else if text == "Unable to decode" then Some(UnableToDecode)
    else if text == "400 - Bad Request" then Some(BadRequest)
    else if text == "401 - Unauthorized" then Some(Unauthorized)
    else if text == "404 - Not Found" then Some(NotFound)
    else if text == "500 - Internal Server Error" then Some(InternalServerError)
    else if text == "503 - Service Unavailable" then Some(ServiceUnavailable)
    else if text == "Unexpected Status Code" then Some(UnexpectedStatusCode)
    else if text == "Unknown Error" then Some(Unknown)
    else None
  }

  /** Every error is recovered from its message, so different errors have different messages. */
  lemma MessageRoundTrip(e: RequestError)
    ensures ErrorWithMessage(Message(e)) == Some(e)
  {
  }

  lemma MessagesDistinct(a: RequestError, b: RequestError)
    ensures Message(a) == Message(b) ==> a == b
  {
    MessageRoundTrip(a);
    MessageRoundTrip(b);
  }

  /** The error the status-code switch reports for `status`, when it names one. */
  function StatusOfError(e: RequestError): Option<int> {
    match e
    case BadRequest => Some(400)
    case Unauthorized => Some(401)
    case NotFound => Some(404)
    case InternalServerError => Some(500)
    case ServiceUnavailable => Some(503)
    case _ => None
  }

  // ---------------------------------------------------------------------------
  // The endpoint
  // ---------------------------------------------------------------------------

  datatype Endpoint = Endpoint(httpMethod: HttpMethod, path: string, baseURL: string, header: Option<map<string, string>>)

  const ServiceBase: string := "https://www.tauk.com/api/v1/"
  const UploadPath: string := "session/upload"

  /** `UploadEndpoint(apiToken:projectId:)`: a POST carrying the credentials as two headers. */
  function UploadEndpoint(apiToken: string, projectId: string): (ep: Endpoint)
    ensures ep.httpMethod == Post && MethodName(ep.httpMethod) == "POST"
    ensures ep.baseURL + ep.path == "https://www.tauk.com/api/v1/session/upload"
    ensures ep.header.Some? && ep.header.value.Keys == {"api_token", "project_id"}
    ensures ep.header.value["api_token"] == apiToken && ep.header.value["project_id"] == projectId
  {
    Endpoint(Post, UploadPath, ServiceBase, Some(map["api_token" := apiToken, "project_id" := projectId]))
  }

  /** Different credentials give different endpoints. */
  lemma UploadEndpointInjective(t1: string, p1: string, t2: string, p2: string)
    ensures UploadEndpoint(t1, p1) == UploadEndpoint(t2, p2) ==> t1 == t2 && p1 == p2
  {
    if UploadEndpoint(t1, p1) == UploadEndpoint(t2, p2) {
      assert UploadEndpoint(t1, p1).header.value["api_token"] == t1;
      assert UploadEndpoint(t2, p2).header.value["project_id"] == p2;
    }
  }

  // ---------------------------------------------------------------------------
  // The payload
  // ---------------------------------------------------------------------------

  datatype UploadPayload = UploadPayload(
    testStatus: string,
    testName: string,
    testFilename: string,
    tags: DeviceInfo,
    screenshot: Option<string>,
    view: Option<ViewNode>,
    error: Option<TaukError>,
    codeContext: Option<seq<CodeLine>>,
    automationType: string,
    language: string,
    platform: Option<string>,
    platformVersion: Option<string>,
    elapsedTimeMs: Option<int>,
    log: Option<seq<LogEntry>>)

  /** `UploadPayload(from:)`: the wire form of a test result. */
  function PayloadOf(r: TestResult): (p: UploadPayload)
    ensures StatusNamed(p.testStatus) == Some(r.status)
    ensures p.codeContext == (if r.error.Some? then r.error.value.codeContext else None)
    ensures p.automationType == "XCTest" && p.language == "Swift"
    ensures p.platform == r.deviceInfo.platformName && p.platformVersion == r.deviceInfo.platformVersion
    ensures p.elapsedTimeMs == ElapsedTimeMilliseconds(r)
    ensures p.testName == r.name && p.testFilename == r.filename && p.tags == r.deviceInfo
    ensures p.screenshot == r.screenshot && p.view == r.viewSource && p.error == r.error && p.log == r.log
  {
    RawValueRoundTrip(r.status);
    UploadPayload(
      RawValue(r.status), r.name, r.filename, r.deviceInfo, r.screenshot, r.viewSource, r.error,
      if r.error.Some? then r.error.value.codeContext else None,
      "XCTest", "Swift",
      r.deviceInfo.platformName, r.deviceInfo.platformVersion,
      ElapsedTimeMilliseconds(r), r.log)
  }

  /** A context is sent only alongside the error it belongs to. */
  lemma PayloadContextHasError(r: TestResult)
    ensures PayloadOf(r).codeContext.Some? ==>
      (PayloadOf(r).error.Some? && PayloadOf(r).codeContext == PayloadOf(r).error.value.codeContext)
  {
  }

  datatype PayloadField =
    | TestStatusField | TestNameField | TestFilenameField | TagsField | ScreenshotField | ViewField
    | LogField | ErrorField | CodeContextField | AutomationTypeField | LanguageField | PlatformField
    | PlatformVersionField | ElapsedTimeMsField

  /** The JSON key of each payload field. */
  function PayloadCodingKey(f: PayloadField): (key: string)
    ensures |key| > 0
  {
    match f
    case TestStatusField => "test_status"
    case TestNameField => "test_name"
    case TestFilenameField => "test_filename"
    case TagsField => "tags"
    case ScreenshotField => "screenshot"
    case ViewField => "view"
    case LogField => "log"
    case ErrorField => "error"
    case CodeContextField => "code_context"
    case AutomationTypeField => "automation_type"
    case LanguageField => "language"
    case PlatformField => "platform"
    case PlatformVersionField => "platform_version"
    case ElapsedTimeMsField => "elapsed_time_ms"
  }

  /** No two payload fields share a JSON key. */
  lemma PayloadCodingKeysDistinct(f: PayloadField, g: PayloadField)
    ensures PayloadCodingKey(f) == PayloadCodingKey(g) ==> f == g
  {
  }

  // ---------------------------------------------------------------------------
  // The callback of one attempt and the retry rule
  // ---------------------------------------------------------------------------

  /** What `upload` is called with: the credentials and the result to send. */
  datatype UploadRequest = UploadRequest(apiToken: string, projectId: string, testResult: TestResult)

  /**
   * What one attempt's callback receives: whether the transport failed, the
   * HTTP status when the response is an HTTP response, and the body.
   */
  datatype Reply = Reply(transportError: bool, httpStatus: Option<int>, data: Option<seq<byte>>)

  /** The value handed to the completion handler. */
  datatype Completion = Success(data: seq<byte>) | Failure(error: RequestError)

  /** The status-code switch of the callback. */
  function Classify(status: int, data: seq<byte>): (c: Completion)
    ensures c.Success? <==> 200 <= status <= 299
    ensures c.Success? ==> c.data == data
    ensures c.Failure? ==> StatusOfError(c.error) == Some(status) || c.error == UnexpectedStatusCode
  {
    if 200 <= status <= 299 then Success(data)
    else if status == 400 then Failure(BadRequest)
    else if status == 401 then Failure(Unauthorized)
    else if status == 404 then Failure(NotFound)
    else if status == 500 then Failure(InternalServerError)
    else if status == 503 then Failure(ServiceUnavailable)
    else Failure(UnexpectedStatusCode)
  }

  /** Each listed code maps to its error and to nothing else; every other non-2xx code is unexpected. */
  lemma ClassifyExactly(status: int, data: seq<byte>, e: RequestError)
    ensures Classify(status, data) == Failure(e) && StatusOfError(e).Some? <==> StatusOfError(e) == Some(status)
    ensures Classify(status, data) == Failure(UnexpectedStatusCode)
      <==> !(200 <= status <= 299) && status !in {400, 401, 404, 500, 503}
  {
  }

  /** Attempts are retried while the incremented counter stays below this. */
  const MaxAttempts: int := 3

  datatype Session = Session(attempts: nat, completion: Option<Completion>)

  /**
   * The attempts an upload makes when the process-wide counter starts at
   * `count` and the successive attempts receive `replies`, and what reaches the
   * completion handler (nothing when the callback only prints a warning or
   * never runs). Only attempts whose callback ran are counted: when the
   * replies run out, the last request sent is still waiting.
   */
  function SessionOf(count: int, replies: seq<Reply>): (s: Session)
    ensures s.attempts <= |replies|
    decreases |replies|
  {
    if replies == [] then Session(0, None)
    else
      var reply := replies[0];
      if reply.transportError then
        if count + 1 < MaxAttempts then
          var rest := SessionOf(count + 1, replies[1..]);
          Session(rest.attempts + 1, rest.completion)
        else Session(1, Some(Failure(Unknown)))
      else if reply.httpStatus.None? || reply.data.None? then Session(1, None)
      else Session(1, Some(Classify(reply.httpStatus.value, reply.data.value)))
  }

  function Max(a: int, b: int): int {
    if a >= b then a else b
  }

  /**
   * At most `max(1, 3 - count)` attempts are made: a counter that earlier
   * uploads in the process left at 2 or more allows no retry at all.
   */
  lemma {:induction false} AttemptsBound(count: int, replies: seq<Reply>)
    ensures SessionOf(count, replies).attempts <= Max(1, MaxAttempts - count)
    decreases |replies|
  {
    if replies != [] && replies[0].transportError && count + 1 < MaxAttempts {
      AttemptsBound(count + 1, replies[1..]);
    }
  }

  /** An HTTP reply of any status ends the upload after that one attempt. */
  lemma HttpRepliesNeverRetry(count: int, replies: seq<Reply>)
    requires replies != [] && !replies[0].transportError
    ensures SessionOf(count, replies).attempts == 1
    ensures replies[0].httpStatus.Some? && replies[0].data.Some? ==>
      SessionOf(count, replies).completion == Some(Classify(replies[0].httpStatus.value, replies[0].data.value))
    ensures replies[0].httpStatus.None? || replies[0].data.None? ==> SessionOf(count, replies).completion.None?
  {
  }

  /** From a fresh counter, transport failures on every attempt give exactly 3 attempts and then `unknown`. */
  lemma ThreeAttemptsFromZero(replies: seq<Reply>)
    requires |replies| >= 3
    requires forall k :: 0 <= k < |replies| ==> replies[k].transportError
    ensures SessionOf(0, replies) == Session(3, Some(Failure(Unknown)))
  {
    assert replies[2..][0] == replies[2];
    assert SessionOf(2, replies[2..]) == Session(1, Some(Failure(Unknown)));
    assert replies[1..][0] == replies[1] && replies[1..][1..] == replies[2..];
    assert SessionOf(1, replies[1..]) == Session(2, Some(Failure(Unknown)));
  }

  /** The completion handler receives `unknown` only after a transport failure exhausted the counter. */
  lemma {:induction false} UnknownOnlyAfterTransportFailure(count: int, replies: seq<Reply>)
    requires SessionOf(count, replies).completion == Some(Failure(Unknown))
    ensures exists k :: 0 <= k < |replies| && replies[k].transportError && count + k + 1 >= MaxAttempts
    decreases |replies|
  {
    var reply := replies[0];
    if reply.transportError && count + 1 < MaxAttempts {
      UnknownOnlyAfterTransportFailure(count + 1, replies[1..]);
      var k :| 0 <= k < |replies[1..]| && replies[1..][k].transportError && count + 1 + k + 1 >= MaxAttempts;
      assert replies[k + 1] == replies[1..][k];
    } else {
      assert replies[0].transportError && count + 0 + 1 >= MaxAttempts;
    }
  }

  /** `TaukUpload`: the holder of the process-wide `retryCount`. */
  class TaukUploader {
    /** `TaukUpload.retryCount`: incremented by every callback that runs, never reset. */
    var retryCount: int

    constructor ()
      ensures retryCount == 0
    {
      retryCount := 0;
    }

    /**
     * `upload(apiToken:projectId:testResult:completion:)`: one attempt per
     * reply, retried with the same request after a transport failure while the
     * counter allows it. Returns what reached the completion handler and the
     * request of each attempt whose callback ran; when the replies run out,
     * the attempt sent last waits on a callback that never runs and is not
     * counted.
     */
    method Upload(request: UploadRequest, replies: seq<Reply>) returns (completion: Option<Completion>, sent: seq<UploadRequest>)
      modifies this
      ensures retryCount == old(retryCount) + SessionOf(old(retryCount), replies).attempts
      ensures completion == SessionOf(old(retryCount), replies).completion
      ensures |sent| == SessionOf(old(retryCount), replies).attempts
      ensures forall k :: 0 <= k < |sent| ==> sent[k] == request
      decreases |replies|
    {
      if replies == [] {
        return None, [];
      }
      var reply := replies[0];
      retryCount := retryCount + 1;
      sent := [request];
      if reply.transportError {
        if retryCount < MaxAttempts {
          var retried;
          completion, retried := Upload(request, replies[1..]);
          sent := sent + retried;
        } else {
          completion := Some(Failure(Unknown));
        }
        return;
      }
      if reply.httpStatus.None? || reply.data.None? {
        completion := None;
        return;
      }
      completion := Some(Classify(reply.httpStatus.value, reply.data.value));
    }
  }
}
