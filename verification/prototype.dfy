/** The single-page prototype server: it picks the `/test-errors` page among the browser's
    targets, listens on its debugging socket and turns thrown exceptions and outgoing
    network requests into log lines. */
module Prototype {
  import opened Wrappers
  import opened Strings
  import opened DebuggerTypes
  import opened Protocol
  import opened Chrome

  /** The path the prototype looks for in target URLs. */
  const TestErrorsPath := "/test-errors"
  const JsErrorPrefix := "❌ JS Error: "
  const NetworkPrefix := "📡 Network Request: "

  // ---------------------------------------------------------------------------
  // getDebuggingTargets

  /** The first page target whose URL contains `/test-errors`. A failed fetch or decode is
      returned as it is, without a prefix; no match is its own error. */
  method GetTestErrorsTarget(discovery: Discovery) returns (r: Result<DebuggingTarget, string>)
    ensures !discovery.Listed? ==> r == Err(discovery.reason)
    ensures discovery.Listed? ==> (r.Ok? <==> FirstPage(discovery.targets, TestErrorsPath).Some?)
    ensures discovery.Listed? && r.Ok? ==>
      FirstPage(discovery.targets, TestErrorsPath).Some?
      && r.value == discovery.targets[FirstPage(discovery.targets, TestErrorsPath).value]
    ensures discovery.Listed? && r.Err? ==> r.error == "test-errors page not found"
    ensures r.Ok? ==> r.value.kind == "page" && Contains(r.value.url, TestErrorsPath)
  {
    if !discovery.Listed? {
      return Err(discovery.reason);
    }
    var targets := discovery.targets;
    var i := 0;
    while i < |targets|
      invariant 0 <= i <= |targets|
      invariant forall j :: 0 <= j < i ==> !IsPageFor(targets[j], TestErrorsPath)
    {
      var target := targets[i];
      if target.kind == "page" && Contains(target.url, TestErrorsPath) {
        assert FirstPageFrom(targets, TestErrorsPath, 0) == Some(i);
        return Ok(target);
      }
      i := i + 1;
    }
    return Err("test-errors page not found");
  }

  // ---------------------------------------------------------------------------
  // The event switch of connectToDebugger

  /** The message of a thrown exception: the exception's description, else the details'
      text, else empty. */
  function ExceptionMessage(details: ExceptionDetails): (msg: string)
    ensures details.exception.Some? && details.exception.value.description.Some? ==>
      msg == details.exception.value.description.value
    ensures !(details.exception.Some? && details.exception.value.description.Some?) && details.text.Some? ==>
      msg == details.text.value
    ensures !(details.exception.Some? && details.exception.value.description.Some?) && details.text.None? ==>
      msg == ""
  {
    var fromText := match details.text case Some(t) => t case None => "";
    match details.exception
    case Some(ExceptionObject(Some(description))) => description
    case _ => fromText
  }

  /** The log line one frame contributes, if any: an exception with its details, or a request
      with its method and URL rendered by `%v`. Frames lacking `params` or the sub-object, and
      all other frames, contribute nothing. */
  function EventLine(f: Frame): Option<string>
  {
    if !f.Decoded? || f.params.None? then None
    else if f.methodName == Some("Runtime.exceptionThrown") then
      match f.params.value.exceptionDetails
      case Some(details) => Some(JsErrorPrefix + ExceptionMessage(details))
      case None => None
    else if f.methodName == Some("Network.requestWillBeSent") then
      match f.params.value.request
      case Some(request) => Some(NetworkPrefix + FormatV(request.httpMethod) + " " + FormatV(request.url))
      case None => None
    else None
  }

  /** The lines of a whole capture, in arrival order. */
  function DebugLog(frames: seq<Frame>): seq<string>
  {
    if |frames| == 0 then []
    else DebugLog(frames[..|frames| - 1])
         + match EventLine(frames[|frames| - 1]) case Some(line) => [line] case None => []
  }

  /** The capture loop: one pass over the frames read before the socket closed or the
      30-second window ended. */
  method CaptureDebugLogs(frames: seq<Frame>) returns (debuggingData: seq<string>)
    ensures debuggingData == DebugLog(frames)
  {
    debuggingData := [];
    var i := 0;
    while i < |frames|
      invariant 0 <= i <= |frames|
      invariant debuggingData == DebugLog(frames[..i])
    {
      var frame := frames[i];
      assert frames[..i + 1][..i] == frames[..i];
      if frame.Decoded? && frame.methodName.Some? {
        var name := frame.methodName.value;
        if name == "Runtime.exceptionThrown" {
          if frame.params.Some? && frame.params.value.exceptionDetails.Some? {
            var details := frame.params.value.exceptionDetails.value;
            var errorMessage := "";
            if details.text.Some? {
              errorMessage := details.text.value;
            }
            if details.exception.Some? && details.exception.value.description.Some? {
              errorMessage := details.exception.value.description.value;
            }
            debuggingData := debuggingData + [JsErrorPrefix + errorMessage];
          }
        } else if name == "Network.requestWillBeSent" {
          if frame.params.Some? && frame.params.value.request.Some? {
            var request := frame.params.value.request.value;
            debuggingData := debuggingData + [NetworkPrefix + FormatV(request.httpMethod) + " " + FormatV(request.url)];
          }
        }
      }
      i := i + 1;
    }
    assert frames[..i] == frames;
  }

  /** The log of a longer capture extends the log of its prefix. */
  lemma {:induction false} DebugLogAppend(a: seq<Frame>, b: seq<Frame>)
    ensures DebugLog(a + b) == DebugLog(a) + DebugLog(b)
    decreases |b|
  {
    if |b| == 0 {
      assert a + b == a;
    } else {
      var init := b[..|b| - 1];
      DebugLogAppend(a, init);
      assert (a + b)[..|a + b| - 1] == a + init;
      assert (a + b)[|a + b| - 1] == b[|b| - 1];
    }
  }

  /** Every line is an error line or a request line, and no frame yields more than one. */
  lemma {:induction false} DebugLogLines(frames: seq<Frame>)
    ensures |DebugLog(frames)| <= |frames|
    ensures forall line :: line in DebugLog(frames) ==> JsErrorPrefix <= line || NetworkPrefix <= line
  {
    if |frames| > 0 {
      DebugLogLines(frames[..|frames| - 1]);
    }
  }

  /** An exception line is recognised by its prefix: no request line starts like it. */
  lemma PrefixesDiffer(line: string)
    requires JsErrorPrefix <= line
    ensures !(NetworkPrefix <= line)
  {
    assert line[0] == JsErrorPrefix[0];
    assert JsErrorPrefix[0] != NetworkPrefix[0];
  }

  // ---------------------------------------------------------------------------
  // connectToDebugger

  /** What the socket to the chosen page did. */
  datatype Session =
    | DialFailed
    | NetworkEnableFailed
    | RuntimeEnableFailed
    | Listened(frames: seq<Frame>)

  /** A failed request: HTTP status and the `error` field. */
  datatype Failure = Failure(status: int, message: string)

  /** `GET /start-debugger`: select the page, connect, enable the two domains, capture. */
  method ConnectToDebugger(discovery: Discovery, connect: string -> Session)
    returns (reply: Result<seq<string>, Failure>)
    ensures reply.Ok? <==>
      discovery.Listed? && FirstPage(discovery.targets, TestErrorsPath).Some?
      && connect(discovery.targets[FirstPage(discovery.targets, TestErrorsPath).value].webSocketDebuggerUrl).Listened?
    ensures reply.Ok? ==>
      reply.value == DebugLog(connect(discovery.targets[FirstPage(discovery.targets, TestErrorsPath).value].webSocketDebuggerUrl).frames)
    ensures discovery.Listed? && FirstPage(discovery.targets, TestErrorsPath).None? ==>
      reply == Err(Failure(500, "test-errors page not found"))
  {
    var target := GetTestErrorsTarget(discovery);
    if target.Err? {
      return Err(Failure(500, target.error));
    }
    match connect(target.value.webSocketDebuggerUrl) {
      case DialFailed =>
        return Err(Failure(500, "Failed to connect to Chrome Debugger"));
      case NetworkEnableFailed =>
        return Err(Failure(500, "Failed to enable Network debugging"));
      case RuntimeEnableFailed =>
        return Err(Failure(500, "Failed to enable Runtime debugging"));
      case Listened(frames) =>
        var debuggingData := CaptureDebugLogs(frames);
        return Ok(debuggingData);
    }
  }
}
