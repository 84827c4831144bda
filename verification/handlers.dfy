/** The debugging handler: it turns the frames a page's debugging socket delivers into console
    messages, sorts them into console output and errors, aggregates them per requested URL
    and saves them in the session store. The socket is an explicit sequence of arrivals, the
    outcome of each I/O step is a parameter, and the global correlator is a `Correlator`. */
module Handlers {
  import opened Wrappers
  import opened Strings
  import opened DebuggerTypes
  import opened Protocol
  import opened ObjectFormat
  import opened Correlation
  import opened Chrome
  import opened Storage

  // ---------------------------------------------------------------------------
  // categorizeMessages

  /** The two message types that count as errors. */
  predicate IsErrorKind(kind: string)
  {
    kind == "error" || kind == "exception"
  }

  /** The error messages, in arrival order. */
  function ErrorsOf(msgs: seq<ConsoleMessage>): seq<ConsoleMessage>
  {
    if |msgs| == 0 then []
    else ErrorsOf(msgs[..|msgs| - 1]) + (if IsErrorKind(msgs[|msgs| - 1].kind) then [msgs[|msgs| - 1]] else [])
  }

  /** The other messages, in arrival order. */
  function ConsoleOf(msgs: seq<ConsoleMessage>): seq<ConsoleMessage>
  {
    if |msgs| == 0 then []
    else ConsoleOf(msgs[..|msgs| - 1]) + (if IsErrorKind(msgs[|msgs| - 1].kind) then [] else [msgs[|msgs| - 1]])
  }

  function Categorized(msgs: seq<ConsoleMessage>): PageResults
  {
    PageResults(ConsoleOf(msgs), ErrorsOf(msgs))
  }

  /** One pass over the messages, appending each to the bucket its type selects. */
  method CategorizeMessages(messages: seq<ConsoleMessage>) returns (results: PageResults)
    ensures results == Categorized(messages)
  {
    results := PageResults([], []);
    var i := 0;
    while i < |messages|
      invariant 0 <= i <= |messages|
      invariant results == Categorized(messages[..i])
    {
      var msg := messages[i];
      assert messages[..i + 1][..i] == messages[..i];
      if msg.kind == "error" || msg.kind == "exception" {
        results := results.(errors := results.errors + [msg]);
      } else {
        results := results.(console := results.console + [msg]);
      }
      i := i + 1;
    }
    assert messages[..i] == messages;
  }

  /** The two buckets partition the input: every message lands in exactly one of them,
      the error bucket holds only error types and the console bucket none. */
  lemma {:induction false} CategorizePartition(msgs: seq<ConsoleMessage>)
    ensures |ConsoleOf(msgs)| + |ErrorsOf(msgs)| == |msgs|
    ensures multiset(ConsoleOf(msgs)) + multiset(ErrorsOf(msgs)) == multiset(msgs)
    ensures forall m :: m in ErrorsOf(msgs) ==> IsErrorKind(m.kind)
    ensures forall m :: m in ConsoleOf(msgs) ==> !IsErrorKind(m.kind)
  {
    if |msgs| > 0 {
      var init, last := msgs[..|msgs| - 1], msgs[|msgs| - 1];
      CategorizePartition(init);
      assert msgs == init + [last];
      assert multiset(msgs) == multiset(init) + multiset{last};
    }
  }

  /** Categorizing is compatible with concatenation: each bucket keeps the arrival order
      of the messages it receives. */
  lemma {:induction false} CategorizeAppend(a: seq<ConsoleMessage>, b: seq<ConsoleMessage>)
    ensures ErrorsOf(a + b) == ErrorsOf(a) + ErrorsOf(b)
    ensures ConsoleOf(a + b) == ConsoleOf(a) + ConsoleOf(b)
    decreases |b|
  {
    if |b| == 0 {
      assert a + b == a;
    } else {
      var init, last := b[..|b| - 1], b[|b| - 1];
      CategorizeAppend(a, init);
      assert (a + b)[..|a + b| - 1] == a + init;
      assert (a + b)[|a + b| - 1] == last;
    }
  }

  // ---------------------------------------------------------------------------
  // parseConsoleMessage and getSourceURL

  /** A `Console.messageAdded` event: level, text and URL of `params.message`; the zero
      message when `params` or `params.message` is missing. */
  function ParseConsoleMessage(params: Option<Params>): (msg: ConsoleMessage)
    ensures params.None? || params.value.message.None? ==> msg == EmptyMessage
    ensures params.Some? && params.value.message.Some? ==>
      msg.kind == params.value.message.value.level && msg.text == params.value.message.value.text
      && msg.url == params.value.message.value.url
  {
    match params
    case None => EmptyMessage
    case Some(p) =>
      match p.message
      case None => EmptyMessage
      case Some(entry) => ConsoleMessage(entry.level, entry.text, entry.url)
  }

  /** The URL of the first call frame of the stack trace, or "" when any step is missing. */
  function GetSourceURL(params: Params): (url: string)
    ensures url != "" ==>
      params.stackTrace.Some? && params.stackTrace.value.callFrames.Some?
      && |params.stackTrace.value.callFrames.value| > 0
      && params.stackTrace.value.callFrames.value[0] == CallFrame(Some(url))
    ensures params.stackTrace.Some? && params.stackTrace.value.callFrames.Some?
      && |params.stackTrace.value.callFrames.value| > 0
      && params.stackTrace.value.callFrames.value[0].CallFrame?
      && params.stackTrace.value.callFrames.value[0].url.Some?
      ==> url == params.stackTrace.value.callFrames.value[0].url.value
  {
    match params.stackTrace
    case None => ""
    case Some(trace) =>
      match trace.callFrames
      case None => ""
      case Some(frames) =>
        if |frames| == 0 then ""
        else match frames[0]
          case NonObjectFrame => ""
          case CallFrame(url) => match url case Some(u) => u case None => ""
  }

  // ---------------------------------------------------------------------------
  // parseRuntimeConsole

  /** The property fetch as the capture loop experiences it: no reply ever reaches the waiter. */
  function NoReply(objectId: string): Option<PropertiesResult>
  {
    None
  }

  /** An argument for which `parseRuntimeConsole` sends a `Runtime.getProperties` request. */
  predicate IsHandle(arg: RemoteObject)
  {
    arg.kind == "object" && arg.subtype != Some("null") && arg.objectId.Some?
  }

  /** Number of property requests one argument list causes. */
  function HandleCount(args: seq<RemoteObject>): nat
  {
    if |args| == 0 then 0
    else HandleCount(args[..|args| - 1]) + (if IsHandle(args[|args| - 1]) then 1 else 0)
  }

  /** Each argument rendered on its own. */
  function ArgTexts(args: seq<RemoteObject>, fetch: string -> Option<PropertiesResult>): (texts: seq<string>)
    ensures |texts| == |args|
    ensures forall k :: 0 <= k < |args| ==> texts[k] == ArgText(args[k], fetch)
  {
    if |args| == 0 then []
    else ArgTexts(args[..|args| - 1], fetch) + [ArgText(args[|args| - 1], fetch)]
  }

  /** The message text: the rendered arguments separated by single spaces, trimmed. */
  function ConsoleText(args: seq<RemoteObject>, fetch: string -> Option<PropertiesResult>): string
  {
    TrimSpace(Join(ArgTexts(args, fetch), " "))
  }

  /** The fields `parseRuntimeConsole` reads without a check are present. */
  predicate RuntimeReady(params: Option<Params>)
  {
    params.Some? ==> params.value.args.Some? && params.value.callType.Some?
  }

  /** A `Runtime.consoleAPICalled` event as a message: the call type, the argument text and
      the source URL; the zero message when `params` is missing. */
  function RuntimeConsoleMessage(params: Option<Params>, fetch: string -> Option<PropertiesResult>): ConsoleMessage
    requires RuntimeReady(params)
  {
    match params
    case None => EmptyMessage
    case Some(p) => ConsoleMessage(p.callType.value, ConsoleText(p.args.value, fetch), GetSourceURL(p))
  }

  /** The switch on one argument's type, with the property request for an object handle. */
  method RenderArgument(c: Correlator, arg: RemoteObject, now: int, writable: bool) returns (piece: string)
    requires c.Valid()
    modifies c
    ensures c.Valid() && c.pendingRequests == old(c.pendingRequests)
    ensures c.requestCounter == old(c.requestCounter) + (if IsHandle(arg) then 1 else 0)
    ensures piece == ArgText(arg, NoReply)
  {
    piece := "";
    if arg.kind == "string" || arg.kind == "number" || arg.kind == "boolean" {
      if arg.value.Some? {
        piece := arg.value.value;
      }
    } else if arg.kind == "object" {
      if arg.subtype.Some? && arg.subtype.value == "null" {
        piece := "null";
      } else if arg.objectId.Some? {
        var props := c.GetObjectProperties(arg.objectId.value, now, writable);
        if props.Some? {
          piece := FormatDetailedObject(props);
        } else if arg.preview.Some? {
          piece := FormatObject(arg.preview.value);
        } else {
          piece := "[object Object]";
        }
      } else if arg.preview.Some? {
        piece := FormatObject(arg.preview.value);
      } else if arg.description.Some? {
        piece := arg.description.value;
      }
    }
  }

  /** Renders the arguments, asking the correlator for the properties of every object handle.
      Each handle costs one request id; since no reply is routed while the loop waits, every
      handle falls back to its preview. */
  method ParseRuntimeConsole(c: Correlator, params: Option<Params>, now: int, writable: bool)
    returns (msg: ConsoleMessage)
    requires c.Valid() && RuntimeReady(params)
    modifies c
    ensures c.Valid() && c.pendingRequests == old(c.pendingRequests)
    ensures c.requestCounter == old(c.requestCounter) + (if params.Some? then HandleCount(params.value.args.value) else 0)
    ensures msg == RuntimeConsoleMessage(params, NoReply)
  {
    if params.None? {
      return EmptyMessage;
    }
    var p := params.value;
    var args := p.args.value;
    var message := "";
    var i := 0;
    while i < |args|
      invariant 0 <= i <= |args|
      invariant c.Valid() && c.pendingRequests == old(c.pendingRequests)
      invariant c.requestCounter == old(c.requestCounter) + HandleCount(args[..i])
      invariant message == Join(ArgTexts(args[..i], NoReply), " ")
    {
      var arg := args[i];
      var piece := RenderArgument(c, arg, now, writable);
      assert args[..i + 1][..i] == args[..i];
      JoinSnoc(ArgTexts(args[..i], NoReply), piece, " ");
      if i > 0 {
        message := message + " ";
      }
      message := message + piece;
      i := i + 1;
    }
    assert args[..i] == args;
    msg := ConsoleMessage(p.callType.value, TrimSpace(message), GetSourceURL(p));
  }

  /** A handle whose properties never arrive is shown by its preview, or as `[object Object]`. */
  lemma HandleFallsBack(arg: RemoteObject)
    requires IsHandle(arg)
    ensures ArgText(arg, NoReply) == match arg.preview case Some(p) => PreviewText(p) case None => "[object Object]"
  {
  }

  /** With a reply, the handle's text is the detailed rendering of the fetched property list,
      whatever its preview. */
  lemma HandleUsesReply(arg: RemoteObject, fetch: string -> Option<PropertiesResult>)
    requires IsHandle(arg) && fetch(arg.objectId.value).Some?
    ensures ArgText(arg, fetch) == DetailedText(fetch(arg.objectId.value))
  {
  }

  /** Only handles consult the fetch: any other argument renders the same whatever the replies. */
  lemma FetchOnlyForHandles(arg: RemoteObject, f: string -> Option<PropertiesResult>, g: string -> Option<PropertiesResult>)
    requires !IsHandle(arg)
    ensures ArgText(arg, f) == ArgText(arg, g)
  {
  }

  /** Arguments that render as single non-empty words come back from the message text by
      splitting it on spaces: the joins and the trim lose nothing. */
  lemma ConsoleTextSplits(args: seq<RemoteObject>, fetch: string -> Option<PropertiesResult>)
    requires |args| >= 1
    requires forall k :: 0 <= k < |args| ==> IsWord(ArgText(args[k], fetch))
    ensures Split(ConsoleText(args, fetch), ' ') == ArgTexts(args, fetch)
  {
    var texts := ArgTexts(args, fetch);
    assert forall k :: 0 <= k < |texts| ==> IsWord(texts[k]);
    JoinEnds(texts, " ");
    var joined := Join(texts, " ");
    assert IsWord(texts[0]) && IsWord(texts[|texts| - 1]);
    assert texts[0][0] in texts[0];
    assert texts[|texts| - 1][|texts[|texts| - 1]| - 1] in texts[|texts| - 1];
    TrimSpaceKeeps(joined);
    assert forall k :: 0 <= k < |texts| ==> ' ' !in texts[k] by {
      forall k | 0 <= k < |texts|
        ensures ' ' !in texts[k]
      {
        assert IsWord(texts[k]);
        assert IsSpace(' ');
      }
    }
    SplitJoin(texts, ' ');
    assert [' '] == " ";
  }

  /** A non-empty string with no white space in it. */
  predicate IsWord(s: string)
  {
    |s| > 0 && forall ch :: ch in s ==> !IsSpace(ch)
  }

  // ---------------------------------------------------------------------------
  // captureDebugMessages

  /** A frame read from the socket, with the clock reading at the moment it was read. */
  datatype Arrival = Arrival(at: int, frame: Frame)

  /** A console-API event carries the fields its parser reads without a check. */
  predicate Capturable(f: Frame)
  {
    f.Decoded? && f.methodName == Some("Runtime.consoleAPICalled") ==> RuntimeReady(f.params)
  }

  /** Every frame of the sequence is capturable. */
  predicate AllCapturable(arrivals: seq<Arrival>)
  {
    |arrivals| == 0
    || (AllCapturable(arrivals[..|arrivals| - 1]) && Capturable(arrivals[|arrivals| - 1].frame))
  }

  /** Every prefix of a capturable sequence is capturable, and so is each of its frames. */
  lemma {:induction false} CapturablePrefix(s: seq<Arrival>, n: nat)
    requires AllCapturable(s) && n <= |s|
    ensures AllCapturable(s[..n])
    ensures n < |s| ==> Capturable(s[n].frame)
    decreases |s|
  {
    if n == |s| {
      assert s[..n] == s;
    } else {
      var init := s[..|s| - 1];
      if n < |init| {
        CapturablePrefix(init, n);
        assert init[..n] == s[..n];
        assert init[n] == s[n];
      } else {
        assert s[..n] == init;
      }
    }
  }

  /** Two capturable sequences make a capturable sequence. */
  lemma {:induction false} CapturableAppend(a: seq<Arrival>, b: seq<Arrival>)
    requires AllCapturable(a) && AllCapturable(b)
    ensures AllCapturable(a + b)
    decreases |b|
  {
    if |b| == 0 {
      assert a + b == a;
    } else {
      var init := b[..|b| - 1];
      CapturableAppend(a, init);
      assert (a + b)[..|a + b| - 1] == a + init;
      assert (a + b)[|a + b| - 1] == b[|b| - 1];
    }
  }

  /** The messages one frame contributes: one for each of the two console events, none for
      anything else (replies, other events, undecodable frames). */
  function FrameMessages(f: Frame): seq<ConsoleMessage>
    requires Capturable(f)
  {
    if !f.Decoded? then []
    else if f.methodName == Some("Console.messageAdded") then [ParseConsoleMessage(f.params)]
    else if f.methodName == Some("Runtime.consoleAPICalled") then [RuntimeConsoleMessage(f.params, NoReply)]
    else []
  }

  /** All messages of a capture, in arrival order. */
  function CapturedMessages(arrivals: seq<Arrival>): seq<ConsoleMessage>
    requires AllCapturable(arrivals)
  {
    if |arrivals| == 0 then []
    else CapturedMessages(arrivals[..|arrivals| - 1]) + FrameMessages(arrivals[|arrivals| - 1].frame)
  }

  /** Property requests one frame causes. */
  function FrameRequests(f: Frame): nat
  {
    if f.Decoded? && f.methodName == Some("Runtime.consoleAPICalled") && f.params.Some? && f.params.value.args.Some?
    then HandleCount(f.params.value.args.value)
    else 0
  }

  function RequestsMade(arrivals: seq<Arrival>): nat
  {
    if |arrivals| == 0 then 0 else RequestsMade(arrivals[..|arrivals| - 1]) + FrameRequests(arrivals[|arrivals| - 1].frame)
  }

  /** One pass of the capture loop: a frame with an id is first routed to the correlator,
      then a console event is parsed. With the table empty, the routing finds no waiter. */
  method ProcessFrame(c: Correlator, arrival: Arrival, writable: bool)
    returns (messages: seq<ConsoleMessage>, delivered: bool)
    requires c.Valid() && c.pendingRequests == map[] && Capturable(arrival.frame)
    modifies c
    ensures c.Valid() && c.pendingRequests == map[]
    ensures c.requestCounter == old(c.requestCounter) + FrameRequests(arrival.frame)
    ensures messages == FrameMessages(arrival.frame)
    ensures !delivered
  {
    messages := [];
    delivered := false;
    if arrival.frame.Decoded? {
      var frame := arrival.frame;
      if frame.id.Some? {
        var outcome := c.Dispatch(frame.id.value, arrival.at, Reply(frame.result));
        delivered := outcome == Delivered;
      }
      if frame.methodName == Some("Console.messageAdded") {
        var msg := ParseConsoleMessage(frame.params);
        messages := [msg];
      } else if frame.methodName == Some("Runtime.consoleAPICalled") {
        var msg := ParseRuntimeConsole(c, frame.params, arrival.at, writable);
        messages := [msg];
      }
    }
  }

  /** The capture loop over the frames read before the socket closed or the 30-second window
      ended. As every request the loop makes is removed before the loop reads on, the table
      is empty whenever a reply is routed (`ProcessFrame` delivers nothing). */
  method CaptureDebugMessages(c: Correlator, arrivals: seq<Arrival>, writable: bool)
    returns (messages: seq<ConsoleMessage>)
    requires c.Valid() && c.pendingRequests == map[]
    requires AllCapturable(arrivals)
    modifies c
    ensures c.Valid() && c.pendingRequests == map[]
    ensures c.requestCounter == old(c.requestCounter) + RequestsMade(arrivals)
    ensures messages == CapturedMessages(arrivals)
  {
    messages := [];
    var i := 0;
    while i < |arrivals|
      invariant 0 <= i <= |arrivals|
      invariant c.Valid() && c.pendingRequests == map[]
      invariant c.requestCounter == old(c.requestCounter) + RequestsMade(arrivals[..i])
      invariant AllCapturable(arrivals[..i])
      invariant messages == CapturedMessages(arrivals[..i])
    {
      CapturablePrefix(arrivals, i);
      CapturablePrefix(arrivals, i + 1);
      assert arrivals[..i + 1][..i] == arrivals[..i];
      var more, _ := ProcessFrame(c, arrivals[i], writable);
      messages := messages + more;
      i := i + 1;
    }
    assert arrivals[..i] == arrivals;
  }

  /** Capturing is compatible with concatenation: the messages of a longer session extend
      those of its prefix, in order. */
  lemma {:induction false} CapturedAppend(a: seq<Arrival>, b: seq<Arrival>)
    requires AllCapturable(a) && AllCapturable(b)
    ensures AllCapturable(a + b)
    ensures CapturedMessages(a + b) == CapturedMessages(a) + CapturedMessages(b)
    decreases |b|
  {
    CapturableAppend(a, b);
    if |b| == 0 {
      assert a + b == a;
    } else {
      var init, last := b[..|b| - 1], b[|b| - 1];
      assert b == init + [last];
      assert a + b == (a + init) + [last];
      CapturedSnoc(init, last);
      CapturedAppend(a, init);
      CapturedSnoc(a + init, last);
    }
  }

  /** One more frame appends that frame's messages. */
  lemma CapturedSnoc(s: seq<Arrival>, x: Arrival)
    requires AllCapturable(s + [x])
    ensures AllCapturable(s) && Capturable(x.frame)
    ensures CapturedMessages(s + [x]) == CapturedMessages(s) + FrameMessages(x.frame)
  {
    assert (s + [x])[..|s|] == s;
  }

  /** At most one message per frame. */
  lemma {:induction false} CapturedBound(arrivals: seq<Arrival>)
    requires AllCapturable(arrivals)
    ensures |CapturedMessages(arrivals)| <= |arrivals|
  {
    if |arrivals| > 0 {
      CapturedBound(arrivals[..|arrivals| - 1]);
    }
  }

  // ---------------------------------------------------------------------------
  // enableDebugging

  /** The ids `enableDebugging` writes on its two commands. */
  const ConsoleEnableId := 1
  const RuntimeEnableId := 2

  /** The enable commands do not take their ids from the counter, and the counter starts at
      zero, so the first property request is registered under id 1: a reply to
      `Console.enable` routed while that request waits is delivered to it. Within one request
      nothing is routed during the wait; the counter and table are shared by all requests,
      so it is a second, concurrent request's capture loop that can route such a reply. */
  method EnableReplyReachesFirstRequest() returns (id: int, outcome: DispatchOutcome)
    ensures id == ConsoleEnableId
    ensures outcome == Delivered
  {
    var c := new Correlator();
    id := c.Register(PropertiesTimeout);
    outcome := c.Dispatch(ConsoleEnableId, 0, Reply(None));
  }

  // ---------------------------------------------------------------------------
  // debugTarget

  /** What the socket to one target did: the dial failed, a write of an enable command
      failed, or the capture ran over the frames read; `writable` says whether property
      requests can be written. */
  datatype Connection =
    | DialFailed(reason: string)
    | EnableFailed(reason: string)
    | Connected(arrivals: seq<Arrival>, writable: bool)

  predicate ConnectionReady(conn: Connection)
  {
    conn.Connected? ==> AllCapturable(conn.arrivals)
  }

  /** The outcome of debugging one target. */
  function TargetLogs(conn: Connection): Result<seq<ConsoleMessage>, string>
    requires ConnectionReady(conn)
  {
    match conn
    case DialFailed(reason) => Err("websocket connection error: " + reason)
    case EnableFailed(reason) => Err("failed to enable debugging feature: " + reason)
    case Connected(arrivals, _) => Ok(CapturedMessages(arrivals))
  }

  /** Dial, enable, capture; errors carry the step's prefix. */
  method DebugTarget(c: Correlator, conn: Connection) returns (logs: Result<seq<ConsoleMessage>, string>)
    requires c.Valid() && c.pendingRequests == map[] && ConnectionReady(conn)
    modifies c
    ensures c.Valid() && c.pendingRequests == map[]
    ensures logs == TargetLogs(conn)
  {
    match conn {
      case DialFailed(reason) =>
        return Err("websocket connection error: " + reason);
      case EnableFailed(reason) =>
        return Err("failed to enable debugging feature: " + reason);
      case Connected(arrivals, writable) =>
        var messages := CaptureDebugMessages(c, arrivals, writable);
        return Ok(messages);
    }
  }

  // ---------------------------------------------------------------------------
  // HandleDebugger

  /** The page target a requested URL resolves to. */
  function TargetOf(targets: seq<DebuggingTarget>, url: string): DebuggingTarget
    requires FirstPage(targets, url).Some?
  {
    targets[FirstPage(targets, url).value]
  }

  /** The response body: categorized messages per URL, and an error message per URL whose
      debugging failed. */
  datatype DebugResponse = DebugResponse(results: map<string, PageResults>, errors: map<string, string>)

  /** A failed request: the HTTP status and the `error` field of the body. */
  datatype HttpError = HttpError(status: int, message: string)

  /** Every resolved URL is debugged once, over a connection of its own (`connect(url, ws)`:
      two URLs resolving to one target still dial and capture separately); its URL ends up
      either under `results`, with its messages categorized, or under `errors`, with the
      failure's message. */
  method AggregateTargets(c: Correlator, targets: map<string, DebuggingTarget>,
                          connect: (string, string) -> Connection)
    returns (response: DebugResponse)
    requires c.Valid() && c.pendingRequests == map[]
    requires forall url :: url in targets ==> ConnectionReady(connect(url, targets[url].webSocketDebuggerUrl))
    modifies c
    ensures c.Valid() && c.pendingRequests == map[]
    ensures response.results.Keys !! response.errors.Keys
    ensures response.results.Keys + response.errors.Keys == targets.Keys
    ensures forall url :: url in response.results ==>
      url in targets && TargetLogs(connect(url, targets[url].webSocketDebuggerUrl)).Ok?
      && response.results[url] == Categorized(TargetLogs(connect(url, targets[url].webSocketDebuggerUrl)).value)
    ensures forall url :: url in response.errors ==>
      url in targets && TargetLogs(connect(url, targets[url].webSocketDebuggerUrl)) == Err(response.errors[url])
  {
    response := DebugResponse(map[], map[]);
    var remaining := targets.Keys;
    while remaining != {}
      invariant remaining <= targets.Keys
      invariant c.Valid() && c.pendingRequests == map[]
      invariant response.results.Keys !! response.errors.Keys
      invariant response.results.Keys + response.errors.Keys == targets.Keys - remaining
      invariant Reported(targets, connect, response)
      decreases remaining
    {
      var url :| url in remaining;
      var target := targets[url];
      var logs := DebugTarget(c, connect(url, target.webSocketDebuggerUrl));
      RecordedStep(targets, connect, response, url);
      if logs.Err? {
        response := response.(errors := response.errors[url := logs.error]);
      } else {
        var results := CategorizeMessages(logs.value);
        response := response.(results := response.results[url := results]);
      }
      remaining := remaining - {url};
    }
  }

  /** Every URL of the response carries the outcome of debugging its own connection. */
  ghost predicate Reported(targets: map<string, DebuggingTarget>, connect: (string, string) -> Connection,
                           response: DebugResponse)
  {
    (forall url :: url in response.results ==>
      url in targets && ConnectionReady(connect(url, targets[url].webSocketDebuggerUrl))
      && TargetLogs(connect(url, targets[url].webSocketDebuggerUrl)).Ok?
      && response.results[url] == Categorized(TargetLogs(connect(url, targets[url].webSocketDebuggerUrl)).value))
    && (forall url :: url in response.errors ==>
      url in targets && ConnectionReady(connect(url, targets[url].webSocketDebuggerUrl))
      && TargetLogs(connect(url, targets[url].webSocketDebuggerUrl)) == Err(response.errors[url]))
  }

  /** The response after recording one URL's outcome. */
  function Recorded(response: DebugResponse, url: string, logs: Result<seq<ConsoleMessage>, string>): DebugResponse
  {
    if logs.Err? then response.(errors := response.errors[url := logs.error])
    else response.(results := response.results[url := Categorized(logs.value)])
  }

  lemma RecordedStep(targets: map<string, DebuggingTarget>, connect: (string, string) -> Connection,
                     response: DebugResponse, url: string)
    requires url in targets && ConnectionReady(connect(url, targets[url].webSocketDebuggerUrl))
    requires Reported(targets, connect, response)
    ensures Reported(targets, connect, Recorded(response, url, TargetLogs(connect(url, targets[url].webSocketDebuggerUrl))))
  {
  }

  /** Every URL of `response.results` saved once; stops at the first failed write. */
  method SaveResults(store: Store, response: DebugResponse, now: int, writeError: string -> Option<string>)
    returns (failed: bool)
    requires store.Valid() && store.sessions == map[]
    modifies store
    ensures store.Valid()
    ensures store.sessions.Keys <= response.results.Keys
    ensures !failed ==> store.sessions.Keys == response.results.Keys
    ensures failed ==> exists url :: url in response.results && writeError(url).Some?
    ensures forall url :: url in store.sessions ==>
      url in response.results
      && store.sessions[url] == [DebugSession(1, now, map[url := response.results[url]], response.errors)]
  {
    var remaining := response.results.Keys;
    while remaining != {}
      invariant remaining <= response.results.Keys
      invariant store.Valid()
      invariant store.sessions.Keys == response.results.Keys - remaining
      invariant forall url :: url in store.sessions ==>
        url in response.results
        && store.sessions[url] == [DebugSession(1, now, map[url := response.results[url]], response.errors)]
      decreases remaining
    {
      var url :| url in remaining;
      var err := store.SaveSession(url, response.results[url], response.errors, now, writeError(url));
      if err.Some? {
        assert url in response.results && writeError(url).Some?;
        return true;
      }
      remaining := remaining - {url};
    }
    failed := false;
  }

  /** `POST /start-debugger`: clear the store, read the URLs, resolve them to targets, debug each,
      save the results. Each URL ends up in exactly one of the two maps when it resolved to a
      page, and in neither when it did not. With this request the only one touching the store,
      which is cleared first, every saved URL holds exactly one session, version 1. */
  method HandleDebugger(store: Store, c: Correlator, removal: RemoveOutcome, body: Option<seq<string>>,
                        discovery: Discovery, connect: (string, string) -> Connection, now: int,
                        writeError: string -> Option<string>)
    returns (reply: Result<DebugResponse, HttpError>)
    requires store.Valid() && c.Valid() && c.pendingRequests == map[]
    requires forall url, ws :: ConnectionReady(connect(url, ws))
    modifies store, c
    ensures store.Valid() && c.Valid() && c.pendingRequests == map[]
    ensures removal.RemoveFailed? <==> reply == Err(HttpError(500, "Failed to cleanup"))
    ensures !removal.RemoveFailed? && body.None? ==> reply == Err(HttpError(400, "Invalid request"))
    ensures !removal.RemoveFailed? && body.Some? && discovery.FetchFailed? ==>
      reply == Err(HttpError(500, "error getting debug targets: " + discovery.reason))
    ensures !removal.RemoveFailed? && body.Some? && discovery.DecodeFailed? ==>
      reply == Err(HttpError(500, "error decoding targets: " + discovery.reason))
    ensures reply.Ok? ==> body.Some? && discovery.Listed?
    ensures reply.Ok? ==> forall url ::
      (url in reply.value.results || url in reply.value.errors) <==>
      (url in body.value && FirstPage(discovery.targets, url).Some?)
    ensures reply.Ok? ==> reply.value.results.Keys !! reply.value.errors.Keys
    ensures reply.Ok? && discovery.Listed? ==> forall url :: url in reply.value.results ==>
      FirstPage(discovery.targets, url).Some?
      && TargetLogs(connect(url, TargetOf(discovery.targets, url).webSocketDebuggerUrl)).Ok?
      && reply.value.results[url]
         == Categorized(TargetLogs(connect(url, TargetOf(discovery.targets, url).webSocketDebuggerUrl)).value)
    ensures reply.Ok? && discovery.Listed? ==> forall url :: url in reply.value.errors ==>
      FirstPage(discovery.targets, url).Some?
      && TargetLogs(connect(url, TargetOf(discovery.targets, url).webSocketDebuggerUrl)) == Err(reply.value.errors[url])
    ensures reply.Ok? ==> store.sessions.Keys == reply.value.results.Keys
    ensures reply.Ok? ==> forall url :: url in store.sessions ==>
      url in reply.value.results
      && store.sessions[url] == [DebugSession(1, now, map[url := reply.value.results[url]], reply.value.errors)]
    ensures forall url :: url in store.sessions ==>
      |store.sessions[url]| == 1 && store.sessions[url][0].version == 1
    ensures !removal.RemoveFailed? && body.Some? && discovery.Listed? ==>
      reply.Ok? || reply == Err(HttpError(500, "Failed to save"))
    ensures !removal.RemoveFailed? && body.Some? && discovery.Listed? && (forall url :: writeError(url).None?) ==>
      reply.Ok?
  {
    var cleared := store.ClearAllSessions(removal);
    if cleared.Some? {
      return Err(HttpError(500, "Failed to cleanup"));
    }
    if body.None? {
      return Err(HttpError(400, "Invalid request"));
    }
    var urls := body.value;
    var targets := FetchDebuggingTargets(urls, discovery);
    if targets.Err? {
      return Err(HttpError(500, targets.error));
    }
    var response := AggregateTargets(c, targets.value, connect);
    var failed := SaveResults(store, response, now, writeError);
    if failed {
      return Err(HttpError(500, "Failed to save"));
    }
    reply := Ok(response);
  }
}
