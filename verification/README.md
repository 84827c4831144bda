# render-radar debugger core in Dafny

This project models the event-handling core of a small debugging service for web pages. The service asks a
browser's DevTools endpoint for its debuggable targets and picks, for every requested page URL, the first
`page` target whose URL contains it. It opens that target's debugging socket, enables the Console and Runtime
domains and captures console events for a while. Console-API arguments are rendered as text, including object
previews and fetched property lists. The resulting messages are split into console output and errors, and each
page's results are saved in an in-memory, versioned session store. A separate prototype server (`main.go`)
does the same for a single `/test-errors` page and produces plain log lines for thrown exceptions and network
requests.

The model is organised by the program's own parts:

| file | module | models |
|---|---|---|
| `types.dfy` | `DebuggerTypes` | targets, console messages, per-page results |
| `protocol.dfy` | `Protocol` | the decoded DevTools frames the core reads; Go's `%v`/`%s` of a possibly missing value |
| `strings.dfy` | `Strings` | `strings.Contains`, `strings.TrimSpace`, builder joins; a split used to state that message text splits back into arguments |
| `chrome.dfy` | `Chrome` | target resolution (`ChromeDebugger.GetDebuggingTargets`) |
| `objectformat.dfy` | `ObjectFormat` | `formatObject`, `formatArray`, `formatDetailedObject`, one argument's rendering |
| `correlator.dfy` | `Correlation` | the request counter and pending-request table with their routing |
| `store.dfy` | `Storage` | the session store's in-memory map |
| `handlers.dfy` | `Handlers` | categorisation, event parsing, capture, per-target debugging, the `/start-debugger` handler |
| `prototype.dfy` | `Prototype` | the `/test-errors` selector and the prototype's capture loop |

The model makes the following modelling choices:

- **The socket is a sequence of arrivals.** Each arrival is a decoded frame (or `Undecodable`) with the clock
  reading at which it was read. The 30-second capture window and the closing of the socket both end that
  sequence.
- **Every I/O step's outcome is a parameter.** This covers the discovery request (`Discovery`), the dial and the
  enable writes (`Connection`, `Session`), the removal of the data file (`RemoveOutcome`) and the writes of the
  data file (`writeError`).
- **Unchecked field reads become structure.** Fields the Go code reads with an unchecked type assertion are plain
  fields of the datatypes or preconditions (`RuntimeReady`, `Capturable`). Fields it reads with a check are
  `Option`s, so every fallback branch is modelled.
- **The correlator is one object.** The global counter and pending-request table become a `Correlator` object
  that the handler methods modify.

With one `/start-debugger` request in flight, property requests are never answered. `getObjectProperties`
waits for its reply inside the capture loop, and within a request that loop is the only caller of the routing
function `handleWebSocketMessage`. So no reply is routed while the request waits. `Correlator.GetObjectProperties` is proved to return `None` on every path, and the capture loop
always takes the preview fallback (`ParseRuntimeConsole` is proved equal to the specification with the `NoReply`
fetch). Every capture starts and ends with an empty pending table, so `ProcessFrame` never delivers a reply. The
rendering functions take an arbitrary `fetch`, so the branch that uses a property list is modelled and proved
about as well.

The enable commands use fixed ids 1 and 2, but the counter also starts at zero. `EnableReplyReachesFirstRequest`
shows that a reply to `Console.enable` is delivered to the first property request while it waits. The counter
and the table are package-level, so such a reply can be routed by a second, concurrent request's capture loop.

The store is cleared at the start of every `/start-debugger` request. So although `SaveSession` versions
sessions `n + 1`, each URL saved by `HandleDebugger` holds exactly one session, version 1, as long as no other
request clears or saves in between.

Each requested URL is debugged over its own connection and capture window, even when two URLs resolve to the
same target. The connection outcome is therefore a function of the requested URL and the target's socket URL.

Facts about the code that the model keeps:

- A requested URL with no matching target appears in neither `results` nor `errors`. It is not reported as a
  per-URL error.
- The response's `results` map holds `PageResults`, as `HandleDebugger` builds it. The `DebugResponse` record
  declared in `internal/debugger/types.go` instead has a list of strings per URL.
- `ConsoleMessage` and `PageResults` are not declared in `internal/debugger/types.go`. They are reconstructed
  from their use in `internal/handlers/debugger.go:177-180` and `:205-210`.

## Model

| member | source | states |
|---|---|---|
| Chrome.FirstPageFrom | internal/debugger/chrome.go:39-45 | the index found is a `page` target whose URL contains the requested URL, with no such target before it; `None` exactly when no target from `from` on qualifies |
| Chrome.GetDebuggingTargets | internal/debugger/chrome.go:37-48 | a URL is a key iff it was requested and some page target contains it; its value is the first such target in list order, a page containing the URL; unmatched URLs are absent, not errors |
| Chrome.FetchDebuggingTargets | internal/debugger/chrome.go:23-49 | a failed fetch or decode yields no map and the prefixed error; a decoded list yields exactly the resolution above |
| Chrome.SharedTarget | internal/debugger/chrome.go:38-45 | two distinct requested URLs can resolve to the same target |
| Strings.ContainsIff | internal/debugger/chrome.go:40 | the substring test holds iff the sub-string occurs at some index (the empty string occurs everywhere) |
| Strings.TrimSpaceSpec | internal/handlers/debugger.go:268 | the input is its leading white space, then the trimmed text, then its trailing white space: nothing but white space is cut, and only at the ends |
| Strings.TrimSpaceEnds | internal/handlers/debugger.go:268 | the trimmed text is empty or neither starts nor ends with white space: all the white space at both ends is cut |
| ObjectFormat.FormatObject | internal/handlers/debugger.go:418-442 | the builder's text equals `PreviewText`: `{`, the `name: value` items joined by `, `, `}`, a nested preview rendered in place of the value |
| ObjectFormat.PreviewBraces | internal/handlers/debugger.go:418-442 | with brace-free names and values, the text holds exactly one `{` and one `}` per preview in the tree, so every nested preview is rendered once |
| ObjectFormat.FormatArray | internal/handlers/debugger.go:444-465 | the builder's text equals `ArrayText`: `[`, each element's nested preview or raw value joined by `, `, `]` |
| ObjectFormat.ArrayBraces | internal/handlers/debugger.go:444-465 | the brackets add no braces: the array text holds exactly the braces of the element previews |
| ObjectFormat.FormatDetailedObject | internal/handlers/debugger.go:361-416 | the text equals `DetailedText`: nil gives `[object Object]`, otherwise `{...}` around `name: value` items, strings quoted, numbers and booleans raw, objects by subtype, other types by description or `undefined`, a property without a value map only its separator |
| ObjectFormat.ObjectTailBraces | internal/handlers/debugger.go:391-402 | an object value is abbreviated with one pair of braces unless its subtype is `null` or `array` |
| ObjectFormat.DetailedTailBraces | internal/handlers/debugger.go:384-409 | one property's rendered value holds a brace pair exactly when it is shown as `{...}` |
| ObjectFormat.DetailedEntriesBraces | internal/handlers/debugger.go:373-411 | the items hold exactly one brace pair per object-valued property |
| ObjectFormat.DetailedBraces | internal/handlers/debugger.go:361-416 | the detailed text holds one outer brace pair plus one per object-valued property: nested objects are never expanded |
| Correlation.Correlator.constructor | internal/handlers/debugger.go:278-282 | the counter starts at zero with no pending requests |
| Correlation.Correlator.Register | internal/handlers/debugger.go:285-294 | the id is one more than the last, hence larger than every id handed out and absent from the table; an entry with that deadline and an empty reply buffer is inserted |
| Correlation.Correlator.Remove | internal/handlers/debugger.go:297-301 | the entry for the id is dropped and nothing else changes |
| Correlation.Correlator.Dispatch | internal/handlers/debugger.go:338-352 | a reply is delivered iff its id is pending, the deadline has not passed and the buffer is empty; unknown and late ids are dropped and the table changes only on delivery |
| Correlation.Correlator.GetObjectProperties | internal/handlers/debugger.go:284-334 | every call takes a fresh id, its entry is removed on every path, leaving the table as it was, and the result is always `None` |
| Handlers.CategorizeMessages | internal/handlers/debugger.go:176-192 | the loop's buckets equal `ConsoleOf`/`ErrorsOf` of the input |
| Handlers.CategorizePartition | internal/handlers/debugger.go:176-192 | the buckets together are the input as a multiset, their sizes add up to the input's; `error`/`exception` messages are exactly the error bucket |
| Handlers.CategorizeAppend | internal/handlers/debugger.go:182-189 | categorising a concatenation concatenates the buckets, so each bucket keeps arrival order |
| Handlers.ParseConsoleMessage | internal/handlers/debugger.go:194-211 | the zero message when `params` or `params.message` is missing, otherwise its level, text and URL |
| Handlers.GetSourceURL | internal/handlers/debugger.go:467-478 | a non-empty result is the URL of the first call frame; when every level is present the result is that URL |
| Handlers.ArgTexts | internal/handlers/debugger.go:222-263 | one rendered text per argument, in order |
| Handlers.ParseRuntimeConsole | internal/handlers/debugger.go:213-271 | the message is the call type, the trimmed space-joined argument texts and the source URL, with every handle's fetch failing; one request id per object handle; the pending table is unchanged |
| Handlers.HandleFallsBack | internal/handlers/debugger.go:245-256 | a handle without a reply renders as its preview, else `[object Object]` |
| Handlers.HandleUsesReply | internal/handlers/debugger.go:245-249 | a handle whose properties arrive renders as the detailed text |
| Handlers.FetchOnlyForHandles | internal/handlers/debugger.go:233-262 | primitives, null objects, objects without a handle and other types render independently of any reply |
| Handlers.ConsoleTextSplits | internal/handlers/debugger.go:229-268 | when every argument renders as one non-empty word, splitting the message text on spaces gives the argument texts back: single separators, nothing lost by the trim |
| Handlers.ProcessFrame | internal/handlers/debugger.go:136-154 | a frame with an id is routed first and reaches no waiter; each console event yields its parsed message, anything else none |
| Handlers.CaptureDebugMessages | internal/handlers/debugger.go:112-160 | the messages are `CapturedMessages` of the arrivals in order; the table is empty before and after; one request id per object handle of every console-API event |
| Handlers.CapturedAppend | internal/handlers/debugger.go:129-159 | a longer capture's messages extend its prefix's, in arrival order |
| Handlers.CapturedBound | internal/handlers/debugger.go:145-154 | no frame yields more than one message |
| Handlers.EnableReplyReachesFirstRequest | internal/handlers/debugger.go:91-102 | the first property request is registered under the id of the `Console.enable` command, and a reply carrying that id is delivered to it |
| Handlers.DebugTarget | internal/handlers/debugger.go:162-174 | a failed dial or enable write gives its prefixed error, otherwise the capture's messages |
| Handlers.AggregateTargets | internal/handlers/debugger.go:63-77 | every resolved URL lands in exactly one map: `results` with the categorised messages of its own connection or `errors` with that connection's failure message, and no other URL appears |
| Handlers.SaveResults | internal/handlers/debugger.go:79-85 | into an empty store, each saved URL holds exactly one version-1 session with its results and all errors; a stop means some write failed, and without one every result is saved |
| Handlers.HandleDebugger | internal/handlers/debugger.go:31-89 | cleanup failure 500, bad body 400 and discovery failure 500 with their messages; otherwise the reply is the response or `Failed to save` (500), and the response when no write fails; on success a URL is in one of the two maps iff it was requested and resolved, with the categorised logs or the error of its resolved target's connection, and the store holds exactly the result URLs, each one version-1 session with its results and all errors |
| Storage.Store.constructor | internal/storage/store.go:31-34 | a new store has no sessions |
| Storage.Store.SaveSession | internal/storage/store.go:44-61 | appends one session at the end of that URL's list with version = prior length + 1, results keyed by that URL alone and the errors as passed; other URLs unchanged; versions stay 1..n |
| Storage.Store.GetSessions | internal/storage/store.go:63-67 | the URL's list in insertion order, versions 1..n, empty for an unknown URL |
| Storage.Store.ClearSessions | internal/storage/store.go:69-75 | removes only that URL |
| Storage.Store.ClearAllSessions | internal/storage/store.go:77-93 | the map is empty; a missing data file is not an error, any other removal failure is returned |
| Storage.Store.Cleanup | internal/storage/store.go:95-108 | the same in-memory effect and error as clearing all sessions |
| Storage.ClearAllTwice | internal/storage/store.go:77-93 | clearing twice succeeds both times and leaves the store empty |
| Storage.SaveTwiceAfterClear | internal/storage/store.go:44-61 | after a clear, two saves for one URL give versions 1 and 2 with their own results, and no other URL appears |
| Prototype.GetTestErrorsTarget | main.go:28-53 | the first page target whose URL contains `/test-errors`; `test-errors page not found` iff there is none; fetch and decode errors unchanged |
| Prototype.ExceptionMessage | main.go:135-143 | the exception's description if present, else the details' text, else empty |
| Prototype.CaptureDebugLogs | main.go:114-164 | the log equals `DebugLog` of the frames: one `❌ JS Error:` line per exception, one `📡 Network Request: method url` line per request, none for frames missing `params` or the sub-object, for other methods or for undecodable frames |
| Prototype.DebugLogAppend | main.go:122-157 | log lines appear in frame-arrival order: a longer capture's log extends its prefix's |
| Prototype.DebugLogLines | main.go:130-157 | every line starts with one of the two prefixes, and there are no more lines than frames |
| Prototype.PrefixesDiffer | main.go:144-152 | an error line never also starts like a network line |
| Prototype.ConnectToDebugger | main.go:56-165 | the log is returned iff the page was found and the socket was listened on, and it is that capture's log; no page gives `test-errors page not found` |

## Left out

- Socket dial, read and write, the HTTP request to the discovery endpoint, and JSON decoding are outside the
  model. Their results are inputs (decoded frames, `Discovery`, `Connection`, `Session`).
- The goroutine reading the socket, channels, `select` and the 30- and 5-second timers are not modelled. The
  frames read before the window closed form a finite sequence; deadlines are compared with an explicit `now`.
- Locking (`sync.RWMutex`, `atomic.AddInt64`) is not modelled: every operation is a single sequential step.
- Concurrent `/start-debugger` requests are not modelled: the store, the request counter and the pending table
  belong to one request at a time. Replies routed by another request's capture loop, and clears and saves
  interleaved between requests (which can produce version-2 sessions), are outside the model.
- Correlation.Correlator.Dispatch: a send to an entry whose one-slot buffer is already full blocks the routing
  goroutine in Go; the model returns `WouldBlock` and changes nothing.
- `time.Now()` time stamps are absent from `ConsoleMessage`, and the store's time stamp is a parameter.
- JSON numbers rendered by `%v` as `float64` are not modelled: primitive values are already-rendered strings.
- The float-to-integer conversion of reply ids and the 64-bit wrap-around of the request counter are not
  modelled: ids are unbounded integers.
- Panics from unchecked type assertions are excluded by the datatypes or stated as preconditions. Examples are a
  missing `args` or `type` in a console-API event, or a property without a name.
- ObjectFormat.FormatArray: a preview property that has a `valuePreview` but no `value` is not representable,
  because `value` is a plain field. `formatArray` itself would accept it. `formatArray` has no caller in the
  source.
- Writing and loading the data file (`persist`, `loadSessions`) are not modelled. A write's failure is a
  parameter; the store starts empty.
- Identity of the shared target objects in the resolution map is not modelled: URLs resolving to one target map to equal values.
- Fiber routing, the session-listing handlers, the static test pages and the process entry points are web
  plumbing and are not modelled.
- Handlers.HandleDebugger: the response body's JSON encoding and log output are not modelled.
