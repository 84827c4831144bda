/** The records the debugger passes between its parts: a debuggable target as the
    browser's discovery endpoint lists it, one captured console message, and the
    per-page buckets a capture is sorted into. */
module DebuggerTypes {

  /** One entry of the browser's target list. `kind` is the JSON field `type`. */
  datatype DebuggingTarget = DebuggingTarget(
    id: string,
    kind: string,
    title: string,
    url: string,
    webSocketDebuggerUrl: string)

  /** A captured message. `kind` is the Go field `Type` (the console level or call type),
      `text` the field `Message`. The capture time stamp is not modelled. */
  datatype ConsoleMessage = ConsoleMessage(kind: string, text: string, url: string)

  /** The zero value Go returns when an event lacks the expected fields. */
  const EmptyMessage := ConsoleMessage("", "", "")

  /** A capture split into ordinary console output and errors. */
  datatype PageResults = PageResults(console: seq<ConsoleMessage>, errors: seq<ConsoleMessage>)
}
