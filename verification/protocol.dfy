/** Decoded frames of the browser's remote debugging protocol, restricted to the keys the
    debugger reads. A key read with a checked type assertion is an `Option` (missing or of
    another type reads as `None`); a key read with an unchecked assertion is a plain field,
    so a frame on which the Go code would panic is not representable. Primitive JSON
    values are kept as the text `%v` prints for them. */
module Protocol {
  import opened Wrappers

  /** An object preview: `properties` when the preview carries a property array. */
  datatype ObjectPreview =
    | Preview(properties: seq<PropertyPreview>)
    | PreviewWithoutProperties

  /** One previewed property; `valuePreview` is present for nested objects. */
  datatype PropertyPreview = PropertyPreview(name: string, value: string, valuePreview: Option<ObjectPreview>)

  /** A remote object as it appears in console-API arguments and property values.
      `kind` is the JSON field `type`. */
  datatype RemoteObject = RemoteObject(
    kind: string,
    subtype: Option<string>,
    value: Option<string>,
    objectId: Option<string>,
    preview: Option<ObjectPreview>,
    description: Option<string>)

  /** One entry of a `Runtime.getProperties` result; `value` when it is an object. */
  datatype PropertyDescriptor = PropertyDescriptor(name: string, value: Option<RemoteObject>)

  /** The `result` object of a `Runtime.getProperties` reply. */
  datatype PropertiesResult =
    | Properties(result: seq<PropertyDescriptor>)
    | PropertiesWithoutList

  /** `params.message` of `Console.messageAdded`. */
  datatype ConsoleEntry = ConsoleEntry(level: string, text: string, url: string)

  /** An element of `stackTrace.callFrames`: an object (with its `url` if it is a string) or anything else. */
  datatype CallFrame = CallFrame(url: Option<string>) | NonObjectFrame

  datatype StackTrace = StackTrace(callFrames: Option<seq<CallFrame>>)

  /** `exceptionDetails.exception`. */
  datatype ExceptionObject = ExceptionObject(description: Option<string>)

  /** `params.exceptionDetails` of `Runtime.exceptionThrown`. */
  datatype ExceptionDetails = ExceptionDetails(text: Option<string>, exception: Option<ExceptionObject>)

  /** `params.request` of `Network.requestWillBeSent`; `httpMethod` is the JSON field `method`. */
  datatype RequestInfo = RequestInfo(httpMethod: Option<string>, url: Option<string>)

  /** The `params` object of an event, with every key any handler looks up. */
  datatype Params = Params(
    message: Option<ConsoleEntry>,
    args: Option<seq<RemoteObject>>,
    callType: Option<string>,
    stackTrace: Option<StackTrace>,
    exceptionDetails: Option<ExceptionDetails>,
    request: Option<RequestInfo>)

  /** A frame read from the socket: bytes that are not a JSON object, or a decoded object
      with its numeric `id` (replies), `method` name (events), `params` and `result`. */
  datatype Frame =
    | Undecodable
    | Decoded(id: Option<int>, methodName: Option<string>, params: Option<Params>, result: Option<PropertiesResult>)

  /** `fmt`'s `%v` of a map lookup: the value, or `<nil>` for a missing key. */
  function FormatV(v: Option<string>): string
  {
    match v
    case Some(s) => s
    case None => "<nil>"
  }

  /** `fmt`'s `%s` of a map lookup: the value, or the bad-verb text for a missing key. */
  function FormatS(v: Option<string>): string
  {
    match v
    case Some(s) => s
    case None => "%!s(<nil>)"
  }
}
