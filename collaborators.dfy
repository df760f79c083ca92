/** The collaborators the pipeline calls and cannot see: the fetch client, the
    dummy-frame builder, the five decoders, the post-processor and `json.Marshal`.
    Each may succeed or fail. */
module Collaborators {
  import opened Wrappers
  import opened Models

  type Headers = map<string, string>

  /** What `Client.GetResults` returns: payload, status code, duration, error. */
  datatype FetchResult = FetchResult(payload: Payload, statusCode: int, duration: int, err: Option<Error>)

  /** What a decoder or the post-processor returns: a frame and an error. */
  datatype Decoded = Decoded(frame: FrameValue, err: Option<Error>)

  /** `Client`, by what it answers during one run: the result of
      `GetResults` for the query and headers, the URL `GetExecutedURL`
      reconstructs for the query, and its mock flag. */
  datatype Client = Client(results: FetchResult, executedURL: string, isMock: bool)

  /** `jsonFramer.JSONFramerOptions` with `FramerType` fixed to SQLite3. */
  datatype FramerOptions = FramerOptions(sqlite3Query: string, rootSelector: string)

  /** The other collaborators, by what each answers during one run. Within
      one run each of them is invoked at most once, with arguments fixed by
      the query, the fetched payload and the frame at hand (the record of
      calls shows which), so one answer per collaborator loses nothing. */
  datatype Decoders = Decoders(
    dummyFrame: FrameValue,
    googleSheets: Decoded,
    jsonBackend: Decoded,
    csvBackend: Decoded,
    xmlBackend: Decoded,
    postProcess: Decoded,
    marshal: Result<string, Error>,
    jsonStringToFrame: Decoded)

  /** One invocation of a collaborator, with the arguments it received. */
  datatype Call =
    | GetDummyFrame(query: Query)
    | GetResults(query: Query, headers: Headers)
    | GetExecutedURL(query: Query)
    | GetGoogleSheetsResponse(payload: Payload, query: Query)
    | GetJSONBackendResponse(payload: Payload, query: Query)
    | GetCSVBackendResponse(text: string, query: Query)
    | GetXMLBackendResponse(text: string, query: Query)
    | PostProcessFrame(input: FrameValue, query: Query)
    | Marshal(payload: Payload)
    | JsonStringToFrame(body: string, options: FramerOptions)

  /** The calls that produce a frame. */
  predicate ProducesFrame(c: Call) {
    || c.GetGoogleSheetsResponse? || c.GetJSONBackendResponse? || c.GetCSVBackendResponse?
    || c.GetXMLBackendResponse? || c.PostProcessFrame? || c.JsonStringToFrame?
  }

  /** What the collaborator answered to call `c`. */
  function Replay(d: Decoders, c: Call): Decoded
    requires ProducesFrame(c)
  {
    match c
    case GetGoogleSheetsResponse(_, _) => d.googleSheets
    case GetJSONBackendResponse(_, _) => d.jsonBackend
    case GetCSVBackendResponse(_, _) => d.csvBackend
    case GetXMLBackendResponse(_, _) => d.xmlBackend
    case PostProcessFrame(_, _) => d.postProcess
    case JsonStringToFrame(_, _) => d.jsonStringToFrame
  }
}
