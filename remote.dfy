/** `GetFrameForURLSources` and `GetFrameForURLSourcesWithPostProcessing`:
    fetch, dispatch to a decoder, optionally post-process, attach diagnostics.
    Each dispatch block of the source is a method of its own, proved against
    the stages of `Pipeline.Run` it covers. */
module Remote {
  import opened Wrappers
  import opened GoStrings
  import opened Models
  import opened Collaborators
  import opened Dispatch
  import opened Pipeline

  /** The Google Sheets block: decode the payload as a spreadsheet and return
      at once if that fails. */
  method DispatchGoogleSheets(
    query: Query, decoders: Decoders, urlResponseObject: Payload,
    frame0: Frame, err0: Option<Error>, calls0: seq<Call>)
    returns (frame: Frame, err: Option<Error>, calls: seq<Call>, exited: bool)
    ensures frame == frame0 || fresh(frame)
    ensures Progress(Returned(frame.Value(), err, calls), exited)
         == SheetsBlock(decoders, query, urlResponseObject, Progress(Returned(frame0.Value(), err0, calls0), false))
  {
    frame, err, calls, exited := frame0, err0, calls0, false;
    if query.queryType == GSheets {
      var r := decoders.googleSheets;
      calls := calls + [GetGoogleSheetsResponse(urlResponseObject, query)];
      frame := new Frame(r.frame);
      err := r.err;
      if err.Some? {
        return frame, err, calls, true;
      }
    }
  }

  /** The backend-parser block: the JSON, CSV and XML decoders, each guarded
      by the query type (and, for text formats, by the payload being a
      string), then the post-processor when it is requested. */
  method DispatchBackend(
    query: Query, decoders: Decoders, urlResponseObject: Payload, postProcessingRequired: bool,
    frame0: Frame, err0: Option<Error>, calls0: seq<Call>)
    returns (frame: Frame, err: Option<Error>, calls: seq<Call>, exited: bool)
    ensures frame == frame0 || fresh(frame)
    ensures Progress(Returned(frame.Value(), err, calls), exited)
         == BackendBlock(decoders, query, urlResponseObject, postProcessingRequired,
                         Progress(Returned(frame0.Value(), err0, calls0), false))
  {
    frame, err, calls, exited := frame0, err0, calls0, false;
    if query.parser == Backend {
      if query.queryType == JSON || query.queryType == GraphQL {
        var r := decoders.jsonBackend;
        calls := calls + [GetJSONBackendResponse(urlResponseObject, query)];
        frame := new Frame(r.frame);
        err := r.err;
        if err.Some? {
          return frame, err, calls, true;
        }
      }
      if query.queryType == CSV || query.queryType == TSV {
        if urlResponseObject.StringValue? {
          var responseString := urlResponseObject.s;
          var r := decoders.csvBackend;
          calls := calls + [GetCSVBackendResponse(responseString, query)];
          frame := new Frame(r.frame);
          err := r.err;
          if err.Some? {
            return frame, err, calls, true;
          }
        }
      }
      if query.queryType == XML || query.queryType == HTML {
        if urlResponseObject.StringValue? {
          var responseString := urlResponseObject.s;
          var r := decoders.xmlBackend;
          calls := calls + [GetXMLBackendResponse(responseString, query)];
          frame := new Frame(r.frame);
          err := r.err;
          if err.Some? {
            return frame, err, calls, true;
          }
        }
      }
      if postProcessingRequired {
        var r := decoders.postProcess;
        calls := calls + [PostProcessFrame(frame.Value(), query)];
        frame := new Frame(r.frame);
        err := r.err;
      }
    }
  }

  /** The embedded-SQL block for JSON queries: serialise the payload, then
      decode it with the query's SQL (a default one when the query's is
      blank). Its error variable is its own, so on success the caller's
      error is left as it was. */
  method DispatchSQLite(
    query: Query, decoders: Decoders, urlResponseObject: Payload,
    frame0: Frame, err0: Option<Error>, calls0: seq<Call>)
    returns (frame: Frame, err: Option<Error>, calls: seq<Call>, exited: bool)
    ensures frame == frame0 || fresh(frame)
    ensures Progress(Returned(frame.Value(), err, calls), exited)
         == SQLiteBlock(decoders, query, urlResponseObject, Progress(Returned(frame0.Value(), err0, calls0), false))
  {
    frame, err, calls, exited := frame0, err0, calls0, false;
    if query.queryType == JSON && query.parser == SQLite {
      var sqliteQuery := query.sqliteQuery;
      if TrimSpace(sqliteQuery) == "" {
        sqliteQuery := DefaultSQLiteQuery;
      }
      assert sqliteQuery == SQLiteQueryFor(query.sqliteQuery);
      var body := decoders.marshal;
      calls := calls + [Marshal(urlResponseObject)];
      if body.Failure? {
        return frame, Some(Wrapped(MarshalErrorContext, body.error)), calls, true;
      }
      var options := FramerOptions(sqliteQuery, query.rootSelector);
      var r := decoders.jsonStringToFrame;
      calls := calls + [JsonStringToFrame(body.value, options)];
      frame := new Frame(r.frame);
      if r.err.Some? {
        return frame, r.err, calls, true;
      }
    }
  }

  /** The pipeline: fetch, return the annotated dummy frame if that fails,
      else run the dispatch blocks and attach diagnostics to the result. */
  method GetFrameForURLSourcesWithPostProcessing(
    query: Query, infClient: Client, decoders: Decoders, requestHeaders: Headers, postProcessingRequired: bool)
    returns (frame: Frame, err: Option<Error>, calls: seq<Call>)
    requires decoders.dummyFrame.meta.Some?
    ensures Returned(frame.Value(), err, calls) == Run(infClient, decoders, query, requestHeaders, postProcessingRequired)
    ensures fresh(frame)
  {
    frame := new Frame(decoders.dummyFrame);
    calls := [GetDummyFrame(query)];
    var fetched := infClient.results;
    calls := calls + [GetResults(query, requestHeaders)];
    var urlResponseObject, statusCode, duration := fetched.payload, fetched.statusCode, fetched.duration;
    err := fetched.err;
    frame.meta := Some(frame.meta.value.(executedQueryString := infClient.executedURL));
    calls := calls + [GetExecutedURL(query)];
    if infClient.isMock {
      duration := MockDuration;
    }
    if err.Some? {
      frame.meta := Some(frame.meta.value.(custom := Some(CustomMeta(urlResponseObject, statusCode, duration, query, ErrorText(err.value)))));
      return;
    }
    assert Returned(frame.Value(), err, calls) == Returned(StampedDummy(infClient, decoders, query), None, Prelude(query, requestHeaders));
    RunByBlocks(infClient, decoders, query, requestHeaders, postProcessingRequired);
    var exited;
    frame, err, calls, exited := DispatchGoogleSheets(query, decoders, urlResponseObject, frame, err, calls);
    if exited {
      return;
    }
    frame, err, calls, exited := DispatchBackend(query, decoders, urlResponseObject, postProcessingRequired, frame, err, calls);
    if exited {
      return;
    }
    frame, err, calls, exited := DispatchSQLite(query, decoders, urlResponseObject, frame, err, calls);
    if exited {
      return;
    }
    if frame.meta.None? {
      frame.meta := Some(EmptyMeta);
    }
    frame.meta := Some(frame.meta.value.(executedQueryString := infClient.executedURL));
    calls := calls + [GetExecutedURL(query)];
    if infClient.isMock {
      duration := MockDuration;
    }
    frame.meta := Some(frame.meta.value.(custom := Some(CustomMeta(urlResponseObject, statusCode, duration, query, ""))));
    if err.Some? {
      frame.meta := Some(frame.meta.value.(custom := Some(CustomMeta(urlResponseObject, statusCode, duration, query, ErrorText(err.value)))));
      return;
    }
  }

  /** The entry point: the pipeline with post-processing always requested. */
  method GetFrameForURLSources(query: Query, infClient: Client, decoders: Decoders, requestHeaders: Headers)
    returns (frame: Frame, err: Option<Error>, calls: seq<Call>)
    requires decoders.dummyFrame.meta.Some?
    ensures Returned(frame.Value(), err, calls) == Run(infClient, decoders, query, requestHeaders, true)
    ensures fresh(frame)
  {
    frame, err, calls := GetFrameForURLSourcesWithPostProcessing(query, infClient, decoders, requestHeaders, true);
  }
}
