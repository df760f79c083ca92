/** What the pipeline promises, stated about `Pipeline.Run` (which the methods
    in `Remote` are proved to compute): a closed form of every run, and the
    behaviour of each exit path. */
module Properties {
  import opened Wrappers
  import opened GoStrings
  import opened Models
  import opened Collaborators
  import opened Dispatch
  import opened Pipeline

  /** The decoder call the dispatch makes outside the embedded-SQL path, if
      any: the spreadsheet decoder for GSheets; under the "backend" parser the
      JSON decoder for JSON and GraphQL, and for a string payload the
      delimited-text decoder for CSV and TSV and the markup decoder for XML
      and HTML. */
  function SelectedDecoder(q: Query, payload: Payload): Option<Call> {
    var t := q.queryType;
    if t == GSheets then Some(GetGoogleSheetsResponse(payload, q))
    else if q.parser != Backend then None
    else if t == JSON || t == GraphQL then Some(GetJSONBackendResponse(payload, q))
    else if !payload.StringValue? then None
    else if t == CSV || t == TSV then Some(GetCSVBackendResponse(payload.s, q))
    else if t == XML || t == HTML then Some(GetXMLBackendResponse(payload.s, q))
    else None
  }

  /** Whether the query takes the embedded-SQL path. */
  predicate SQLitePath(q: Query) {
    q.queryType == JSON && q.parser == SQLite
  }

  /** The calls a list of optional calls stands for. */
  function Calls(call: Option<Call>): seq<Call> {
    if call.Some? then [call.value] else []
  }

  /** Every run in closed form, path by path: a failed fetch; the embedded-SQL
      path (serialisation failure, decoder failure, success); the other paths
      (decoder failure, then with or without post-processing). Only the
      successful paths, and a failed fetch, attach diagnostics. */
  function Outcome(c: Client, d: Decoders, q: Query, h: Headers, ppr: bool): Returned
    requires d.dummyFrame.meta.Some?
  {
    var f := c.results;
    var pre := Prelude(q, h);
    var stamped := StampedDummy(c, d, q);
    if f.err.Some? then
      Returned(Annotated(stamped, c.executedURL, Diagnostics(c, q, f, ErrorText(f.err.value))), f.err, pre)
    else if SQLitePath(q) then
      match d.marshal
      case Failure(e) => Returned(stamped, Some(Wrapped(MarshalErrorContext, e)), pre + [Marshal(f.payload)])
      case Success(body) =>
        var r := d.jsonStringToFrame;
        var calls := pre + [Marshal(f.payload), JsonStringToFrame(body, FramerOptions(SQLiteQueryFor(q.sqliteQuery), q.rootSelector))];
        if r.err.Some? then Returned(r.frame, r.err, calls)
        else Returned(Annotated(r.frame, c.executedURL, Diagnostics(c, q, f, "")), None, calls + [GetExecutedURL(q)])
    else
      var decoder := SelectedDecoder(q, f.payload);
      var decoded := pre + Calls(decoder);
      if decoder.Some? && Replay(d, decoder.value).err.Some? then
        Returned(Replay(d, decoder.value).frame, Replay(d, decoder.value).err, decoded)
      else
        var base := if decoder.Some? then Replay(d, decoder.value).frame else stamped;
        if q.parser == Backend && ppr then
          var post := d.postProcess;
          Returned(Annotated(post.frame, c.executedURL, Diagnostics(c, q, f, ErrorTextOr(post.err))), post.err,
                   decoded + [PostProcessFrame(base, q), GetExecutedURL(q)])
        else
          Returned(Annotated(base, c.executedURL, Diagnostics(c, q, f, "")), None, decoded + [GetExecutedURL(q)])
  }

  /** The embedded-SQL path in closed form: only its block runs. */
  lemma RunClosedFormSQLite(c: Client, d: Decoders, q: Query, h: Headers, ppr: bool)
    requires d.dummyFrame.meta.Some? && c.results.err.None? && SQLitePath(q)
    ensures Run(c, d, q, h, ppr) == Outcome(c, d, q, h, ppr)
  {
    RunByBlocks(c, d, q, h, ppr);
  }

  /** The spreadsheet path in closed form: its decoder, then the backend
      block, of which only post-processing can apply. */
  lemma RunClosedFormSheets(c: Client, d: Decoders, q: Query, h: Headers, ppr: bool)
    requires d.dummyFrame.meta.Some? && c.results.err.None? && q.queryType == GSheets
    ensures Run(c, d, q, h, ppr) == Outcome(c, d, q, h, ppr)
  {
    RunByBlocks(c, d, q, h, ppr);
  }

  /** The remaining paths in closed form: only the backend block can apply. */
  lemma RunClosedFormBackend(c: Client, d: Decoders, q: Query, h: Headers, ppr: bool)
    requires d.dummyFrame.meta.Some? && c.results.err.None? && !SQLitePath(q) && q.queryType != GSheets
    ensures Run(c, d, q, h, ppr) == Outcome(c, d, q, h, ppr)
  {
    RunByBlocks(c, d, q, h, ppr);
  }

  /** The pipeline, stage by stage, has the closed form above. */
  lemma RunClosedForm(c: Client, d: Decoders, q: Query, h: Headers, ppr: bool)
    requires d.dummyFrame.meta.Some?
    ensures Run(c, d, q, h, ppr) == Outcome(c, d, q, h, ppr)
  {
    if c.results.err.None? {
      if SQLitePath(q) {
        RunClosedFormSQLite(c, d, q, h, ppr);
      } else if q.queryType == GSheets {
        RunClosedFormSheets(c, d, q, h, ppr);
      } else {
        RunClosedFormBackend(c, d, q, h, ppr);
      }
    }
  }

  /** A failed fetch calls no decoder and no post-processor: the dummy frame
      is returned with the fetch error, stamped with the executed URL and
      carrying diagnostics with the error's text. */
  lemma FetchErrorExit(c: Client, d: Decoders, q: Query, h: Headers, ppr: bool)
    requires d.dummyFrame.meta.Some? && c.results.err.Some?
    ensures var out, f := Run(c, d, q, h, ppr), c.results;
      && out.err == f.err
      && out.calls == [GetDummyFrame(q), GetResults(q, h), GetExecutedURL(q)]
      && out.frame == Annotated(d.dummyFrame, c.executedURL, Diagnostics(c, q, f, ErrorText(f.err.value)))
  {
  }

  /** Whenever diagnostics are attached (a failed fetch, or a run that reaches
      the end), the frame's executed query string is the executed URL, and its
      diagnostics hold the payload, the status code, the query, the returned
      error's text (empty when there is none) and the duration, which is 123
      in mock mode whatever the fetch reported. */
  lemma DiagnosticsAttached(c: Client, d: Decoders, q: Query, h: Headers, ppr: bool)
    requires d.dummyFrame.meta.Some?
    ensures var out, f := Run(c, d, q, h, ppr), c.results;
      EndsAnnotated(out.calls) ==>
        && out.frame.meta.Some?
        && out.frame.meta.value.executedQueryString == c.executedURL
        && out.frame.meta.value.custom.Some?
        && var custom := out.frame.meta.value.custom.value;
           && custom.data == f.payload
           && custom.responseCodeFromServer == f.statusCode
           && custom.query == q
           && custom.duration == (if c.isMock then 123 else f.duration)
           && custom.error == (if out.err.Some? then ErrorText(out.err.value) else "")
  {
    RunClosedForm(c, d, q, h, ppr);
  }

  /** Whether a decoder, or the serialisation, fails on the path `q` takes. */
  predicate DispatchFails(d: Decoders, q: Query, payload: Payload) {
    if SQLitePath(q) then d.marshal.Failure? || d.jsonStringToFrame.err.Some?
    else
      var decoder := SelectedDecoder(q, payload);
      decoder.Some? && Replay(d, decoder.value).err.Some?
  }

  /** Diagnostics are attached exactly when the fetch fails or no decoder and
      no serialisation fails: the early exits return without them. */
  lemma AnnotatedExactly(c: Client, d: Decoders, q: Query, h: Headers, ppr: bool)
    requires d.dummyFrame.meta.Some?
    ensures var out, f := Run(c, d, q, h, ppr), c.results;
      EndsAnnotated(out.calls) <==> f.err.Some? || !DispatchFails(d, q, f.payload)
  {
    RunClosedForm(c, d, q, h, ppr);
  }

  /** A failing decoder ends the run at once: its frame and error are
      returned, nothing is called after it and no diagnostics are attached. */
  lemma DecoderFailureExitsEarly(c: Client, d: Decoders, q: Query, h: Headers, ppr: bool)
    requires d.dummyFrame.meta.Some? && c.results.err.None?
    requires !SQLitePath(q) && SelectedDecoder(q, c.results.payload).Some?
    requires Replay(d, SelectedDecoder(q, c.results.payload).value).err.Some?
    ensures var out, call := Run(c, d, q, h, ppr), SelectedDecoder(q, c.results.payload).value;
      && Decoded(out.frame, out.err) == Replay(d, call)
      && out.calls == Prelude(q, h) + [call]
  {
    RunClosedForm(c, d, q, h, ppr);
  }

  /** On the embedded-SQL path a serialisation failure returns the stamped
      dummy frame with the wrapped error, and a failing SQL decoder returns its
      own frame and error; neither attaches diagnostics. */
  lemma SQLiteFailureExitsEarly(c: Client, d: Decoders, q: Query, h: Headers, ppr: bool)
    requires d.dummyFrame.meta.Some? && c.results.err.None? && SQLitePath(q)
    ensures var out := Run(c, d, q, h, ppr);
      && (d.marshal.Failure? ==>
            out == Returned(StampedDummy(c, d, q), Some(Wrapped(MarshalErrorContext, d.marshal.error)),
                            Prelude(q, h) + [Marshal(c.results.payload)]))
      && (d.marshal.Success? && d.jsonStringToFrame.err.Some? ==>
            && Decoded(out.frame, out.err) == d.jsonStringToFrame
            && !EndsAnnotated(out.calls))
  {
    RunClosedForm(c, d, q, h, ppr);
  }

  /** The embedded-SQL decoder gets the serialised payload, the query's SQL or,
      when that is blank, exactly "SELECT * FROM input", and the root selector. */
  lemma SQLiteOptions(c: Client, d: Decoders, q: Query, h: Headers, ppr: bool)
    requires d.dummyFrame.meta.Some? && c.results.err.None? && SQLitePath(q) && d.marshal.Success?
    ensures var out := Run(c, d, q, h, ppr);
      var sql := if TrimSpace(q.sqliteQuery) == "" then "SELECT * FROM input" else q.sqliteQuery;
      |out.calls| >= 5 && out.calls[..5] == Prelude(q, h) + [Marshal(c.results.payload), JsonStringToFrame(d.marshal.value, FramerOptions(sql, q.rootSelector))]
  {
    RunClosedForm(c, d, q, h, ppr);
  }

  /** The calls of the four format decoders (spreadsheet, JSON, delimited
      text, markup). */
  predicate FormatDecoderCall(call: Call) {
    call.GetGoogleSheetsResponse? || call.GetJSONBackendResponse? || call.GetCSVBackendResponse? || call.GetXMLBackendResponse?
  }

  /** In the closed form a format decoder is called at most once, right after
      the prelude, and it is the selected one. */
  lemma OutcomeFormatDecoder(c: Client, d: Decoders, q: Query, h: Headers, ppr: bool)
    requires d.dummyFrame.meta.Some?
    ensures var out, f := Outcome(c, d, q, h, ppr), c.results;
      var decoder := SelectedDecoder(q, f.payload);
      var selected := f.err.None? && !SQLitePath(q) && decoder.Some?;
      && (forall i | 0 <= i < |out.calls| :: FormatDecoderCall(out.calls[i]) ==> i == 3 && selected)
      && (selected ==> |out.calls| > 3 && out.calls[3] == decoder.value)
  {
    var out, f := Outcome(c, d, q, h, ppr), c.results;
    var pre := Prelude(q, h);
    if f.err.Some? {
      assert out.calls == pre;
    } else if SQLitePath(q) {
      assert out.calls[..4] == pre + [Marshal(f.payload)];
      assert forall i | 4 <= i < |out.calls| :: !FormatDecoderCall(out.calls[i]);
    } else {
      var decoded := pre + Calls(SelectedDecoder(q, f.payload));
      assert out.calls[..|decoded|] == decoded;
      assert forall i | |decoded| <= i < |out.calls| :: out.calls[i].PostProcessFrame? || out.calls[i].GetExecutedURL?;
    }
  }

  /** Under the "backend" parser the delimited-text decoder is called exactly
      for CSV and TSV queries with a string payload, and then with that string. */
  lemma StringGuardCSV(c: Client, d: Decoders, q: Query, h: Headers, ppr: bool)
    requires d.dummyFrame.meta.Some?
    ensures var out, f := Run(c, d, q, h, ppr), c.results;
      && ((exists call | call in out.calls :: call.GetCSVBackendResponse?) <==>
            f.err.None? && q.parser == Backend && q.queryType in {CSV, TSV} && f.payload.StringValue?)
      && (forall s, q' | GetCSVBackendResponse(s, q') in out.calls :: f.payload == StringValue(s) && q' == q)
  {
    RunClosedForm(c, d, q, h, ppr);
    OutcomeFormatDecoder(c, d, q, h, ppr);
  }

  /** Under the "backend" parser the markup decoder is called exactly for XML
      and HTML queries with a string payload, and then with that string. */
  lemma StringGuardXML(c: Client, d: Decoders, q: Query, h: Headers, ppr: bool)
    requires d.dummyFrame.meta.Some?
    ensures var out, f := Run(c, d, q, h, ppr), c.results;
      && ((exists call | call in out.calls :: call.GetXMLBackendResponse?) <==>
            f.err.None? && q.parser == Backend && q.queryType in {XML, HTML} && f.payload.StringValue?)
      && (forall s, q' | GetXMLBackendResponse(s, q') in out.calls :: f.payload == StringValue(s) && q' == q)
  {
    RunClosedForm(c, d, q, h, ppr);
    OutcomeFormatDecoder(c, d, q, h, ppr);
  }

  /** A text query whose payload is not a string skips its decoder without
      an error: the stamped dummy frame goes on to post-processing (when
      requested) and to the final annotation. */
  lemma StringGuardSkips(c: Client, d: Decoders, q: Query, h: Headers, ppr: bool)
    requires d.dummyFrame.meta.Some? && c.results.err.None? && !c.results.payload.StringValue?
    requires q.parser == Backend && q.queryType in {CSV, TSV, XML, HTML}
    ensures var out := Run(c, d, q, h, ppr);
      && out.calls == Prelude(q, h) + (if ppr then [PostProcessFrame(StampedDummy(c, d, q), q)] else []) + [GetExecutedURL(q)]
      && out.err == (if ppr then d.postProcess.err else None)
  {
    RunClosedForm(c, d, q, h, ppr);
  }

  /** In the closed form the post-processor is called at most once, right
      before the final annotation, exactly under the "backend" parser when
      requested and no decoder failed; it gets the selected decoder's frame,
      or the stamped dummy frame when no decoder applies. */
  lemma OutcomePostProcessing(c: Client, d: Decoders, q: Query, h: Headers, ppr: bool)
    requires d.dummyFrame.meta.Some?
    ensures var out, f := Outcome(c, d, q, h, ppr), c.results;
      var decoder := SelectedDecoder(q, f.payload);
      var base := if decoder.Some? then Replay(d, decoder.value).frame else StampedDummy(c, d, q);
      var posted := f.err.None? && q.parser == Backend && ppr && !DispatchFails(d, q, f.payload);
      && (forall i | 0 <= i < |out.calls| :: out.calls[i].PostProcessFrame? ==> posted && i == |out.calls| - 2)
      && (posted ==> |out.calls| >= 2 && out.calls[|out.calls| - 2] == PostProcessFrame(base, q))
  {
    var out, f := Outcome(c, d, q, h, ppr), c.results;
    var pre := Prelude(q, h);
    if f.err.Some? {
      assert out.calls == pre;
    } else if SQLitePath(q) {
      assert out.calls[..4] == pre + [Marshal(f.payload)];
      assert forall i | 4 <= i < |out.calls| :: !out.calls[i].PostProcessFrame?;
    } else {
      var decoded := pre + Calls(SelectedDecoder(q, f.payload));
      assert out.calls[..|decoded|] == decoded;
      assert forall i | 0 <= i < |decoded| :: !out.calls[i].PostProcessFrame?;
    }
  }

  /** Post-processing runs exactly under the "backend" parser when requested,
      unless the fetch or the decoder failed. */
  lemma PostProcessingCondition(c: Client, d: Decoders, q: Query, h: Headers, ppr: bool)
    requires d.dummyFrame.meta.Some?
    ensures var out, f := Run(c, d, q, h, ppr), c.results;
      (exists call | call in out.calls :: call.PostProcessFrame?) <==>
        f.err.None? && q.parser == Backend && ppr && !DispatchFails(d, q, f.payload)
  {
    RunClosedForm(c, d, q, h, ppr);
    OutcomePostProcessing(c, d, q, h, ppr);
    var out := Run(c, d, q, h, ppr);
    if |out.calls| >= 2 {
      assert out.calls[|out.calls| - 2] in out.calls;
    }
  }

  /** The post-processor gets the decoder's frame (the spreadsheet decoder's
      too), or the stamped dummy frame when no decoder applies. */
  lemma PostProcessingInput(c: Client, d: Decoders, q: Query, h: Headers, ppr: bool)
    requires d.dummyFrame.meta.Some?
    ensures var out, f := Run(c, d, q, h, ppr), c.results;
      var decoder := SelectedDecoder(q, f.payload);
      forall input, q' | PostProcessFrame(input, q') in out.calls ::
        q' == q && input == (if decoder.Some? then Replay(d, decoder.value).frame else StampedDummy(c, d, q))
  {
    RunClosedForm(c, d, q, h, ppr);
    OutcomePostProcessing(c, d, q, h, ppr);
  }

  /** On normal completion the error returned, and recorded, is the
      post-processor's when it ran and none otherwise; the frame is the last
      stage's (the stamped dummy frame if no stage ran) with diagnostics. */
  lemma FinalExit(c: Client, d: Decoders, q: Query, h: Headers, ppr: bool)
    requires d.dummyFrame.meta.Some? && c.results.err.None?
    ensures var out, f := Run(c, d, q, h, ppr), c.results;
      var n := |out.calls|;
      EndsAnnotated(out.calls) ==>
        && n >= 4
        && var prev := out.calls[n - 2];
           && (prev.GetExecutedURL? || ProducesFrame(prev))
           && var base := if prev.GetExecutedURL? then StampedDummy(c, d, q) else Replay(d, prev).frame;
              && out.err == (if prev.PostProcessFrame? then d.postProcess.err else None)
              && out.frame == Annotated(base, c.executedURL, Diagnostics(c, q, f, ErrorTextOr(out.err)))
  {
    RunClosedForm(c, d, q, h, ppr);
  }

  /** Outside the embedded-SQL path the dispatch table is the selected
      decoder's stage, then post-processing when it applies. */
  lemma PlanOutsideSQLite(q: Query, payload: Payload, ppr: bool)
    requires !SQLitePath(q)
    ensures var decoder := SelectedDecoder(q, payload);
      Plan(q, payload, ppr)
        == (if decoder.Some? then StageOf(decoder.value) else [])
           + (if q.parser == Backend && ppr then [PostProcessing] else [])
  {
  }

  /** The entry point always requests post-processing, so under the "backend"
      parser it runs whenever the fetch and the decoder succeed, on every
      query type. */
  lemma EntryPointPostProcesses(c: Client, d: Decoders, q: Query, h: Headers)
    requires d.dummyFrame.meta.Some?
    ensures var out, f := Run(c, d, q, h, true), c.results;
      (exists call | call in out.calls :: call.PostProcessFrame?) <==>
        f.err.None? && q.parser == Backend && !DispatchFails(d, q, f.payload)
  {
    PostProcessingCondition(c, d, q, h, true);
  }
}
