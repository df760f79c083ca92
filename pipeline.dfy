/** The query-execution pipeline as a function of the collaborators' answers:
    the reference the methods in `Remote` are proved against. */
module Pipeline {
  import opened Wrappers
  import opened GoStrings
  import opened Models
  import opened Collaborators
  import opened Dispatch
  /** The duration reported when the client runs in mock mode. */
  const MockDuration := 123

  /** The query the embedded-SQL decoder runs when none is given. */
  const DefaultSQLiteQuery := "SELECT * FROM input"

  /** The context `fmt.Errorf` puts before a serialisation error. */
  const MarshalErrorContext := "error while marshaling the response object. "

  /** Everything the pipeline returns: the frame (as a snapshot), the error
      and the record of the collaborator calls it made, in order. */
  datatype Returned = Returned(frame: FrameValue, err: Option<Error>, calls: seq<Call>)

  /** The duration the pipeline reports for fetch result `f`. */
  function ReportedDuration(c: Client, f: FetchResult): int {
    if c.isMock then MockDuration else f.duration
  }

  /** The diagnostics record for fetch result `f` with error text `errorText`. */
  function Diagnostics(c: Client, q: Query, f: FetchResult, errorText: string): CustomMeta {
    CustomMeta(f.payload, f.statusCode, ReportedDuration(c, f), q, errorText)
  }

  /** The query handed to the embedded-SQL decoder for `sqliteQuery`. */
  function SQLiteQueryFor(sqliteQuery: string): string {
    if AllSpace(sqliteQuery) then DefaultSQLiteQuery else sqliteQuery
  }

  /** The three calls every run starts with. */
  function Prelude(q: Query, h: Headers): seq<Call> {
    [GetDummyFrame(q), GetResults(q, h), GetExecutedURL(q)]
  }

  /** The dummy frame once its executed query string is set. */
  function StampedDummy(c: Client, d: Decoders, q: Query): FrameValue
    requires d.dummyFrame.meta.Some?
  {
    var dummy := d.dummyFrame;
    FrameValue(dummy.table, Some(dummy.meta.value.(executedQueryString := c.executedURL)))
  }

  /** `base` with its `Meta` created if nil, then its executed query string
      and its `Custom` diagnostics set; its columns and other metadata kept. */
  function Annotated(base: FrameValue, url: string, diagnostics: CustomMeta): FrameValue {
    var meta := if base.meta.None? then EmptyMeta else base.meta.value;
    FrameValue(base.table, Some(meta.(executedQueryString := url, custom := Some(diagnostics))))
  }

  /** Annotating creates the metadata when there is none, sets the executed
      query string and the diagnostics, and keeps the columns and every other
      piece of metadata. */
  lemma AnnotatedKeeps(base: FrameValue, url: string, diagnostics: CustomMeta)
    ensures var r := Annotated(base, url, diagnostics);
      && r.table == base.table
      && r.meta.Some? && r.meta.value.executedQueryString == url && r.meta.value.custom == Some(diagnostics)
      && r.meta.value.others == (if base.meta.Some? then base.meta.value.others else [])
  {
  }

  /** Annotating again replaces the earlier diagnostics: the pipeline may set
      them once with an empty error text and then overwrite them. */
  lemma AnnotatedTwice(base: FrameValue, url: string, first: CustomMeta, second: CustomMeta)
    ensures Annotated(Annotated(base, url, first), url, second) == Annotated(base, url, second)
  {
  }

  /** A run ends by attaching diagnostics exactly when its last call is the
      reconstruction of the executed URL. */
  predicate EndsAnnotated(calls: seq<Call>) {
    |calls| > 0 && calls[|calls| - 1].GetExecutedURL?
  }

  /** The text recorded for an optional error: empty when there is none. */
  function ErrorTextOr(err: Option<Error>): string {
    if err.Some? then ErrorText(err.value) else ""
  }

  /** A run in the middle of dispatch: its state, and whether it has already
      returned early. */
  datatype Progress = Progress(state: Returned, exited: bool)

  /** A decoder call `call` that answered `r`: its frame and error replace the
      current ones, and its failure ends the run. */
  function Decoder(r: Decoded, cur: Returned, call: Call): Progress {
    Progress(Returned(r.frame, r.err, cur.calls + [call]), r.err.Some?)
  }

  /** One dispatch stage run on the current state, for the fetched `payload`.
      A stage ends the run when its own call fails, except post-processing,
      whose error is carried on to the final annotation. */
  function Step(d: Decoders, q: Query, payload: Payload, s: Stage, cur: Returned): Progress {
    match s
    case SheetsDecoding =>
      Decoder(d.googleSheets, cur, GetGoogleSheetsResponse(payload, q))
    case JSONDecoding =>
      Decoder(d.jsonBackend, cur, GetJSONBackendResponse(payload, q))
    case CSVDecoding =>
      // The text decoders take the payload's string, so the stage itself must
      // test for one; `Plan` and `BackendBlock` only schedule these stages
      // for a string payload, and then this test always succeeds.
      if payload.StringValue? then
        Decoder(d.csvBackend, cur, GetCSVBackendResponse(payload.s, q))
      else Progress(cur, false)
    case XMLDecoding =>
      if payload.StringValue? then
        Decoder(d.xmlBackend, cur, GetXMLBackendResponse(payload.s, q))
      else Progress(cur, false)
    case PostProcessing =>
      var r := d.postProcess;
      Progress(Returned(r.frame, r.err, cur.calls + [PostProcessFrame(cur.frame, q)]), false)
    case Marshalling =>
      var calls := cur.calls + [Marshal(payload)];
      if d.marshal.Failure? then
        Progress(Returned(cur.frame, Some(Wrapped(MarshalErrorContext, d.marshal.error)), calls), true)
      else Progress(Returned(cur.frame, cur.err, calls), false)
    case SQLiteDecoding =>
      // the error of the embedded-SQL block is local to it: on success the
      // pipeline's own error is left as it was
      match d.marshal
      case Success(body) =>
        var options := FramerOptions(SQLiteQueryFor(q.sqliteQuery), q.rootSelector);
        var r := d.jsonStringToFrame;
        var calls := cur.calls + [JsonStringToFrame(body, options)];
        if r.err.Some? then Progress(Returned(r.frame, r.err, calls), true)
        else Progress(Returned(r.frame, cur.err, calls), false)
      case Failure(_) => Progress(cur, false)
  }

  /** Stage `s`, if `enabled` and the run has not returned yet. */
  function Then(d: Decoders, q: Query, payload: Payload, p: Progress, enabled: bool, s: Stage): Progress {
    if p.exited || !enabled then p else Step(d, q, payload, s, p.state)
  }

  /** The stages run in order, the first failing one that exits early ending
      the run. */
  function Execute(d: Decoders, q: Query, payload: Payload, stages: seq<Stage>, p: Progress): Progress
    decreases |stages|
  {
    if stages == [] then p else Execute(d, q, payload, stages[1..], Then(d, q, payload, p, true, stages[0]))
  }

  /** The end of a run whose fetch succeeded: an early exit is returned as it
      is; otherwise the URL is stamped again and diagnostics are attached. */
  function Finish(c: Client, q: Query, f: FetchResult, p: Progress): Returned {
    if p.exited then p.state
    else
      Returned(Annotated(p.state.frame, c.executedURL, Diagnostics(c, q, f, ErrorTextOr(p.state.err))),
               p.state.err, p.state.calls + [GetExecutedURL(q)])
  }

  /** The pipeline as a function: the dispatch table executed in order with
      early exits, framed by the fetch and the final annotation. */
  function Run(c: Client, d: Decoders, q: Query, h: Headers, ppr: bool): Returned
    requires d.dummyFrame.meta.Some?
  {
    var f := c.results;
    var start := Returned(StampedDummy(c, d, q), f.err, Prelude(q, h));
    if f.err.Some? then
      Returned(Annotated(start.frame, c.executedURL, Diagnostics(c, q, f, ErrorText(f.err.value))),
               f.err, start.calls)
    else
      Finish(c, q, f, Execute(d, q, f.payload, Plan(q, f.payload, ppr), Progress(start, false)))
  }

  /** Running an optional stage in front of `rest`. */
  lemma ExecuteGuarded(d: Decoders, q: Query, payload: Payload, b: bool, s: Stage, rest: seq<Stage>, p: Progress)
    ensures Execute(d, q, payload, (if b then [s] else []) + rest, p) == Execute(d, q, payload, rest, Then(d, q, payload, p, b, s))
  {
    if b {
      assert ([s] + rest)[0] == s && ([s] + rest)[1..] == rest;
    } else {
      assert [] + rest == rest;
    }
  }

  /** The Google Sheets block of the dispatch table. */
  function SheetsBlock(d: Decoders, q: Query, payload: Payload, p: Progress): Progress {
    Then(d, q, payload, p, q.queryType == GSheets, SheetsDecoding)
  }

  /** The backend-parser block: one decoder chosen by the query type (a text
      decoder only for a string payload), then the post-processor if required. */
  function BackendBlock(d: Decoders, q: Query, payload: Payload, ppr: bool, p: Progress): Progress {
    var t, backend, str := q.queryType, q.parser == Backend, payload.StringValue?;
    var p1 := Then(d, q, payload, p, backend && (t == JSON || t == GraphQL), JSONDecoding);
    var p2 := Then(d, q, payload, p1, backend && (t == CSV || t == TSV) && str, CSVDecoding);
    var p3 := Then(d, q, payload, p2, backend && (t == XML || t == HTML) && str, XMLDecoding);
    Then(d, q, payload, p3, backend && ppr, PostProcessing)
  }

  /** The embedded-SQL block: serialise, then decode with SQL. */
  function SQLiteBlock(d: Decoders, q: Query, payload: Payload, p: Progress): Progress {
    var sqlite := q.queryType == JSON && q.parser == SQLite;
    Then(d, q, payload, Then(d, q, payload, p, sqlite, Marshalling), sqlite, SQLiteDecoding)
  }

  /** The dispatch table executed stage by stage is the three blocks of the
      pipeline run one after the other, each stage under its condition. */
  lemma ExecutePlan(d: Decoders, q: Query, payload: Payload, ppr: bool, p: Progress)
    ensures Execute(d, q, payload, Plan(q, payload, ppr), p)
         == SQLiteBlock(d, q, payload, BackendBlock(d, q, payload, ppr, SheetsBlock(d, q, payload, p)))
  {
    var t, backend, str := q.queryType, q.parser == Backend, payload.StringValue?;
    var sqlite := t == JSON && q.parser == SQLite;
    var tail := if sqlite then [Marshalling, SQLiteDecoding] else [];
    var post := (if backend && ppr then [PostProcessing] else []) + tail;
    var xml := (if backend && (t == XML || t == HTML) && str then [XMLDecoding] else []) + post;
    var csv := (if backend && (t == CSV || t == TSV) && str then [CSVDecoding] else []) + xml;
    var json := (if backend && (t == JSON || t == GraphQL) then [JSONDecoding] else []) + csv;
    var p1 := Then(d, q, payload, p, t == GSheets, SheetsDecoding);
    var p2 := Then(d, q, payload, p1, backend && (t == JSON || t == GraphQL), JSONDecoding);
    var p3 := Then(d, q, payload, p2, backend && (t == CSV || t == TSV) && str, CSVDecoding);
    var p4 := Then(d, q, payload, p3, backend && (t == XML || t == HTML) && str, XMLDecoding);
    var p5 := Then(d, q, payload, p4, backend && ppr, PostProcessing);
    ExecuteGuarded(d, q, payload, t == GSheets, SheetsDecoding, json, p);
    ExecuteGuarded(d, q, payload, backend && (t == JSON || t == GraphQL), JSONDecoding, csv, p1);
    ExecuteGuarded(d, q, payload, backend && (t == CSV || t == TSV) && str, CSVDecoding, xml, p2);
    ExecuteGuarded(d, q, payload, backend && (t == XML || t == HTML) && str, XMLDecoding, post, p3);
    ExecuteGuarded(d, q, payload, backend && ppr, PostProcessing, tail, p4);
    ExecuteGuarded(d, q, payload, sqlite, Marshalling, if sqlite then [SQLiteDecoding] else [], p5);
    ExecuteGuarded(d, q, payload, sqlite, SQLiteDecoding, [], Then(d, q, payload, p5, sqlite, Marshalling));
    assert tail == (if sqlite then [Marshalling] else []) + (if sqlite then [SQLiteDecoding] else []);
    assert (if sqlite then [SQLiteDecoding] else []) == (if sqlite then [SQLiteDecoding] else []) + [];
  }

  /** A run whose fetch succeeded is the three blocks run on the stamped dummy
      frame, then finished. */
  lemma RunByBlocks(c: Client, d: Decoders, q: Query, h: Headers, ppr: bool)
    requires d.dummyFrame.meta.Some? && c.results.err.None?
    ensures
      var f := c.results;
      var start := Progress(Returned(StampedDummy(c, d, q), None, Prelude(q, h)), false);
      Run(c, d, q, h, ppr)
        == Finish(c, q, f, SQLiteBlock(d, q, f.payload, BackendBlock(d, q, f.payload, ppr, SheetsBlock(d, q, f.payload, start))))
  {
    var f := c.results;
    ExecutePlan(d, q, f.payload, ppr, Progress(Returned(StampedDummy(c, d, q), None, Prelude(q, h)), false));
  }
}
