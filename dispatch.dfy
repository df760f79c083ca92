/** Which dispatch branches of the pipeline are entered for a query, as an
    ordered list of stages: the dispatch table that `Pipeline.Run` executes. */
module Dispatch {
  import opened Models
  import opened Collaborators

  const Backend := "backend"
  const SQLite := "sqlite"

  datatype Stage =
    | SheetsDecoding
    | JSONDecoding
    | CSVDecoding
    | XMLDecoding
    | PostProcessing
    | Marshalling
    | SQLiteDecoding

  predicate IsDecoding(s: Stage) {
    !s.PostProcessing? && !s.Marshalling?
  }

  /** The stage a collaborator call belongs to; calls outside dispatch have none. */
  function StageOf(c: Call): seq<Stage> {
    match c
    case GetGoogleSheetsResponse(_, _) => [SheetsDecoding]
    case GetJSONBackendResponse(_, _) => [JSONDecoding]
    case GetCSVBackendResponse(_, _) => [CSVDecoding]
    case GetXMLBackendResponse(_, _) => [XMLDecoding]
    case PostProcessFrame(_, _) => [PostProcessing]
    case Marshal(_) => [Marshalling]
    case JsonStringToFrame(_, _) => [SQLiteDecoding]
    case _ => []
  }

  /** The stages the dispatch enters, in order, when no stage fails: the
      spreadsheet decoder for GSheets; under the "backend" parser the JSON
      decoder for JSON/GraphQL, the delimited-text decoder for CSV/TSV and the
      markup decoder for XML/HTML (these two only for a string payload), then
      post-processing if requested; under "sqlite" for JSON, serialisation
      followed by the embedded-SQL decoder. */
  function Plan(q: Query, payload: Payload, postProcessingRequired: bool): seq<Stage> {
    var t := q.queryType;
    var backend := q.parser == Backend;
    (if t == GSheets then [SheetsDecoding] else [])
    + ((if backend && (t == JSON || t == GraphQL) then [JSONDecoding] else [])
    + ((if backend && (t == CSV || t == TSV) && payload.StringValue? then [CSVDecoding] else [])
    + ((if backend && (t == XML || t == HTML) && payload.StringValue? then [XMLDecoding] else [])
    + ((if backend && postProcessingRequired then [PostProcessing] else [])
    + (if t == JSON && q.parser == SQLite then [Marshalling, SQLiteDecoding] else [])))))
  }

  /** Number of decoder stages in a list of stages. */
  function DecoderCount(stages: seq<Stage>): nat
    decreases |stages|
  {
    if stages == [] then 0
    else (if IsDecoding(stages[0]) then 1 else 0) + DecoderCount(stages[1..])
  }

  /** The (Type, Parser) pairs, and payload shapes, for which some decoder applies. */
  predicate Decodable(q: Query, payload: Payload) {
    var t := q.queryType;
    || t == GSheets
    || (q.parser == Backend && (t == JSON || t == GraphQL))
    || (q.parser == Backend && (t == CSV || t == TSV || t == XML || t == HTML) && payload.StringValue?)
    || (q.parser == SQLite && t == JSON)
  }

  /** The dispatch table, type by type. */
  lemma PlanByType(q: Query, payload: Payload, ppr: bool)
    ensures var plan := Plan(q, payload, ppr);
            var post := if q.parser == Backend && ppr then [PostProcessing] else [];
            var str := payload.StringValue?;
            && (q.queryType == GSheets ==> plan == [SheetsDecoding] + post)
            && (q.queryType == JSON ==>
                  plan == (if q.parser == Backend then [JSONDecoding] + post
                           else if q.parser == SQLite then [Marshalling, SQLiteDecoding]
                           else []))
            && (q.queryType == GraphQL ==> plan == (if q.parser == Backend then [JSONDecoding] else []) + post)
            && (q.queryType in {CSV, TSV} ==> plan == (if q.parser == Backend && str then [CSVDecoding] else []) + post)
            && (q.queryType in {XML, HTML} ==> plan == (if q.parser == Backend && str then [XMLDecoding] else []) + post)
            && (q.queryType.OtherType? ==> plan == post)
  {
  }

  /** Counting the decoders of a list with an optional stage in front. */
  lemma DecoderCountGuarded(b: bool, s: Stage, rest: seq<Stage>)
    ensures DecoderCount((if b then [s] else []) + rest) == (if b && IsDecoding(s) then 1 else 0) + DecoderCount(rest)
  {
    if b {
      assert ([s] + rest)[1..] == rest;
    } else {
      assert [] + rest == rest;
    }
  }

  /** Exactly one decoder runs for a decodable query and payload, none otherwise. */
  lemma PlanSelectsOneDecoder(q: Query, payload: Payload, ppr: bool)
    ensures DecoderCount(Plan(q, payload, ppr)) == if Decodable(q, payload) then 1 else 0
  {
    var t, backend, str := q.queryType, q.parser == Backend, payload.StringValue?;
    var sqlite := t == JSON && q.parser == SQLite;
    var tail := if sqlite then [Marshalling, SQLiteDecoding] else [];
    var post := (if backend && ppr then [PostProcessing] else []) + tail;
    var xml := (if backend && (t == XML || t == HTML) && str then [XMLDecoding] else []) + post;
    var csv := (if backend && (t == CSV || t == TSV) && str then [CSVDecoding] else []) + xml;
    var json := (if backend && (t == JSON || t == GraphQL) then [JSONDecoding] else []) + csv;
    DecoderCountGuarded(t == GSheets, SheetsDecoding, json);
    DecoderCountGuarded(backend && (t == JSON || t == GraphQL), JSONDecoding, csv);
    DecoderCountGuarded(backend && (t == CSV || t == TSV) && str, CSVDecoding, xml);
    DecoderCountGuarded(backend && (t == XML || t == HTML) && str, XMLDecoding, post);
    DecoderCountGuarded(backend && ppr, PostProcessing, tail);
    assert DecoderCount(tail) == if sqlite then 1 else 0 by {
      if sqlite {
        assert tail[1..][1..] == [];
      }
    }
  }

  /** Post-processing is entered exactly under the "backend" parser when it is
      requested, whatever the type, and it is then the last stage. */
  lemma PlanPostProcessing(q: Query, payload: Payload, ppr: bool)
    ensures PostProcessing in Plan(q, payload, ppr) <==> q.parser == Backend && ppr
    ensures PostProcessing in Plan(q, payload, ppr) ==>
              var plan := Plan(q, payload, ppr); plan[|plan| - 1] == PostProcessing
  {
  }

  /** The delimited-text and markup decoders are entered only for a string payload. */
  lemma PlanStringGuard(q: Query, payload: Payload, ppr: bool)
    ensures CSVDecoding in Plan(q, payload, ppr) <==>
              q.parser == Backend && q.queryType in {CSV, TSV} && payload.StringValue?
    ensures XMLDecoding in Plan(q, payload, ppr) <==>
              q.parser == Backend && q.queryType in {XML, HTML} && payload.StringValue?
  {
  }

  /** The embedded-SQL decoder is entered only for JSON under "sqlite", and
      only after the payload has been serialised. */
  lemma PlanSQLite(q: Query, payload: Payload, ppr: bool)
    ensures SQLiteDecoding in Plan(q, payload, ppr) <==> q.queryType == JSON && q.parser == SQLite
    ensures SQLiteDecoding in Plan(q, payload, ppr) ==> Plan(q, payload, ppr) == [Marshalling, SQLiteDecoding]
  {
  }
}
