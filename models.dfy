/** The values the pipeline handles: the query, the fetched payload, Go errors,
    the diagnostics record `CustomMeta` and the result frame with its metadata. */
module Models {
  import opened Wrappers

  /** `models.QueryType`. The core distinguishes the seven named types; every
      other type (UQL, GROQ, series, …) is `OtherType`, whose name is only
      carried along. The name is not parsed, so `OtherType` stands for a type
      outside the seven whatever name it holds. */
  datatype QueryType = JSON | CSV | TSV | XML | HTML | GraphQL | GSheets | OtherType(name: string)

  /** The fields of `models.Query` the core reads; the query is otherwise
      carried through unchanged into the diagnostics. */
  datatype Query = Query(queryType: QueryType, parser: string, rootSelector: string, sqliteQuery: string)

  /** The untyped payload returned by the fetch client. The core only asks
      whether it is a Go `string`; any other dynamic value is opaque. */
  datatype Payload = StringValue(s: string) | OtherValue(repr: string)

  /** A Go `error`: a plain error, or one wrapped by `fmt.Errorf` with `%w`. */
  datatype Error = Plain(message: string) | Wrapped(context: string, cause: Error)

  /** `err.Error()`: a wrapped error's text is its context followed by the
      text of its cause, as `fmt.Errorf("<context>%w", cause)` renders it. */
  function ErrorText(e: Error): string {
    match e
    case Plain(m) => m
    case Wrapped(c, cause) => c + ErrorText(cause)
  }

  /** The diagnostics record attached as `Meta.Custom`. */
  datatype CustomMeta = CustomMeta(
    data: Payload,
    responseCodeFromServer: int,
    duration: int,
    query: Query,
    error: string)

  /** `data.FrameMeta`: the executed query string, the `Custom` slot (which
      holds a `CustomMeta` or is nil) and, as an opaque list, every other
      metadata field a decoder may have filled in. */
  datatype FrameMeta = FrameMeta(executedQueryString: string, custom: Option<CustomMeta>, others: seq<string>)

  /** `&data.FrameMeta{}`: all fields empty. */
  const EmptyMeta := FrameMeta("", None, [])

  /** The columns of a frame, opaque to the core. */
  datatype Column = Column(name: string, values: seq<string>)
  datatype Table = Table(name: string, columns: seq<Column>)

  /** A snapshot of a frame: its columns and its (possibly nil) `Meta`. */
  datatype FrameValue = FrameValue(table: Table, meta: Option<FrameMeta>)

  /** `*data.Frame`: the pipeline reassigns its `Meta` in place. */
  class Frame {
    var table: Table
    var meta: Option<FrameMeta>

    constructor (v: FrameValue)
      ensures table == v.table && meta == v.meta
    {
      table := v.table;
      meta := v.meta;
    }

    function Value(): FrameValue
      reads this
    {
      FrameValue(table, meta)
    }
  }
}
