# Query pipeline of the Infinity data source, in Dafny

This project models `GetFrameForURLSources` and
`GetFrameForURLSourcesWithPostProcessing` from `pkg/infinity/remote.go`, and
proves what they do. The pipeline runs these steps:

1. Build a dummy frame.
2. Fetch the URL response and stamp the executed URL on the frame's `Meta`.
3. In mock mode, force the reported duration to 123.
4. If the fetch fails, attach the `CustomMeta` diagnostics and return.
5. Otherwise dispatch on the query's type and parser:
   - the Google Sheets decoder;
   - under the `backend` parser, the JSON, CSV/TSV or XML/HTML decoder, then post-processing if it is requested;
   - for JSON under the `sqlite` parser, `json.Marshal` followed by the SQL framer.
6. Stamp the URL again and attach the diagnostics.

Every decoder failure returns at once.

## Files

- `remote.dfy` (module `Remote`) is the imperative model of the two functions.
  - It works on a `Frame` object whose `Meta` is reassigned in place.
  - Each dispatch block of the source is a method of its own.
  - The three block methods are proved to compute `Pipeline.SheetsBlock`, `Pipeline.BackendBlock` and `Pipeline.SQLiteBlock`. `Pipeline.RunByBlocks` composes these into `Pipeline.Run`, so the two entry methods are proved to return what `Pipeline.Run` computes.
- `pipeline.dfy` (module `Pipeline`) is the reference, `Run`. It runs the stages `Plan` lists, in order, stops at the first failing stage that exits early, then attaches the diagnostics. The block functions `SheetsBlock`, `BackendBlock` and `SQLiteBlock` run the same stages under the source's conditions instead.
- `dispatch.dfy` (module `Dispatch`) holds the dispatch table `Plan`, an ordered list of stages, and its properties.
- `properties.dfy` (module `Properties`) holds `Outcome`, a closed form of every run written path by path. It proves `Run == Outcome`, then each promised behaviour as a lemma about `Run`.
- `models.dfy` holds the values the pipeline handles, `collaborators.dfy` the collaborators, `gostrings.dfy` Go's `strings.TrimSpace`, and `wrappers.dfy` `Option`/`Result`.

### How the collaborators are modelled

A collaborator is described by its answer for one run:

- the fetch client (`Client`);
- the dummy-frame builder, the five decoders, the post-processor and `json.Marshal` (`Decoders`).

Each method also returns `calls`, the ordered record of every collaborator call and the arguments it received. That record is what makes statements like "no decoder is called" and "the SQL framer receives the default query" provable.

### Diagnostics on early exits

The code does not attach diagnostics on every exit. A failing decoder or a failing SQL framer returns its frame as it built it, without attaching `Meta.Custom` and without stamping the URL again; a failing serialisation returns the stamped dummy frame in the same way (lines 37-38, 43-44, 49-50, 56-57, 71-72, 78-79). Callers therefore cannot rely on `Meta.Custom` holding the diagnostics after a decoder, serialisation or SQL-framer failure (`Properties.AnnotatedExactly`, `Properties.DecoderFailureExitsEarly`).

### The post-processor's error

The error at line 95 can only come from `PostProcessFrame`. Line 70 declares a new `err` local to the SQL block, so the SQL framer's success leaves the outer `err` alone (`Properties.FinalExit`).

## Model

| member | source | states |
|---|---|---|
| `Remote.GetFrameForURLSourcesWithPostProcessing` | pkg/infinity/remote.go:19-107 | The returned frame is a new object, owned by the caller. Its final contents, the returned error and the record of calls are exactly `Pipeline.Run` for the same query, client answers, decoder answers, headers and post-processing flag. |
| `Remote.GetFrameForURLSources` | pkg/infinity/remote.go:15-17 | The entry point returns exactly what the pipeline returns with post-processing requested, in a new frame owned by the caller. |
| `Remote.DispatchGoogleSheets` | pkg/infinity/remote.go:36-40 | The Google Sheets block. For a GSheets query it calls the spreadsheet decoder on the payload and takes its frame and error, and a failure ends the run. Otherwise nothing changes. The result is a new frame or the one passed in. |
| `Remote.DispatchBackend` | pkg/infinity/remote.go:41-64 | The backend block, as the stage-by-stage reference has it. Under `backend` it calls the type's decoder (the text decoders only on a string payload) and exits on its failure. Then it post-processes the current frame if requested, keeping the post-processor's error without exiting. |
| `Remote.DispatchSQLite` | pkg/infinity/remote.go:65-81 | The embedded-SQL block for JSON with `sqlite`. It serialises the payload, exiting with the wrapped error on failure. It then calls the SQL framer with the query's SQL (or the default when blank) and the root selector. The framer's failure exits. Its success leaves the caller's error unchanged. |
| `Pipeline.ExecutePlan` | pkg/infinity/remote.go:36-81 | Executing the dispatch table stage by stage equals the three source blocks run one after another, each stage under the source's own condition. |
| `Pipeline.RunByBlocks` | pkg/infinity/remote.go:26-106 | After a successful fetch, a run is the three blocks applied to the stamped dummy frame, then the final annotation. |
| `Pipeline.AnnotatedKeeps` | pkg/infinity/remote.go:82-94 | The final annotation creates `Meta` if it is nil. It sets the executed query string and `Custom`, and keeps the columns and all other metadata. |
| `Pipeline.AnnotatedTwice` | pkg/infinity/remote.go:89-103 | Overwriting `Custom` a second time leaves only the second diagnostics. |
| `Dispatch.PlanByType` | pkg/infinity/remote.go:36-81 | The dispatch table for each query type. GSheets gets the spreadsheet decoder. JSON gets the JSON decoder under `backend` and marshal plus SQL under `sqlite`. GraphQL, CSV/TSV and XML/HTML get their decoder under `backend`, the text ones only for a string payload. Other types get no decoder. Post-processing is appended under `backend` when requested. |
| `Dispatch.PlanSelectsOneDecoder` | pkg/infinity/remote.go:36-81 | Exactly one decoder stage is planned when the type, parser and payload have a decoder, and none otherwise. |
| `Dispatch.PlanPostProcessing` | pkg/infinity/remote.go:41-63 | Post-processing is planned if and only if the parser is `backend` and it is requested, and it is then the last stage. |
| `Dispatch.PlanStringGuard` | pkg/infinity/remote.go:47-60 | The CSV/TSV and XML/HTML decoders are planned exactly under `backend`, for their types, with a string payload. |
| `Dispatch.PlanSQLite` | pkg/infinity/remote.go:65-81 | The SQL framer is planned exactly for JSON under `sqlite`, and the plan is then serialisation followed by the framer. |
| `Properties.PlanOutsideSQLite` | pkg/infinity/remote.go:36-64 | Outside the SQL path, the dispatch table is the stage of the selected decoder followed by post-processing when it applies. This ties `Plan` to the independent decoder choice `SelectedDecoder`. |
| `Properties.RunClosedForm` | pkg/infinity/remote.go:19-107 | Every run equals the closed form `Outcome`, which spells out path by path the frame, error and calls of each exit. |
| `Properties.RunClosedFormSQLite` | pkg/infinity/remote.go:65-81 | The closed form on the SQL path. |
| `Properties.RunClosedFormSheets` | pkg/infinity/remote.go:36-64 | The closed form for GSheets queries, where post-processing follows the spreadsheet decoder. |
| `Properties.RunClosedFormBackend` | pkg/infinity/remote.go:41-64 | The closed form for the remaining types and parsers. |
| `Properties.FetchErrorExit` | pkg/infinity/remote.go:20-35 | A failed fetch calls no decoder and no post-processor; only the dummy frame, fetch and URL calls are made. It returns the fetch error with the dummy frame stamped with the executed URL. Its diagnostics carry the payload, status, duration, query and the error's text. |
| `Properties.DiagnosticsAttached` | pkg/infinity/remote.go:22-103 | Whenever diagnostics are attached, they hold the executed URL, payload, status code and query. They hold the returned error's text, empty on success. The duration is 123 in mock mode and the fetched one otherwise. |
| `Properties.AnnotatedExactly` | pkg/infinity/remote.go:26-106 | Diagnostics are attached if and only if the fetch failed or no decoder, serialisation or SQL framer failed. |
| `Properties.DecoderFailureExitsEarly` | pkg/infinity/remote.go:37-57 | A failing Sheets, JSON, CSV or XML decoder's frame and error are returned. Nothing is called after it: no post-processing and no annotation. |
| `Properties.SQLiteFailureExitsEarly` | pkg/infinity/remote.go:70-80 | A marshal failure returns the stamped dummy frame with the error wrapped in "error while marshaling the response object. ". A failing SQL framer returns its frame and error. Neither attaches diagnostics. |
| `Properties.SQLiteOptions` | pkg/infinity/remote.go:65-77 | After successful serialisation, the SQL framer receives the serialised body and `RootSelector`. Its SQL is exactly "SELECT * FROM input" when `TrimSpace` of the query's SQL is empty, and the query's SQL unchanged otherwise. |
| `Properties.OutcomeFormatDecoder` | pkg/infinity/remote.go:36-60 | In the closed form, a call to the Google Sheets, JSON, CSV or XML decoder appears only as the fourth call. It is the selected decoder's call, and it appears exactly when that decoder is selected and the fetch succeeded. |
| `Properties.OutcomePostProcessing` | pkg/infinity/remote.go:36-63 | In the closed form, the post-processor is called at most once, as the second-to-last call. The call happens exactly under `backend` when requested with no failed decoder, and receives the selected decoder's frame or the stamped dummy frame. |
| `Properties.StringGuardCSV` | pkg/infinity/remote.go:47-53 | The CSV/TSV decoder is called if and only if the fetch succeeded, the parser is `backend`, the type is CSV or TSV and the payload is a string. It is called with that string and the query. |
| `Properties.StringGuardXML` | pkg/infinity/remote.go:54-60 | The XML/HTML decoder is called if and only if the fetch succeeded, the parser is `backend`, the type is XML or HTML and the payload is a string. It is called with that string and the query. |
| `Properties.StringGuardSkips` | pkg/infinity/remote.go:47-64 | A text type with a non-string payload skips its decoder without error. Post-processing (when requested) gets the stamped dummy frame, and the run is annotated. The error is the post-processor's, or none. |
| `Properties.PostProcessingCondition` | pkg/infinity/remote.go:41-63 | The post-processor is called if and only if the fetch succeeded, the parser is `backend`, it is requested and the decoder did not fail. |
| `Properties.PostProcessingInput` | pkg/infinity/remote.go:36-63 | The post-processor receives the query and the selected decoder's frame, including the spreadsheet decoder's. When no decoder applies it receives the stamped dummy frame. |
| `Properties.FinalExit` | pkg/infinity/remote.go:62-106 | On normal completion, the returned error is the post-processor's if it ran, and none otherwise. The frame is the last stage's frame (the stamped dummy if none) with diagnostics carrying that error's text. |
| `Properties.EntryPointPostProcesses` | pkg/infinity/remote.go:15-63 | Through the entry point, post-processing runs under `backend` whenever the fetch and the decoder succeed, whatever the query type. |
| `GoStrings.TrimSpace` | pkg/infinity/remote.go:67 | `strings.TrimSpace` is empty exactly when its input is all white space as `unicode.IsSpace` defines it. Otherwise it starts and ends with a non-space character. |
| `GoStrings.TrimSpaceSlice` | pkg/infinity/remote.go:67 | What `strings.TrimSpace` keeps is a contiguous slice of its input, and what it removes on both sides is white space. |

## Left out

- Fetching and URL construction (`Client.GetResults`, `GetExecutedURL`) are I/O. They are modelled by their answers for one run. The two `GetExecutedURL` calls are assumed to return the same URL.
- `context.Context` and its cancellation are concurrency, and are not modelled.
- The log call at line 96 is a side effect with no effect on the result, and is not modelled.
- The decoders, the post-processor, `json.Marshal` and the SQLite engine behind `jsonFramer.JsonStringToFrame` are foreign code. Each is modelled by one answer per run, a frame and an error or a body and an error. This works because each is called at most once per run, with the arguments recorded in `calls`. The framer type argument is the constant SQLite3 and is not represented.
- Nil frames are not modelled, because frames here are values. A nil frame from a failing decoder or SQL framer is returned to the caller unchanged (lines 38-79). A nil frame that reaches line 82, from a successful decoder or from `PostProcessFrame`, would panic there.
- A dummy frame with a nil `Meta` would panic at line 22. It is excluded by the methods' precondition.
- Aliasing is not modelled. Each frame a collaborator returns becomes a new `Frame` object, so a post-processor that mutates its input frame in place, or `Meta` pointers shared between frames, are not represented.
- Frame columns are opaque (`Table`). Metadata other than `ExecutedQueryString` and `Custom` is an opaque list.
- Query types are constructors, not strings. The name inside `OtherType` is not matched against the seven named types, so `OtherType` always means a type outside them.
- The dynamic type of the payload is reduced to "a Go string" or "anything else".
- `err.Error()` of a `%w`-wrapped error is its context followed by the cause's text. The model keeps no other error structure.
