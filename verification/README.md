# csvtk render: alignment codec, formatter configuration and row routing

This project models the core of the `render` command, which reads CSV
records and draws them as an ASCII table through a table-formatting library.
It also proves properties of that model. The core has three parts.

- **Alignment tokens** (`cmd/alignment.go`, module `Align`). An alignment is a
  string. Four tokens are named: `=` (default), `-` (centre), `<` (left) and
  `>` (right). The empty string is the sentinel a failed parse returns.
  `FromString` parses a token and `ToString` prints one. `ToTableWriter` maps
  a token to the formatter's alignment code. `FromStringArray` is the batch
  parser. Go's `(value, error)` results are tuples whose second component is
  an `Option<Error>` (module `Errors`).
- **Formatter configuration** (`ConfigTableWriter`, `cmd/render.go`, module
  `Config`). The formatter is modelled as the trace of calls made on it
  (module `TableWriter`, datatype `Call`). The configuration is 15 setter
  calls in source order, each guarded by the condition under which the source
  makes it. Each property is a fact about the calls of one kind
  (`CallsOf(trace, k)`).
- **Row routing** (module `Stream`). There are two historical `Render`
  functions: one in `cmd/render.go` (`RenderV1`) and one in
  `cmd/rendering.go` (`RenderV2`). Both files declare `RenderOptions` and
  `Render` in the same Go package, so they cannot be built together. The
  command's `RunE` passes `os.Stdin`, which matches the `io.Reader` signature
  of the `cmd/render.go` variant. The model keeps both.
  - The input is a finite sequence of read results: `Rec(fields)`, `EOF` or
    `Err(e)`. Reading past its end counts as `EOF`.
  - The reader and consumer goroutines are merged into one sequential fold,
    `StreamV1` or `StreamV2`.
  - Each fold is proved equal to a reference description:
    - `Records` is the longest run of records at the front of the input.
    - `StopError` is the read failure that ends the input, if any.
    - `Routed` is the header/append routing of those records.
  - The stream lemmas are stated for any configuration trace that neither
    appends nor renders (`NoBody`). `ConfigIsNoBody` shows that
    `ConfigTableWriter`'s trace is one.
  - `Replay` folds a trace into the formatter's visible state: header cells,
    body rows, footer cells and render count. It states what table ends up
    drawn. A header or footer call adds its cells after those already set,
    as the formatter library's own setters do (see "Left out").
- **Option handling** (`RunE`, `cmd/render.go`, module `Cli`). This part
  goes from already-parsed flag values to `RenderOptions`. It covers the
  builder as written (`BuildOptions`) and a corrected builder
  (`BuildOptionsChecked`). See "Findings".

## Model

| member | source | states |
|---|---|---|
| Align.ToString | cmd/alignment.go:36-48 | A named constant prints as its own token; every other alignment, including the empty sentinel, prints as the empty string |
| Align.ToTableWriterCodes | cmd/alignment.go:50-62 | Each named constant maps to its own formatter code: default, centre, right and left. An alignment maps to -1 exactly when it is not one of the four |
| Align.ToTableWriterInjective | cmd/alignment.go:50-62 | Distinct named alignments reach the formatter as distinct codes |
| Align.FromString | cmd/alignment.go:64-76 | Parsing succeeds exactly on `=`, `-`, `<`, `>` and yields the constant that is that token. Any other string yields the empty sentinel with `UnknownAlignment` |
| Align.TokenRoundTrip | cmd/alignment.go:36-76 | Every valid token parses without error and prints back to itself |
| Align.AlignmentRoundTrip | cmd/alignment.go:36-76 | Every named alignment prints to a token that parses back to it, with no error |
| Align.AppendParsed | cmd/alignment.go:78-87 | The loop fails, with `UnknownAlignment`, exactly when some token is invalid. It stops there, having appended the parses of the valid tokens before it to its own copy of the list |
| Align.FromStringArray | cmd/alignment.go:78-87 | The error is nil exactly when every token is valid, and otherwise is `UnknownAlignment` at the first invalid token. The caller's list is left exactly as it was passed |
| Align.FromStringArrayDropsResults | cmd/alignment.go:78-87 | Witness for `["<"]`: the loop's own copy holds `[AlignLeft]`, while the caller's empty list stays empty |
| Align.ParseMany | cmd/alignment.go:78-87 | Corrected batch parser: succeeds exactly when every token is valid, returning one alignment per token in order with matching token; otherwise fails with `UnknownAlignment` |
| Align.ParseManyAgreesWithLoop | cmd/alignment.go:78-87 | On valid input the corrected parser returns exactly what the written loop accumulates |
| Config.ColumnCodes | cmd/render.go:296-301 | The per-column code list has one code per column alignment, in column order, each the formatter code of that column |
| Config.ConfigStep | cmd/render.go:295-336 | Each setter is called at most once: exactly when its guard holds, and with its argument |
| Config.ConfigAlignment | cmd/render.go:296-304 | With column alignments, the trace has one per-column call with the element-wise codes and no overall-alignment call. Without them, it has one overall-alignment call with `Align`'s code and no per-column call |
| Config.ConfigHeaderAlignment | cmd/render.go:306-308 | Header alignment is set once, with the option's code, exactly when the option is not the default alignment |
| Config.ConfigFooterAlignment | cmd/render.go:310-312 | Footer alignment is set once, with the option's code, exactly when the option is not the default alignment |
| Config.ConfigHeaderAlignmentCall | cmd/render.go:306-308 | The formatter gets a header alignment call with a given code exactly when the header alignment is not the default and maps to that code |
| Config.ConfigFooterAlignmentCall | cmd/render.go:310-312 | The formatter gets a footer alignment call with a given code exactly when the footer alignment is not the default and maps to that code |
| Config.ConfigAutoFormatHeaders | cmd/render.go:314 | The header auto-format flag reaches exactly one setter, unchanged |
| Config.ConfigAutoMergeWrap | cmd/render.go:315-316 | The cell-merge and text-wrap flags each reach exactly one setter, unchanged |
| Config.ConfigCaption | cmd/render.go:318-320 | The caption is set once, shown, exactly when it is non-empty |
| Config.ConfigCenterSeparator | cmd/render.go:322 | The centre separator reaches exactly one setter, unchanged |
| Config.ConfigColumnSeparator | cmd/render.go:323 | The column separator reaches exactly one setter, unchanged |
| Config.ConfigFooter | cmd/render.go:325-327 | The footer row is set once exactly when it is non-empty |
| Config.ConfigHeader | cmd/render.go:329-331 | The header row is set once exactly when it is non-empty |
| Config.ConfigNewLine | cmd/render.go:333 | The newline reaches exactly one setter, unchanged |
| Config.ConfigReflow | cmd/render.go:334 | The reflow flag reaches exactly one setter, unchanged |
| Config.ConfigRowSeparator | cmd/render.go:335 | The row separator reaches exactly one setter, unchanged |
| Config.ConfigTable | cmd/render.go:325-331 | Configuring alone leaves a table whose header and footer are the literal `--header` and `--footer` rows, with no body rows, not drawn |
| Config.ConfigNoRowsNoRender | cmd/render.go:295-336 | Configuring never appends a body row and never renders |
| Config.ConfigIgnoresUnforwardedFields | cmd/render.go:295-336 | Column width, the row-line flag and the first-row-as-header flag never change the configuration trace |
| Stream.ConfigIsNoBody | cmd/render.go:295-336 | The configuration trace is one that neither appends nor renders, so the stream lemmas apply to it |
| Stream.StreamV1 | cmd/render.go:258-284 | The merged reader/consumer loop sends the first record read to the header and appends the rest in order. It stops at the first non-record, whether that is end of input or a failure |
| Stream.TraceV1 | cmd/render.go:253-286 | The trace is the configuration, then the routed records, then one render |
| Stream.RenderV1 | cmd/render.go:249-293 | The render command's pipeline never reports an error. Its trace is the configuration calls, then the first record of the input's leading records as header and the rest as appends, then one render |
| Stream.RenderV1ErrorLikeEOF | cmd/render.go:259-267 | A read failure ends the input exactly like a clean end. Nothing after either is read, and the outcome equals simply running out of input |
| Stream.TraceV1RendersOnceAtEnd | cmd/render.go:275-290 | After a configuration trace, the render command renders exactly once, and that render is the last call |
| Stream.TraceV1Routing | cmd/render.go:276-284 | After a configuration trace, the header calls are the configured ones followed by the first record, whatever the options say. The append calls are exactly the later records, in read order |
| Stream.TraceV1Table | cmd/render.go:275-288 | After a configuration trace, the drawn table's header is the configured header cells followed by the first record's cells; with no configured header it is exactly the first record. Every later record is a body row in read order, the configured footer stays, and the table is drawn once |
| Stream.RenderV1RendersOnce | cmd/render.go:249-293 | The render command renders exactly once; with at least one record, the drawn header is the literal header followed by the first record |
| Stream.RenderV1Table | cmd/render.go:249-293 | The table the render command draws: the literal `--header` cells followed by the first record's cells, every later record as a body row in read order, the literal footer, drawn once |
| Stream.RenderV1Routing | cmd/render.go:276-284 | From the options: the first record goes to the header and every later record is appended, in read order |
| Stream.StreamV2 | cmd/rendering.go:43-74 | The merged loop sends the first record to the header only when asked to; otherwise every record is appended, in order. It reports the read failure that stopped it, and none on a clean end |
| Stream.TraceV2 | cmd/rendering.go:36-83 | The reported error is the first read failure; the trace is the configuration, then the routed records, then a render exactly when a failure is reported |
| Stream.RenderV2 | cmd/rendering.go:33-84 | The later pipeline reports the read failure that ends the input, or none. Its trace is the configuration calls, then the leading records routed by the header option, then a render exactly when a failure is reported |
| Stream.TraceV2Kinds | cmd/rendering.go:36-81 | The calls of each kind are the configuration's, then the stream's, then a render exactly when a read failed |
| Stream.TraceV2NoHeaderOption | cmd/rendering.go:63-73 | Without the header option, every record is appended in read order and the stream sets no header |
| Stream.TraceV2HeaderOption | cmd/rendering.go:63-73 | With the header option and at least one record, exactly the first record is added as header and the other records are appended in order |
| Stream.TraceV2RenderCalls | cmd/rendering.go:76-81 | The render calls are one render if a read failed and none otherwise |
| Stream.TraceV2RendersIffError | cmd/rendering.go:76-83 | A render appears in the trace exactly when an error is returned, so a successful run draws nothing |
| Stream.TraceV2Table | cmd/rendering.go:59-81 | After a configuration trace, the built table's header gains the first record's cells when the header option is set; its body is the records, minus the first when it became the header; the configured footer stays. It is drawn once if a read failed and never otherwise |
| Stream.RenderV2FirstError | cmd/rendering.go:46-54 | The first read failure is the returned error, and nothing after it affects the outcome |
| Stream.RenderV2CleanEnd | cmd/rendering.go:46-50 | A clean end of input, or running out of input, returns no error, and nothing after the end is read |
| Stream.RenderV2EmptyInput | cmd/rendering.go:43-83 | Empty input leaves the trace as just the configuration calls and returns no error |
| Stream.RenderV2RendersIffError | cmd/rendering.go:76-83 | From the options: the later pipeline renders exactly when it returns an error |
| Stream.RenderV2Table | cmd/rendering.go:33-84 | The table the later pipeline builds: the literal header, followed by the first record when the header option is set; the other records as body rows in read order; the literal footer; drawn once if a read failed and never otherwise |
| Stream.RenderV2CleanRunDrawsNothing | cmd/rendering.go:79-81 | As written, any run that reads its records and ends cleanly reports no error and never draws the table |
| Stream.RenderV2Corrected | cmd/rendering.go:31-84 | Corrected pipeline: the same reported error and routed records, with one render exactly when the input ends cleanly |
| Stream.RenderV2CorrectedMovesRender | cmd/rendering.go:79-83 | The corrected pipeline reports the same error and makes the same calls as the written one; only the single render moves from the failing runs to the clean ones |
| Stream.RenderV2CorrectedTable | cmd/rendering.go:31-84 | Corrected: the same header, body rows and footer as the written pipeline, drawn once exactly when the input ends cleanly |
| Stream.RenderV2Routing | cmd/rendering.go:63-73 | From the options: without the header option every record is appended. With it, exactly the first record goes to the header and the rest are appended |
| Cli.BuildOptions | cmd/render.go:69-199 | As written, the build fails exactly on an unknown overall token or an unknown column token. The column alignments are always empty. An unknown header or footer token becomes the empty sentinel without error. Every other flag is forwarded unchanged |
| Cli.BuildOptionsChecked | cmd/render.go:69-199 | Corrected build: it succeeds exactly when every alignment token is valid. It then carries the column alignments token by token and the header and footer alignments as given, and forwards the other flags unchanged |
| Cli.RunE | cmd/render.go:69-201 | A rejected flag returns `UnknownAlignment` before any formatter call. Otherwise the run is the render command's pipeline on the built options |
| Cli.RunEChecked | cmd/render.go:69-201 | The same run with the corrected option build |
| Cli.RunENeverSetsColumnAlignment | cmd/render.go:80-92 | As written, the run's trace never has a per-column alignment call, whatever the column flag says. It has only the overall alignment call |
| Cli.ColumnAlignmentDropped | cmd/render.go:80-92 | For the column flag `<,>` with valid other tokens, the written build succeeds with no column alignments. The corrected build yields `[AlignLeft, AlignRight]` |
| Cli.RunECheckedSetsColumnAlignment | cmd/render.go:80-92 | Corrected: given column tokens reach the formatter as one per-column call. It carries each column's code in column order, none of them -1, and no overall-alignment call is made |
| Cli.HeaderAlignmentErrorSwallowed | cmd/render.go:99-100 | As written, an unknown header token is accepted, and the formatter is asked to align the header with code -1. The corrected build rejects it with `UnknownAlignment` |
| Cli.FooterAlignmentErrorSwallowed | cmd/render.go:107-108 | As written, an unknown footer token is accepted, and the formatter is asked to align the footer with code -1. The corrected build rejects it |
| Cli.CheckedHeaderCode | cmd/render.go:99-100 | Corrected: the header alignment code is never -1, and no header alignment call with -1 is made |
| Cli.CheckedFooterCode | cmd/render.go:107-108 | Corrected: the footer alignment code is never -1, and no footer alignment call with -1 is made |
| Cli.BuildersAgreeOnValidFlags | cmd/render.go:69-199 | When every token is valid, both builders succeed and agree except that the written one drops the column alignments |

## Left out

- Flag registration, defaults and help text of the command, and the flag
  library's lookups. The model starts from already-parsed flag values
  (`Flags`). The lookups' own errors only arise for unregistered or mistyped
  flags, and every flag read is registered with its type.
- Goroutines and channels. Each `Render` is a sequential fold over a finite
  read sequence. Left out with them:
  - the race in `cmd/rendering.go`, where the render call can run while the
    consumer is still appending;
  - the final receive on the record channel.
- Stream.RenderV2: the trace fixes the render after the last append. The
  source does not order the two, because of that race.
- CSV parsing, the input and output streams, and standard input and output.
  Records are given as `Rec(fields)`.
- Formatter internals: layout, wrapping, widths and merging. The formatter is
  only a call trace.
  - The alignment codes are 0 to 3, the formatter's own values. The proofs use
    only that they are distinct and never -1.
  - `Replay` tracks only the header, footer, body rows and render count.
- TableWriter.Replay: the formatter library's source is not part of this
  model. Its `SetHeader` and `SetFooter` are taken to append cells after
  those already set, as that library's setters do, rather than replace them.
  Every table-level statement rests on that. The trace-level lemmas
  (`TraceV1Routing`, `RenderV1Routing`) state the two header calls without
  it.
- Stream.TraceV1Table and Stream.RenderV1RendersOnce: with `--header` given,
  the render command sets the header twice (cmd/render.go:330, then 280). The
  drawn header is then the literal header's cells followed by the first
  record's, under the assumption above.
- Align.FromStringArray: Go's `append` may write into spare capacity of the
  caller's backing array beyond the caller's length. The caller's slice never
  shows it, and that is all the model states.
- `cmd/version.go`, which only prints build metadata.

## Findings

| source | as written | input that shows it | evidently intended | confidence | as-written member | corrected member |
|---|---|---|---|---|---|---|
| cmd/render.go:88 | `FromStringArray` appends to its own copy of the `alnCols` slice. `alnCols` stays empty and is what line 182 passes on, so per-column alignment is never set | `--align-columns "<,>"` | The parsed column alignments reach `SetColumnAlignment` | high; not executed | Cli.ColumnAlignmentDropped | Cli.RunECheckedSetsColumnAlignment |
| cmd/render.go:100 | The error of parsing `--align-header` is overwritten at line 102 before it is checked. An unknown token becomes the empty sentinel, and the formatter gets header alignment -1 | `--align-header x` | Reject the token with `UnknownAlignment`, as is done for `--align` | high; not executed | Cli.HeaderAlignmentErrorSwallowed | Cli.CheckedHeaderCode |
| cmd/render.go:108 | The same for `--align-footer`: the error is overwritten at line 110 | `--align-footer x` | Reject the token with `UnknownAlignment` | high; not executed | Cli.FooterAlignmentErrorSwallowed | Cli.CheckedFooterCode |
| cmd/rendering.go:79-81 | The table is drawn only when `err != nil`, so a run that reads its input to a clean end writes nothing, although the doc comment at line 31 says Render writes to `w` | any input that ends cleanly, e.g. `a,b` then end of input | Draw the table when the input has been read to its end, and still return a read failure | high; not executed | Stream.RenderV2CleanRunDrawsNothing | Stream.RenderV2CorrectedTable |
