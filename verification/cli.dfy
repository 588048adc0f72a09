/** The render command's option handling: from already-parsed flag values to
    the render options, as written and corrected, and the command's run. */
module Cli {
  import opened Errors
  import opened Align
  import opened TableWriter
  import opened Config
  import opened Stream

  /** The flag values of one invocation, as the flag library hands them
      over. `alignColumns` is `None` when the flag was not given on the
      command line. */
  datatype Flags = Flags(
    align: string,
    alignColumns: Option<seq<string>>,
    alignHeader: string,
    alignFooter: string,
    autoFormattingHeaders: bool,
    autoMergeCells: bool,
    autoWrap: bool,
    caption: string,
    centerSeparator: string,
    columnSeparator: string,
    colWidth: int,
    firstRowAsHeader: bool,
    footer: seq<string>,
    header: seq<string>,
    newline: string,
    reflow: bool,
    rowLine: bool,
    rowSeparator: string)

  /** Every option that is not an alignment is the flag value unchanged. */
  predicate Forwarded(f: Flags, o: RenderOptions)
  {
    && o.AutoFormattingHeaders == f.autoFormattingHeaders
    && o.AutoMergeCells == f.autoMergeCells
    && o.AutoWrap == f.autoWrap
    && o.Caption == f.caption
    && o.CenterSeparator == f.centerSeparator
    && o.ColumnSeparator == f.columnSeparator
    && o.ColWidth == f.colWidth
    && o.FirstRowAsHeader == f.firstRowAsHeader
    && o.Footer == f.footer
    && o.Header == f.header
    && o.Newline == f.newline
    && o.Reflow == f.reflow
    && o.RowLine == f.rowLine
    && o.RowSeparator == f.rowSeparator
  }

  /** The options record built from the parsed alignments and the other flag
      values. */
  function Assemble(f: Flags, align: Alignment, columns: seq<Alignment>,
                    header: Alignment, footer: Alignment): (o: RenderOptions)
    ensures Forwarded(f, o)
    ensures o.Align == align && o.AlignColumns == columns
    ensures o.AlignHeader == header && o.AlignFooter == footer
  {
    RenderOptions(
      Align := align,
      AlignColumns := columns,
      AlignHeader := header,
      AlignFooter := footer,
      AutoFormattingHeaders := f.autoFormattingHeaders,
      AutoMergeCells := f.autoMergeCells,
      AutoWrap := f.autoWrap,
      Caption := f.caption,
      CenterSeparator := f.centerSeparator,
      ColumnSeparator := f.columnSeparator,
      ColWidth := f.colWidth,
      FirstRowAsHeader := f.firstRowAsHeader,
      Footer := f.footer,
      Header := f.header,
      Newline := f.newline,
      Reflow := f.reflow,
      RowLine := f.rowLine,
      RowSeparator := f.rowSeparator)
  }

  /** The options as the command builds them. The column alignments go
      through the batch parser into a fresh, empty list that the parser never
      updates; the header and footer alignments are parsed but their errors
      are overwritten before anyone looks at them. */
  function BuildOptions(f: Flags): (r: Result<RenderOptions>)
    ensures r.Fail? <==> f.align !in Tokens || (f.alignColumns.Some? && !AllTokens(f.alignColumns.value))
    ensures r.Fail? ==> r.error == UnknownAlignment
    ensures r.Ok? ==> IsValid(r.value.Align) && r.value.Align.token == f.align
    ensures r.Ok? ==> r.value.AlignColumns == []
    ensures r.Ok? ==> r.value.AlignHeader == if f.alignHeader in Tokens then Alignment(f.alignHeader) else AlignEmpty
    ensures r.Ok? ==> r.value.AlignFooter == if f.alignFooter in Tokens then Alignment(f.alignFooter) else AlignEmpty
    ensures r.Ok? ==> Forwarded(f, r.value)
  {
    var (align, alignErr) := FromString(f.align);
    if alignErr.Some? then Fail(alignErr.value)
    else
      var columns: seq<Alignment> := [];
      var (columnsErr, columnsAfter) :=
        if f.alignColumns.Some? then FromStringArray(f.alignColumns.value, columns) else (None, columns);
      if columnsErr.Some? then Fail(columnsErr.value)
      else
        var (header, _) := FromString(f.alignHeader);
        var (footer, _) := FromString(f.alignFooter);
        Ok(Assemble(f, align, columnsAfter, header, footer))
  }

  /** The options as evidently intended: the column alignments are the
      parsed tokens, and an unknown header or footer token is an error like
      an unknown overall token. */
  function BuildOptionsChecked(f: Flags): (r: Result<RenderOptions>)
    ensures r.Ok? <==>
      && f.align in Tokens
      && (f.alignColumns.Some? ==> AllTokens(f.alignColumns.value))
      && f.alignHeader in Tokens
      && f.alignFooter in Tokens
    ensures r.Fail? ==> r.error == UnknownAlignment
    ensures r.Ok? ==> IsValid(r.value.Align) && r.value.Align.token == f.align
    ensures r.Ok? && f.alignColumns.None? ==> r.value.AlignColumns == []
    ensures r.Ok? && f.alignColumns.Some? ==>
      && |r.value.AlignColumns| == |f.alignColumns.value|
      && forall i :: 0 <= i < |f.alignColumns.value| ==>
           IsValid(r.value.AlignColumns[i]) && r.value.AlignColumns[i].token == f.alignColumns.value[i]
    ensures r.Ok? ==> IsValid(r.value.AlignHeader) && r.value.AlignHeader.token == f.alignHeader
    ensures r.Ok? ==> IsValid(r.value.AlignFooter) && r.value.AlignFooter.token == f.alignFooter
    ensures r.Ok? ==> Forwarded(f, r.value)
  {
    var (align, alignErr) := FromString(f.align);
    if alignErr.Some? then Fail(alignErr.value)
    else
      var columns := if f.alignColumns.Some? then ParseMany(f.alignColumns.value) else Ok([]);
      if columns.Fail? then Fail(columns.error)
      else
        var (header, headerErr) := FromString(f.alignHeader);
        if headerErr.Some? then Fail(headerErr.value)
        else
          var (footer, footerErr) := FromString(f.alignFooter);
          if footerErr.Some? then Fail(footerErr.value)
          else Ok(Assemble(f, align, columns.value, header, footer))
  }

  /** The command's run: a rejected flag stops it before any formatter call;
      otherwise it renders the input with the render command's pipeline. */
  function RunE(f: Flags, input: seq<ReadResult>): (r: (seq<Call>, Option<Error>))
    ensures r.1.Some? <==> BuildOptions(f).Fail?
    ensures r.1.Some? ==> r.0 == [] && r.1.value == UnknownAlignment
    ensures r.1.None? ==> r.0 == TraceV1(ConfigTableWriter(BuildOptions(f).value), input)
  {
    match BuildOptions(f)
    case Fail(e) => ([], Some(e))
    case Ok(o) => RenderV1(o, input)
  }

  /** The command's run with the corrected option handling. */
  function RunEChecked(f: Flags, input: seq<ReadResult>): (r: (seq<Call>, Option<Error>))
    ensures r.1.Some? <==> BuildOptionsChecked(f).Fail?
    ensures r.1.Some? ==> r.0 == [] && r.1.value == UnknownAlignment
    ensures r.1.None? ==> r.0 == TraceV1(ConfigTableWriter(BuildOptionsChecked(f).value), input)
  {
    match BuildOptionsChecked(f)
    case Fail(e) => ([], Some(e))
    case Ok(o) => RenderV1(o, input)
  }

  /** As written, the command never sets per-column alignment, whatever the
      column flag says: the formatter only ever gets the overall alignment. */
  lemma RunENeverSetsColumnAlignment(f: Flags, input: seq<ReadResult>)
    ensures CallsOf(RunE(f, input).0, ColumnAlignmentK) == []
    ensures BuildOptions(f).Ok? ==>
      CallsOf(RunE(f, input).0, AlignmentK) == [SetAlignment(ToTableWriter(BuildOptions(f).value.Align))]
  {
    if BuildOptions(f).Ok? {
      var o := BuildOptions(f).value;
      ConfigAlignment(o);
      TraceV1Kinds(ConfigTableWriter(o), input, ColumnAlignmentK);
      TraceV1Kinds(ConfigTableWriter(o), input, AlignmentK);
      RoutedKinds(true, Records(input), ColumnAlignmentK);
      RoutedKinds(true, Records(input), AlignmentK);
    }
  }

  /** Two valid column tokens are accepted and then lost as written, and
      reach the options as given once corrected. */
  lemma ColumnAlignmentDropped(f: Flags)
    requires f.alignColumns == Some(["<", ">"])
    requires f.align in Tokens && f.alignHeader in Tokens && f.alignFooter in Tokens
    ensures BuildOptions(f).Ok? && BuildOptions(f).value.AlignColumns == []
    ensures BuildOptionsChecked(f).Ok? && BuildOptionsChecked(f).value.AlignColumns == [AlignLeft, AlignRight]
  {
    var cols := BuildOptionsChecked(f).value.AlignColumns;
    assert AllTokens(["<", ">"]);
    assert cols[0].token == "<" && cols[1].token == ">";
  }

  /** Once corrected, given column tokens reach the formatter as one
      per-column call carrying each column's code, in column order, and no
      column is sent the unknown code. */
  lemma RunECheckedSetsColumnAlignment(f: Flags, input: seq<ReadResult>)
    requires BuildOptionsChecked(f).Ok? && f.alignColumns.Some? && |f.alignColumns.value| > 0
    ensures var codes := ColumnCodes(BuildOptionsChecked(f).value.AlignColumns);
      && CallsOf(RunEChecked(f, input).0, ColumnAlignmentK) == [SetColumnAlignment(codes)]
      && |codes| == |f.alignColumns.value|
      && forall i :: 0 <= i < |codes| ==> codes[i] == ToTableWriter(Alignment(f.alignColumns.value[i])) != -1
    ensures CallsOf(RunEChecked(f, input).0, AlignmentK) == []
  {
    var o := BuildOptionsChecked(f).value;
    var codes := ColumnCodes(o.AlignColumns);
    ConfigAlignment(o);
    TraceV1Kinds(ConfigTableWriter(o), input, ColumnAlignmentK);
    TraceV1Kinds(ConfigTableWriter(o), input, AlignmentK);
    RoutedKinds(true, Records(input), ColumnAlignmentK);
    RoutedKinds(true, Records(input), AlignmentK);
    forall i | 0 <= i < |codes|
      ensures codes[i] == ToTableWriter(Alignment(f.alignColumns.value[i])) != -1
    {
      assert o.AlignColumns[i] == Alignment(f.alignColumns.value[i]);
      ToTableWriterCodes(o.AlignColumns[i]);
    }
  }

  /** As written, an unknown header alignment token is accepted silently:
      the options carry the empty sentinel, and the formatter is asked to
      align the header with the unknown code. */
  lemma HeaderAlignmentErrorSwallowed(f: Flags)
    requires f.align in Tokens && (f.alignColumns.None? || AllTokens(f.alignColumns.value))
    requires f.alignHeader !in Tokens
    ensures BuildOptions(f).Ok? && BuildOptions(f).value.AlignHeader == AlignEmpty
    ensures CallsOf(ConfigTableWriter(BuildOptions(f).value), HeaderAlignmentK) == [SetHeaderAlignment(-1)]
    ensures BuildOptionsChecked(f) == Fail(UnknownAlignment)
  {
    var o := BuildOptions(f).value;
    ConfigHeaderAlignment(o);
    ToTableWriterCodes(AlignEmpty);
  }

  /** The same for an unknown footer alignment token. */
  lemma FooterAlignmentErrorSwallowed(f: Flags)
    requires f.align in Tokens && (f.alignColumns.None? || AllTokens(f.alignColumns.value))
    requires f.alignFooter !in Tokens
    ensures BuildOptions(f).Ok? && BuildOptions(f).value.AlignFooter == AlignEmpty
    ensures CallsOf(ConfigTableWriter(BuildOptions(f).value), FooterAlignmentK) == [SetFooterAlignment(-1)]
    ensures BuildOptionsChecked(f) == Fail(UnknownAlignment)
  {
    var o := BuildOptions(f).value;
    ConfigFooterAlignment(o);
    ToTableWriterCodes(AlignEmpty);
  }

  /** Once corrected, the formatter is never sent the unknown code for the
      header. */
  lemma CheckedHeaderCode(f: Flags)
    requires BuildOptionsChecked(f).Ok?
    ensures ToTableWriter(BuildOptionsChecked(f).value.AlignHeader) != -1
    ensures SetHeaderAlignment(-1) !in ConfigTableWriter(BuildOptionsChecked(f).value)
  {
    var o := BuildOptionsChecked(f).value;
    ToTableWriterCodes(o.AlignHeader);
    ConfigHeaderAlignmentCall(o, -1);
  }

  /** Once corrected, the formatter is never sent the unknown code for the
      footer. */
  lemma CheckedFooterCode(f: Flags)
    requires BuildOptionsChecked(f).Ok?
    ensures ToTableWriter(BuildOptionsChecked(f).value.AlignFooter) != -1
    ensures SetFooterAlignment(-1) !in ConfigTableWriter(BuildOptionsChecked(f).value)
  {
    var o := BuildOptionsChecked(f).value;
    ToTableWriterCodes(o.AlignFooter);
    ConfigFooterAlignmentCall(o, -1);
  }

  /** When every flag is valid, the two builders agree except that the
      corrected one keeps the column alignments. */
  lemma BuildersAgreeOnValidFlags(f: Flags)
    requires BuildOptionsChecked(f).Ok?
    ensures BuildOptions(f).Ok?
    ensures BuildOptions(f).value == BuildOptionsChecked(f).value.(AlignColumns := [])
  {
    var o := BuildOptions(f).value;
    var p := BuildOptionsChecked(f).value;
    assert o.AlignHeader == p.AlignHeader;
    assert o.AlignFooter == p.AlignFooter;
    assert o.Align == p.Align;
  }
}
