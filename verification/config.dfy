/** The render configuration and its one-shot translation into setter calls
    on the formatter. */
module Config {
  import opened Align
  import opened TableWriter

  /** Every formatting knob of one render. */
  datatype RenderOptions = RenderOptions(
    Align: Alignment,
    AlignColumns: seq<Alignment>,
    AlignHeader: Alignment,
    AlignFooter: Alignment,
    AutoFormattingHeaders: bool,
    AutoMergeCells: bool,
    AutoWrap: bool,
    Caption: string,
    CenterSeparator: string,
    ColumnSeparator: string,
    ColWidth: int,
    FirstRowAsHeader: bool,
    Footer: seq<string>,
    Header: seq<string>,
    Newline: string,
    Reflow: bool,
    RowLine: bool,
    RowSeparator: string)

  /** The per-column codes, built by appending one code per alignment as the
      source's loop does. */
  function ColumnCodes(aligns: seq<Alignment>): (codes: seq<int>)
    ensures |codes| == |aligns|
    ensures forall i :: 0 <= i < |aligns| ==> codes[i] == ToTableWriter(aligns[i])
    decreases |aligns|
  {
    if |aligns| == 0 then []
    else ColumnCodes(aligns[..|aligns| - 1]) + [ToTableWriter(aligns[|aligns| - 1])]
  }

  /** One setter call of the configuration, guarded by the condition under
      which the source makes it. */
  datatype Step = Step(when: bool, call: Call)

  /** The number of guarded setter calls in the configuration. */
  const StepCount := 15

  /** The `j`-th setter call of the configuration in source order, with its
      guard. Column alignment and overall alignment are the two arms of one
      `if`. */
  function StepAt(o: RenderOptions, j: nat): Step
    requires j < StepCount
  {
    if j == 0 then Step(|o.AlignColumns| > 0, SetColumnAlignment(ColumnCodes(o.AlignColumns)))
    else if j == 1 then Step(|o.AlignColumns| == 0, SetAlignment(ToTableWriter(o.Align)))
    else if j == 2 then Step(o.AlignHeader != AlignDefault, SetHeaderAlignment(ToTableWriter(o.AlignHeader)))
    else if j == 3 then Step(o.AlignFooter != AlignDefault, SetFooterAlignment(ToTableWriter(o.AlignFooter)))
    else if j == 4 then Step(true, SetAutoFormatHeaders(o.AutoFormattingHeaders))
    else if j == 5 then Step(true, SetAutoMergeCells(o.AutoMergeCells))
    else if j == 6 then Step(true, SetAutoWrapText(o.AutoWrap))
    else if j == 7 then Step(|o.Caption| > 0, SetCaption(true, o.Caption))
    else if j == 8 then Step(true, SetCenterSeparator(o.CenterSeparator))
    else if j == 9 then Step(true, SetColumnSeparator(o.ColumnSeparator))
    else if j == 10 then Step(|o.Footer| > 0, SetFooter(o.Footer))
    else if j == 11 then Step(|o.Header| > 0, SetHeader(o.Header))
    else if j == 12 then Step(true, SetNewLine(o.Newline))
    else if j == 13 then Step(true, SetReflowDuringAutoWrap(o.Reflow))
    else Step(true, SetRowSeparator(o.RowSeparator))
  }

  /** The configuration's guarded setter calls in source order. */
  function ConfigSteps(o: RenderOptions): (steps: seq<Step>)
    ensures |steps| == StepCount
  {
    seq(StepCount, j requires 0 <= j < StepCount => StepAt(o, j))
  }

  /** The calls actually made: the steps whose guard holds, in order. */
  function Emit(steps: seq<Step>): (calls: seq<Call>)
    ensures |calls| <= |steps|
  {
    if |steps| == 0 then []
    else (if steps[0].when then [steps[0].call] else []) + Emit(steps[1..])
  }

  /** The calls made while configuring a fresh formatter, in source order. */
  function ConfigTableWriter(o: RenderOptions): (calls: seq<Call>)
    ensures |calls| <= StepCount
  {
    Emit(ConfigSteps(o))
  }

  /** When exactly one step can make calls of kind `k`, the trace's calls of
      that kind are that step's call if its guard holds, and none otherwise. */
  lemma {:induction false} EmitOnlyStep(steps: seq<Step>, k: Kind, j: nat)
    requires j < |steps| && KindOf(steps[j].call) == k
    requires forall i :: 0 <= i < |steps| && i != j ==> KindOf(steps[i].call) != k
    ensures CallsOf(Emit(steps), k) == if steps[j].when then [steps[j].call] else []
    decreases |steps|
  {
    var head := if steps[0].when then [steps[0].call] else [];
    CallsOfConcat(head, Emit(steps[1..]), k);
    if j == 0 {
      EmitNoStep(steps[1..], k);
    } else {
      EmitOnlyStep(steps[1..], k, j - 1);
    }
  }

  /** When no step can make calls of kind `k`, the trace has none. */
  lemma {:induction false} EmitNoStep(steps: seq<Step>, k: Kind)
    requires forall i :: 0 <= i < |steps| ==> KindOf(steps[i].call) != k
    ensures CallsOf(Emit(steps), k) == []
    decreases |steps|
  {
    if |steps| > 0 {
      var head := if steps[0].when then [steps[0].call] else [];
      CallsOfConcat(head, Emit(steps[1..]), k);
      EmitNoStep(steps[1..], k);
    }
  }

  /** Step `j` of the configuration makes the setter of ordinal `j`, so no
      two steps call the same setter. */
  lemma StepOrdinals(o: RenderOptions)
    ensures forall j :: 0 <= j < StepCount ==> Ordinal(KindOf(StepAt(o, j).call)) == j
  {
  }

  /** Each setter is called at most once: exactly when its step's guard
      holds, and with that step's argument. */
  lemma ConfigStep(o: RenderOptions, j: nat, when: bool, call: Call)
    requires j < StepCount && StepAt(o, j) == Step(when, call)
    ensures CallsOf(ConfigTableWriter(o), KindOf(call)) == if when then [call] else []
  {
    StepOrdinals(o);
    var steps := ConfigSteps(o);
    assert forall i :: 0 <= i < |steps| ==> steps[i] == StepAt(o, i);
    EmitOnlyStep(steps, KindOf(call), j);
  }

  /** Per-column alignment, when given, replaces the overall alignment: the
      trace then holds exactly one column-alignment call, carrying each
      column's formatter code in column order, and no overall alignment call;
      otherwise exactly one overall alignment call and no column-alignment
      call. */
  lemma ConfigAlignment(o: RenderOptions)
    ensures |o.AlignColumns| > 0 ==>
      && CallsOf(ConfigTableWriter(o), ColumnAlignmentK) == [SetColumnAlignment(ColumnCodes(o.AlignColumns))]
      && CallsOf(ConfigTableWriter(o), AlignmentK) == []
    ensures |o.AlignColumns| == 0 ==>
      && CallsOf(ConfigTableWriter(o), AlignmentK) == [SetAlignment(ToTableWriter(o.Align))]
      && CallsOf(ConfigTableWriter(o), ColumnAlignmentK) == []
  {
    ConfigStep(o, 0, |o.AlignColumns| > 0, SetColumnAlignment(ColumnCodes(o.AlignColumns)));
    ConfigStep(o, 1, |o.AlignColumns| == 0, SetAlignment(ToTableWriter(o.Align)));
  }

  /** Header alignment is set once, with the formatter code of the option,
      exactly when the option is not the default alignment. */
  lemma ConfigHeaderAlignment(o: RenderOptions)
    ensures CallsOf(ConfigTableWriter(o), HeaderAlignmentK)
         == if o.AlignHeader != AlignDefault then [SetHeaderAlignment(ToTableWriter(o.AlignHeader))] else []
  {
    ConfigStep(o, 2, o.AlignHeader != AlignDefault, SetHeaderAlignment(ToTableWriter(o.AlignHeader)));
  }

  /** Footer alignment is set once, with the formatter code of the option,
      exactly when the option is not the default alignment. */
  lemma ConfigFooterAlignment(o: RenderOptions)
    ensures CallsOf(ConfigTableWriter(o), FooterAlignmentK)
         == if o.AlignFooter != AlignDefault then [SetFooterAlignment(ToTableWriter(o.AlignFooter))] else []
  {
    ConfigStep(o, 3, o.AlignFooter != AlignDefault, SetFooterAlignment(ToTableWriter(o.AlignFooter)));
  }

  /** The formatter is asked to align the header with a given code exactly
      when the header alignment is not the default and has that code. */
  lemma ConfigHeaderAlignmentCall(o: RenderOptions, code: int)
    ensures SetHeaderAlignment(code) in ConfigTableWriter(o)
        <==> o.AlignHeader != AlignDefault && ToTableWriter(o.AlignHeader) == code
  {
    ConfigHeaderAlignment(o);
    CallsOfMembership(ConfigTableWriter(o), SetHeaderAlignment(code));
  }

  /** The formatter is asked to align the footer with a given code exactly
      when the footer alignment is not the default and has that code. */
  lemma ConfigFooterAlignmentCall(o: RenderOptions, code: int)
    ensures SetFooterAlignment(code) in ConfigTableWriter(o)
        <==> o.AlignFooter != AlignDefault && ToTableWriter(o.AlignFooter) == code
  {
    ConfigFooterAlignment(o);
    CallsOfMembership(ConfigTableWriter(o), SetFooterAlignment(code));
  }

  /** The caption is set once, shown, exactly when it is non-empty. */
  lemma ConfigCaption(o: RenderOptions)
    ensures CallsOf(ConfigTableWriter(o), CaptionK) == if |o.Caption| > 0 then [SetCaption(true, o.Caption)] else []
  {
    ConfigStep(o, 7, |o.Caption| > 0, SetCaption(true, o.Caption));
  }

  /** The literal footer row is set once exactly when it is non-empty. */
  lemma ConfigFooter(o: RenderOptions)
    ensures CallsOf(ConfigTableWriter(o), FooterK) == if |o.Footer| > 0 then [SetFooter(o.Footer)] else []
  {
    ConfigStep(o, 10, |o.Footer| > 0, SetFooter(o.Footer));
  }

  /** The literal header row is set once exactly when it is non-empty. */
  lemma ConfigHeader(o: RenderOptions)
    ensures CallsOf(ConfigTableWriter(o), HeaderK) == if |o.Header| > 0 then [SetHeader(o.Header)] else []
  {
    ConfigStep(o, 11, |o.Header| > 0, SetHeader(o.Header));
  }

  /** Configuring alone leaves a table whose header and footer are the
      literal rows of the options, with no body rows, not yet drawn. */
  lemma ConfigTable(o: RenderOptions)
    ensures Replay(EmptyTable, ConfigTableWriter(o)) == Table(o.Header, [], o.Footer, 0)
  {
    var calls := ConfigTableWriter(o);
    ConfigHeader(o);
    ConfigFooter(o);
    ConfigNoRowsNoRender(o);
    ReplayHeaderCells(EmptyTable, calls);
    ReplayFooterCells(EmptyTable, calls);
    ReplayUntouched(EmptyTable, calls);
    CellsCons(SetHeader(o.Header), []);
    CellsCons(SetFooter(o.Footer), []);
  }

  /** Configuring never appends a body row and never renders. */
  lemma ConfigNoRowsNoRender(o: RenderOptions)
    ensures CallsOf(ConfigTableWriter(o), AppendK) == []
    ensures CallsOf(ConfigTableWriter(o), RenderK) == []
  {
    StepOrdinals(o);
    var steps := ConfigSteps(o);
    assert forall i :: 0 <= i < |steps| ==> steps[i] == StepAt(o, i);
    EmitNoStep(steps, AppendK);
    EmitNoStep(steps, RenderK);
  }

  /** Automatic header formatting reaches exactly one setter, unchanged. */
  lemma ConfigAutoFormatHeaders(o: RenderOptions)
    ensures CallsOf(ConfigTableWriter(o), AutoFormatHeadersK) == [SetAutoFormatHeaders(o.AutoFormattingHeaders)]
  {
    ConfigStep(o, 4, true, SetAutoFormatHeaders(o.AutoFormattingHeaders));
  }

  /** Cell merging and text wrapping each reach exactly one setter, unchanged. */
  lemma ConfigAutoMergeWrap(o: RenderOptions)
    ensures CallsOf(ConfigTableWriter(o), AutoMergeCellsK) == [SetAutoMergeCells(o.AutoMergeCells)]
    ensures CallsOf(ConfigTableWriter(o), AutoWrapTextK) == [SetAutoWrapText(o.AutoWrap)]
  {
    ConfigStep(o, 5, true, SetAutoMergeCells(o.AutoMergeCells));
    ConfigStep(o, 6, true, SetAutoWrapText(o.AutoWrap));
  }

  /** The center separator reaches exactly one setter, unchanged. */
  lemma ConfigCenterSeparator(o: RenderOptions)
    ensures CallsOf(ConfigTableWriter(o), CenterSeparatorK) == [SetCenterSeparator(o.CenterSeparator)]
  {
    ConfigStep(o, 8, true, SetCenterSeparator(o.CenterSeparator));
  }

  /** The column separator reaches exactly one setter, unchanged. */
  lemma ConfigColumnSeparator(o: RenderOptions)
    ensures CallsOf(ConfigTableWriter(o), ColumnSeparatorK) == [SetColumnSeparator(o.ColumnSeparator)]
  {
    ConfigStep(o, 9, true, SetColumnSeparator(o.ColumnSeparator));
  }

  /** The newline reaches exactly one setter, unchanged. */
  lemma ConfigNewLine(o: RenderOptions)
    ensures CallsOf(ConfigTableWriter(o), NewLineK) == [SetNewLine(o.Newline)]
  {
    ConfigStep(o, 12, true, SetNewLine(o.Newline));
  }

  /** The reflow flag reaches exactly one setter, unchanged. */
  lemma ConfigReflow(o: RenderOptions)
    ensures CallsOf(ConfigTableWriter(o), ReflowK) == [SetReflowDuringAutoWrap(o.Reflow)]
  {
    ConfigStep(o, 13, true, SetReflowDuringAutoWrap(o.Reflow));
  }

  /** The row separator reaches exactly one setter, unchanged. */
  lemma ConfigRowSeparator(o: RenderOptions)
    ensures CallsOf(ConfigTableWriter(o), RowSeparatorK) == [SetRowSeparator(o.RowSeparator)]
  {
    ConfigStep(o, 14, true, SetRowSeparator(o.RowSeparator));
  }

  /** Column width, the row-line flag and the first-row-as-header flag never
      influence the configuration trace. */
  lemma ConfigIgnoresUnforwardedFields(o: RenderOptions, colWidth: int, rowLine: bool, firstRowAsHeader: bool)
    ensures ConfigTableWriter(o.(ColWidth := colWidth, RowLine := rowLine, FirstRowAsHeader := firstRowAsHeader))
         == ConfigTableWriter(o)
  {
    var p := o.(ColWidth := colWidth, RowLine := rowLine, FirstRowAsHeader := firstRowAsHeader);
    forall i | 0 <= i < StepCount
      ensures ConfigSteps(p)[i] == ConfigSteps(o)[i]
    {
      assert StepAt(p, i) == StepAt(o, i);
    }
    assert ConfigSteps(p) == ConfigSteps(o);
  }
}
