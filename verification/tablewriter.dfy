/** The table formatter as the render core sees it: a handful of opaque
    alignment codes and a recorded trace of the setter calls made on it.
    The formatter's own layout logic is not part of this model. */
module TableWriter {

  /** The formatter's alignment codes (an enumeration starting at zero in the
      formatter library). Only their distinctness matters to the core. */
  const ALIGN_DEFAULT: int := 0
  const ALIGN_CENTER: int := 1
  const ALIGN_RIGHT: int := 2
  const ALIGN_LEFT: int := 3

  /** One call on the formatter, with the arguments it received. */
  datatype Call =
    | SetColumnAlignment(codes: seq<int>)
    | SetAlignment(code: int)
    | SetHeaderAlignment(code: int)
    | SetFooterAlignment(code: int)
    | SetAutoFormatHeaders(on: bool)
    | SetAutoMergeCells(on: bool)
    | SetAutoWrapText(on: bool)
    | SetCaption(show: bool, text: string)
    | SetCenterSeparator(sep: string)
    | SetColumnSeparator(sep: string)
    | SetFooter(row: seq<string>)
    | SetHeader(row: seq<string>)
    | SetNewLine(newline: string)
    | SetReflowDuringAutoWrap(on: bool)
    | SetRowSeparator(sep: string)
    | Append(row: seq<string>)
    | Render

  /** Which setter a call is, ignoring its arguments. The kinds are listed
      in the order in which the configuration step calls them. */
  datatype Kind =
    | ColumnAlignmentK | AlignmentK | HeaderAlignmentK | FooterAlignmentK
    | AutoFormatHeadersK | AutoMergeCellsK | AutoWrapTextK | CaptionK
    | CenterSeparatorK | ColumnSeparatorK | FooterK | HeaderK | NewLineK
    | ReflowK | RowSeparatorK | AppendK | RenderK

  function KindOf(c: Call): Kind
  {
    match c
    case SetColumnAlignment(_) => ColumnAlignmentK
    case SetAlignment(_) => AlignmentK
    case SetHeaderAlignment(_) => HeaderAlignmentK
    case SetFooterAlignment(_) => FooterAlignmentK
    case SetAutoFormatHeaders(_) => AutoFormatHeadersK
    case SetAutoMergeCells(_) => AutoMergeCellsK
    case SetAutoWrapText(_) => AutoWrapTextK
    case SetCaption(_, _) => CaptionK
    case SetCenterSeparator(_) => CenterSeparatorK
    case SetColumnSeparator(_) => ColumnSeparatorK
    case SetFooter(_) => FooterK
    case SetHeader(_) => HeaderK
    case SetNewLine(_) => NewLineK
    case SetReflowDuringAutoWrap(_) => ReflowK
    case SetRowSeparator(_) => RowSeparatorK
    case Append(_) => AppendK
    case Render => RenderK
  }

  /** The position of a kind in the declaration order above. */
  function Ordinal(k: Kind): nat
  {
    match k
    case ColumnAlignmentK => 0
    case AlignmentK => 1
    case HeaderAlignmentK => 2
    case FooterAlignmentK => 3
    case AutoFormatHeadersK => 4
    case AutoMergeCellsK => 5
    case AutoWrapTextK => 6
    case CaptionK => 7
    case CenterSeparatorK => 8
    case ColumnSeparatorK => 9
    case FooterK => 10
    case HeaderK => 11
    case NewLineK => 12
    case ReflowK => 13
    case RowSeparatorK => 14
    case AppendK => 15
    case RenderK => 16
  }

  /** The calls of kind `k` in the trace, in trace order. */
  function CallsOf(calls: seq<Call>, k: Kind): (sub: seq<Call>)
    ensures |sub| <= |calls|
  {
    if |calls| == 0 then []
    else (if KindOf(calls[0]) == k then [calls[0]] else []) + CallsOf(calls[1..], k)
  }

  /** Selecting by kind distributes over concatenation of traces. */
  lemma {:induction false} CallsOfConcat(a: seq<Call>, b: seq<Call>, k: Kind)
    ensures CallsOf(a + b, k) == CallsOf(a, k) + CallsOf(b, k)
    decreases |a|
  {
    if |a| == 0 {
      assert a + b == b;
    } else {
      var head := if KindOf(a[0]) == k then [a[0]] else [];
      assert CallsOf(a + b, k) == head + CallsOf(a[1..] + b, k) by {
        CallsOfUnfold(a + b, a[0], a[1..] + b, k);
      }
      CallsOfConcat(a[1..], b, k);
      SeqAssoc(head, CallsOf(a[1..], k), CallsOf(b, k));
    }
  }

  /** Selecting by kind distributes over three traces in a row. */
  lemma CallsOfThree(a: seq<Call>, b: seq<Call>, c: seq<Call>, k: Kind)
    ensures CallsOf(a + b + c, k) == CallsOf(a, k) + CallsOf(b, k) + CallsOf(c, k)
  {
    CallsOfConcat(a, b, k);
    CallsOfConcat(a + b, c, k);
  }

  /** A lone render request is selected exactly by its own kind. */
  lemma CallsOfRender(k: Kind)
    ensures CallsOf([Render], k) == if k == RenderK then [Render] else []
  {
    CallsOfUnfold([Render], Render, [], k);
  }

  lemma CallsOfUnfold(s: seq<Call>, x: Call, rest: seq<Call>, k: Kind)
    requires |s| > 0 && s[0] == x && s[1..] == rest
    ensures CallsOf(s, k) == (if KindOf(x) == k then [x] else []) + CallsOf(rest, k)
  {
  }

  lemma SeqAssoc(a: seq<Call>, b: seq<Call>, c: seq<Call>)
    ensures a + (b + c) == (a + b) + c
  {
  }

  /** A call belongs to the trace exactly when it is among the trace's calls
      of its own kind. */
  lemma {:induction false} CallsOfMembership(calls: seq<Call>, c: Call)
    ensures c in calls <==> c in CallsOf(calls, KindOf(c))
  {
    if |calls| > 0 {
      CallsOfMembership(calls[1..], c);
      assert c in calls <==> c == calls[0] || c in calls[1..];
    }
  }

  /** The body calls `Append(rows[0]), Append(rows[1]), ...` in order. */
  function Appends(rows: seq<seq<string>>): (calls: seq<Call>)
    ensures |calls| == |rows|
  {
    seq(|rows|, i requires 0 <= i < |rows| => Append(rows[i]))
  }

  /** The first row becomes the header, the rest are appended in order. */
  function HeaderThenAppends(rows: seq<seq<string>>): (calls: seq<Call>)
    ensures |calls| == |rows|
  {
    if |rows| == 0 then [] else [SetHeader(rows[0])] + Appends(rows[1..])
  }

  /** The formatter's accumulated state: the header and footer cells set so
      far, the body rows in append order, and how often it was asked to
      render. Each header or footer call adds its cells after those already
      there; it does not replace them. */
  datatype Table = Table(header: seq<string>, rows: seq<seq<string>>, footer: seq<string>, renders: nat)

  const EmptyTable := Table([], [], [], 0)

  /** The effect of one call on the accumulated state; setters that only
      configure formatting leave it alone. */
  function Apply(t: Table, c: Call): Table
  {
    match c
    case SetHeader(h) => t.(header := t.header + h)
    case SetFooter(f) => t.(footer := t.footer + f)
    case Append(r) => t.(rows := t.rows + [r])
    case Render => t.(renders := t.renders + 1)
    case _ => t
  }

  /** Replays a trace, oldest call first. */
  function Replay(t: Table, calls: seq<Call>): Table
    decreases |calls|
  {
    if |calls| == 0 then t else Replay(Apply(t, calls[0]), calls[1..])
  }

  /** Replaying two traces one after the other is replaying their concatenation. */
  lemma {:induction false} ReplayConcat(t: Table, a: seq<Call>, b: seq<Call>)
    ensures Replay(t, a + b) == Replay(Replay(t, a), b)
    decreases |a|
  {
    if |a| == 0 {
      assert a + b == b;
    } else {
      assert (a + b)[1..] == a[1..] + b;
      ReplayConcat(Apply(t, a[0]), a[1..], b);
    }
  }

  /** Appending rows adds exactly those rows, in order, and nothing else. */
  lemma {:induction false} ReplayAppends(t: Table, rows: seq<seq<string>>)
    ensures Replay(t, Appends(rows)) == t.(rows := t.rows + rows)
    decreases |rows|
  {
    if |rows| == 0 {
      assert t.rows + rows == t.rows;
    } else {
      var calls := Appends(rows);
      assert calls[0] == Append(rows[0]);
      assert calls[1..] == Appends(rows[1..]);
      ReplayAppends(Apply(t, Append(rows[0])), rows[1..]);
      assert t.rows + [rows[0]] + rows[1..] == t.rows + rows;
    }
  }

  /** With the first row as header, the table's header gains that row's
      cells and its body gains the remaining rows in order. */
  lemma ReplayHeaderThenAppends(t: Table, rows: seq<seq<string>>)
    requires |rows| > 0
    ensures Replay(t, HeaderThenAppends(rows)) == t.(header := t.header + rows[0], rows := t.rows + rows[1..])
  {
    var calls := HeaderThenAppends(rows);
    assert calls[1..] == Appends(rows[1..]);
    ReplayAppends(t.(header := t.header + rows[0]), rows[1..]);
  }

  /** A run of appends holds only appends: selecting them keeps the whole
      run, selecting any other kind keeps nothing. */
  lemma {:induction false} CallsOfAppends(rows: seq<seq<string>>, k: Kind)
    ensures CallsOf(Appends(rows), k) == if k == AppendK then Appends(rows) else []
    decreases |rows|
  {
    var calls := Appends(rows);
    if |rows| > 0 {
      assert calls[1..] == Appends(rows[1..]);
      CallsOfUnfold(calls, Append(rows[0]), Appends(rows[1..]), k);
      CallsOfAppends(rows[1..], k);
      if k == AppendK {
        assert [Append(rows[0])] + Appends(rows[1..]) == calls;
      }
    }
  }

  /** Routing the first row to the header yields one header call, with that
      row, followed by the appends of the remaining rows, and nothing else. */
  lemma CallsOfHeaderThenAppends(rows: seq<seq<string>>, k: Kind)
    requires |rows| > 0
    ensures CallsOf(HeaderThenAppends(rows), k)
         == if k == HeaderK then [SetHeader(rows[0])]
            else if k == AppendK then Appends(rows[1..])
            else []
  {
    CallsOfConcat([SetHeader(rows[0])], Appends(rows[1..]), k);
    CallsOfAppends(rows[1..], k);
  }

  /** A trace without appends leaves the body rows alone, and one without
      render requests leaves the render count alone. */
  lemma {:induction false} ReplayUntouched(t: Table, calls: seq<Call>)
    ensures CallsOf(calls, AppendK) == [] ==> Replay(t, calls).rows == t.rows
    ensures CallsOf(calls, RenderK) == [] ==> Replay(t, calls).renders == t.renders
    decreases |calls|
  {
    if |calls| > 0 {
      CallsOfUnfold(calls, calls[0], calls[1..], AppendK);
      CallsOfUnfold(calls, calls[0], calls[1..], RenderK);
      ReplayUntouched(Apply(t, calls[0]), calls[1..]);
    }
  }

  /** The cells a run of header or footer calls contributes, in call order. */
  function Cells(calls: seq<Call>): seq<string>
    decreases |calls|
  {
    if |calls| == 0 then []
    else (if calls[0].SetHeader? || calls[0].SetFooter? then calls[0].row else []) + Cells(calls[1..])
  }

  /** Cells of a run that starts with the given call. */
  lemma CellsCons(c: Call, rest: seq<Call>)
    ensures Cells([c] + rest) == (if c.SetHeader? || c.SetFooter? then c.row else []) + Cells(rest)
  {
    assert ([c] + rest)[0] == c;
    assert ([c] + rest)[1..] == rest;
  }

  /** The header of a replayed trace is the header it started with followed
      by the cells of every header call, in call order. */
  lemma {:induction false} ReplayHeaderCells(t: Table, calls: seq<Call>)
    ensures Replay(t, calls).header == t.header + Cells(CallsOf(calls, HeaderK))
    decreases |calls|
  {
    if |calls| == 0 {
      assert t.header + [] == t.header;
    } else {
      var c, rest := calls[0], calls[1..];
      CallsOfUnfold(calls, c, rest, HeaderK);
      ReplayHeaderCells(Apply(t, c), rest);
      var later := Cells(CallsOf(rest, HeaderK));
      if KindOf(c) == HeaderK {
        CellsCons(c, CallsOf(rest, HeaderK));
        assert (t.header + c.row) + later == t.header + (c.row + later);
      } else {
        assert Apply(t, c).header == t.header;
        assert [] + CallsOf(rest, HeaderK) == CallsOf(rest, HeaderK);
      }
    }
  }

  /** The footer of a replayed trace is the footer it started with followed
      by the cells of every footer call, in call order. */
  lemma {:induction false} ReplayFooterCells(t: Table, calls: seq<Call>)
    ensures Replay(t, calls).footer == t.footer + Cells(CallsOf(calls, FooterK))
    decreases |calls|
  {
    if |calls| == 0 {
      assert t.footer + [] == t.footer;
    } else {
      var c, rest := calls[0], calls[1..];
      CallsOfUnfold(calls, c, rest, FooterK);
      ReplayFooterCells(Apply(t, c), rest);
      var later := Cells(CallsOf(rest, FooterK));
      if KindOf(c) == FooterK {
        CellsCons(c, CallsOf(rest, FooterK));
        assert (t.footer + c.row) + later == t.footer + (c.row + later);
      } else {
        assert Apply(t, c).footer == t.footer;
        assert [] + CallsOf(rest, FooterK) == CallsOf(rest, FooterK);
      }
    }
  }

  /** Replaying three traces one after the other is replaying their
      concatenation. */
  lemma ReplayThree(t: Table, a: seq<Call>, b: seq<Call>, c: seq<Call>)
    ensures Replay(t, a + b + c) == Replay(Replay(Replay(t, a), b), c)
  {
    ReplayConcat(t, a + b, c);
    ReplayConcat(t, a, b);
  }

  /** A render request only counts one more render. */
  lemma ReplayRender(t: Table)
    ensures Replay(t, [Render]) == t.(renders := t.renders + 1)
  {
  }
}
