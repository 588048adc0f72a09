/** The two historical render pipelines, each reduced to a sequential fold
    over the results of reading the CSV input. */
module Stream {
  import opened Errors
  import opened TableWriter
  import opened Config

  /** One call of the CSV reader: a record, the clean end of input, or a
      read failure. Reading past the end of the sequence counts as the clean
      end of input. */
  datatype ReadResult = Rec(fields: seq<string>) | EOF | Err(e: Error)

  /** The input that delivers exactly these records and then runs out. */
  function Feed(recs: seq<seq<string>>): (input: seq<ReadResult>)
    ensures |input| == |recs|
  {
    seq(|recs|, i requires 0 <= i < |recs| => Rec(recs[i]))
  }

  /** The records that reach the consumer: the longest run of records at the
      front of the input. */
  function Records(input: seq<ReadResult>): (recs: seq<seq<string>>)
    ensures |recs| <= |input|
    ensures forall i :: 0 <= i < |recs| ==> input[i] == Rec(recs[i])
    ensures |recs| < |input| ==> !input[|recs|].Rec?
    decreases |input|
  {
    if |input| == 0 || !input[0].Rec? then []
    else [input[0].fields] + Records(input[1..])
  }

  /** The read failure that stops the input, if it does not end cleanly. */
  function StopError(input: seq<ReadResult>): Option<Error>
  {
    var n := |Records(input)|;
    if n < |input| && input[n].Err? then Some(input[n].e) else None
  }

  /** The stream part of the trace: with the header taken from the input,
      the first record becomes the header and the rest are appended;
      otherwise every record is appended. */
  function Routed(headerFirst: bool, recs: seq<seq<string>>): seq<Call>
  {
    if headerFirst && |recs| > 0 then HeaderThenAppends(recs) else Appends(recs)
  }

  /** Whatever follows the records, the records read are exactly the ones fed. */
  lemma {:induction false} RecordsOfFeed(recs: seq<seq<string>>, stop: ReadResult, rest: seq<ReadResult>)
    requires !stop.Rec?
    ensures Records(Feed(recs) + [stop] + rest) == recs
    ensures StopError(Feed(recs) + [stop] + rest) == if stop.Err? then Some(stop.e) else None
    decreases |recs|
  {
    var input := Feed(recs) + [stop] + rest;
    if |recs| == 0 {
      assert input[0] == stop;
    } else {
      assert input[0] == Rec(recs[0]);
      assert input[1..] == Feed(recs[1..]) + [stop] + rest;
      RecordsOfFeed(recs[1..], stop, rest);
      assert [recs[0]] + recs[1..] == recs;
    }
  }

  /** Running out of input delivers every record fed and no error. */
  lemma {:induction false} RecordsOfFeedOnly(recs: seq<seq<string>>)
    ensures Records(Feed(recs)) == recs
    ensures StopError(Feed(recs)) == None
    decreases |recs|
  {
    var input := Feed(recs);
    if |recs| > 0 {
      assert input[1..] == Feed(recs[1..]);
      RecordsOfFeedOnly(recs[1..]);
      assert [recs[0]] + recs[1..] == recs;
    }
  }

  /** The stream part of a trace never renders and never touches the
      formatter's other settings. */
  lemma RoutedKinds(headerFirst: bool, recs: seq<seq<string>>, k: Kind)
    ensures k != HeaderK && k != AppendK ==> CallsOf(Routed(headerFirst, recs), k) == []
    ensures k == AppendK ==>
      CallsOf(Routed(headerFirst, recs), k) == if headerFirst && |recs| > 0 then Appends(recs[1..]) else Appends(recs)
    ensures k == HeaderK ==>
      CallsOf(Routed(headerFirst, recs), k) == if headerFirst && |recs| > 0 then [SetHeader(recs[0])] else []
  {
    if headerFirst && |recs| > 0 {
      CallsOfHeaderThenAppends(recs, k);
    } else {
      CallsOfAppends(recs, k);
    }
  }

  /** A configuration trace: it neither appends body rows nor renders. */
  predicate NoBody(config: seq<Call>)
  {
    CallsOf(config, AppendK) == [] && CallsOf(config, RenderK) == []
  }

  /** The calls made while configuring the formatter from options form a
      configuration trace. */
  lemma ConfigIsNoBody(o: RenderOptions)
    ensures NoBody(ConfigTableWriter(o))
  {
    ConfigNoRowsNoRender(o);
  }

  // ---------------------------------------------------------------------
  // The pipeline of the render command itself.
  // ---------------------------------------------------------------------

  /** The reader loop and the consumer loop merged: each record read is
      handed on, the first to the header and the rest to the body; end of
      input and a read failure both just stop the loop. */
  function StreamV1(input: seq<ReadResult>, first: bool): (calls: seq<Call>)
    ensures calls == Routed(first, Records(input))
    decreases |input|
  {
    if |input| == 0 then []
    else match input[0]
      case EOF => []
      case Err(_) => []
      case Rec(fields) =>
        var rest := StreamV1(input[1..], false);
        assert Records(input) == [fields] + Records(input[1..]);
        assert Appends([fields] + Records(input[1..])) == [Append(fields)] + Appends(Records(input[1..]));
        (if first then [SetHeader(fields)] else [Append(fields)]) + rest
  }

  /** The whole trace after the given configuration calls: the stream, then
      one render. */
  function TraceV1(config: seq<Call>, input: seq<ReadResult>): (calls: seq<Call>)
    ensures calls == config + Routed(true, Records(input)) + [Render]
  {
    config + StreamV1(input, true) + [Render]
  }

  /** Configures the formatter, streams the input into it, and renders once;
      it never reports an error. */
  function RenderV1(o: RenderOptions, input: seq<ReadResult>): (r: (seq<Call>, Option<Error>))
    ensures r.1 == None
    ensures r.0 == ConfigTableWriter(o) + Routed(true, Records(input)) + [Render]
  {
    (TraceV1(ConfigTableWriter(o), input), None)
  }

  /** A read failure ends the input just as a clean end does: nothing read
      after either one matters, and neither is reported. */
  lemma RenderV1ErrorLikeEOF(o: RenderOptions, recs: seq<seq<string>>, e: Error,
                             rest: seq<ReadResult>, rest': seq<ReadResult>)
    ensures RenderV1(o, Feed(recs) + [Err(e)] + rest) == RenderV1(o, Feed(recs) + [EOF] + rest')
    ensures RenderV1(o, Feed(recs) + [Err(e)] + rest) == RenderV1(o, Feed(recs))
  {
    RecordsOfFeed(recs, Err(e), rest);
    RecordsOfFeed(recs, EOF, rest');
    RecordsOfFeedOnly(recs);
  }

  /** The calls of each kind in the trace: the configuration's, the
      stream's, and the final render. */
  lemma TraceV1Kinds(config: seq<Call>, input: seq<ReadResult>, k: Kind)
    ensures CallsOf(TraceV1(config, input), k)
         == CallsOf(config, k) + CallsOf(Routed(true, Records(input)), k) + (if k == RenderK then [Render] else [])
  {
    CallsOfThree(config, Routed(true, Records(input)), [Render], k);
    CallsOfRender(k);
  }

  /** After a configuration trace, the render command renders exactly once,
      as its very last call. */
  lemma TraceV1RendersOnceAtEnd(config: seq<Call>, input: seq<ReadResult>)
    requires NoBody(config)
    ensures CallsOf(TraceV1(config, input), RenderK) == [Render]
    ensures TraceV1(config, input)[|TraceV1(config, input)| - 1] == Render
  {
    TraceV1Kinds(config, input, RenderK);
    RoutedKinds(true, Records(input), RenderK);
  }

  /** After a configuration trace, the first record always becomes the
      header, whatever the options say, and every later record is appended
      in read order. */
  lemma TraceV1Routing(config: seq<Call>, input: seq<ReadResult>)
    requires NoBody(config) && |Records(input)| > 0
    ensures CallsOf(TraceV1(config, input), HeaderK) == CallsOf(config, HeaderK) + [SetHeader(Records(input)[0])]
    ensures CallsOf(TraceV1(config, input), AppendK) == Appends(Records(input)[1..])
  {
    TraceV1Kinds(config, input, HeaderK);
    TraceV1Kinds(config, input, AppendK);
    RoutedKinds(true, Records(input), HeaderK);
    RoutedKinds(true, Records(input), AppendK);
  }

  /** The table drawn after a configuration trace: the first record's cells
      follow the configured header cells, every later record is a body row
      in read order, the configured footer stays, and it is drawn once. With
      no configured header, the header is exactly the first record. */
  lemma TraceV1Table(config: seq<Call>, input: seq<ReadResult>)
    requires NoBody(config)
    ensures var recs, c := Records(input), Replay(EmptyTable, config);
      Replay(EmptyTable, TraceV1(config, input))
        == if |recs| > 0 then Table(c.header + recs[0], recs[1..], c.footer, 1)
           else Table(c.header, [], c.footer, 1)
    ensures CallsOf(config, HeaderK) == [] && |Records(input)| > 0 ==>
      Replay(EmptyTable, TraceV1(config, input)).header == Records(input)[0]
  {
    var recs := Records(input);
    var stream := Routed(true, recs);
    ReplayUntouched(EmptyTable, config);
    ReplayHeaderCells(EmptyTable, config);
    var t := Replay(EmptyTable, config);
    if |recs| > 0 {
      ReplayHeaderThenAppends(t, recs);
    } else {
      ReplayAppends(t, recs);
    }
    ReplayRender(Replay(t, stream));
    ReplayThree(EmptyTable, config, stream, [Render]);
  }

  /** The render command renders exactly once, as its very last call, and
      the header drawn is the literal header's cells followed by the first
      record's. */
  lemma RenderV1RendersOnce(o: RenderOptions, input: seq<ReadResult>)
    ensures CallsOf(RenderV1(o, input).0, RenderK) == [Render]
    ensures |Records(input)| > 0 ==> Replay(EmptyTable, RenderV1(o, input).0).header == o.Header + Records(input)[0]
  {
    ConfigIsNoBody(o);
    TraceV1RendersOnceAtEnd(ConfigTableWriter(o), input);
    RenderV1Table(o, input);
  }

  /** The table the render command draws: the literal header followed by the
      first record's cells, every later record as a body row in read order,
      the literal footer, drawn once. */
  lemma RenderV1Table(o: RenderOptions, input: seq<ReadResult>)
    ensures var recs := Records(input);
      Replay(EmptyTable, RenderV1(o, input).0)
        == if |recs| > 0 then Table(o.Header + recs[0], recs[1..], o.Footer, 1)
           else Table(o.Header, [], o.Footer, 1)
  {
    ConfigIsNoBody(o);
    ConfigTable(o);
    TraceV1Table(ConfigTableWriter(o), input);
  }

  /** The render command sends the first record to the header whatever the
      options say, and appends every later record in read order. */
  lemma RenderV1Routing(o: RenderOptions, input: seq<ReadResult>)
    requires |Records(input)| > 0
    ensures CallsOf(RenderV1(o, input).0, AppendK) == Appends(Records(input)[1..])
    ensures CallsOf(RenderV1(o, input).0, HeaderK)
         == CallsOf(ConfigTableWriter(o), HeaderK) + [SetHeader(Records(input)[0])]
  {
    ConfigIsNoBody(o);
    TraceV1Routing(ConfigTableWriter(o), input);
  }

  // ---------------------------------------------------------------------
  // The later pipeline with header routing and error propagation.
  // ---------------------------------------------------------------------

  /** The reader loop and the consumer loop merged: the first record becomes
      the header only when the options ask for it; a read failure stops the
      loop and is handed back, a clean end stops it with no error. */
  function StreamV2(input: seq<ReadResult>, first: bool, firstRowAsHeader: bool): (r: (seq<Call>, Option<Error>))
    ensures r.0 == Routed(first && firstRowAsHeader, Records(input))
    ensures r.1 == StopError(input)
    decreases |input|
  {
    if |input| == 0 then ([], None)
    else match input[0]
      case EOF => ([], None)
      case Err(e) => ([], Some(e))
      case Rec(fields) =>
        var toHeader := first && firstRowAsHeader;
        var rest := StreamV2(input[1..], if toHeader then false else first, firstRowAsHeader);
        assert Records(input) == [fields] + Records(input[1..]);
        assert Appends([fields] + Records(input[1..])) == [Append(fields)] + Appends(Records(input[1..]));
        ((if toHeader then [SetHeader(fields)] else [Append(fields)]) + rest.0, rest.1)
  }

  /** The whole trace after the given configuration calls, and the error
      reported: the stream, then a render only if a read failed. */
  function TraceV2(config: seq<Call>, firstRowAsHeader: bool, input: seq<ReadResult>): (r: (seq<Call>, Option<Error>))
    ensures r.1 == StopError(input)
    ensures r.0 == config + Routed(firstRowAsHeader, Records(input)) + (if r.1.Some? then [Render] else [])
  {
    var s := StreamV2(input, true, firstRowAsHeader);
    (config + s.0 + (if s.1.Some? then [Render] else []), s.1)
  }

  /** Configures the formatter, streams the input into it, renders only if a
      read failed, and reports that failure. */
  function RenderV2(o: RenderOptions, input: seq<ReadResult>): (r: (seq<Call>, Option<Error>))
    ensures r.1 == StopError(input)
    ensures r.0 == ConfigTableWriter(o) + Routed(o.FirstRowAsHeader, Records(input)) + (if r.1.Some? then [Render] else [])
  {
    TraceV2(ConfigTableWriter(o), o.FirstRowAsHeader, input)
  }

  /** The calls of each kind in the trace: the configuration's, the
      stream's, and a render exactly when a read failed. */
  lemma TraceV2Kinds(config: seq<Call>, firstRowAsHeader: bool, input: seq<ReadResult>, k: Kind)
    ensures CallsOf(TraceV2(config, firstRowAsHeader, input).0, k)
         == CallsOf(config, k) + CallsOf(Routed(firstRowAsHeader, Records(input)), k)
            + (if k == RenderK && StopError(input).Some? then [Render] else [])
  {
    var tail: seq<Call> := if StopError(input).Some? then [Render] else [];
    CallsOfThree(config, Routed(firstRowAsHeader, Records(input)), tail, k);
    CallsOfRender(k);
  }

  /** Without the header option every record is appended in read order and
      the stream sets no header. */
  lemma TraceV2NoHeaderOption(config: seq<Call>, input: seq<ReadResult>)
    requires NoBody(config)
    ensures CallsOf(TraceV2(config, false, input).0, AppendK) == Appends(Records(input))
    ensures CallsOf(TraceV2(config, false, input).0, HeaderK) == CallsOf(config, HeaderK)
  {
    TraceV2Kinds(config, false, input, AppendK);
    TraceV2Kinds(config, false, input, HeaderK);
    RoutedKinds(false, Records(input), AppendK);
    RoutedKinds(false, Records(input), HeaderK);
  }

  /** With the header option and at least one record, exactly the first
      record goes to the header and the others are appended in read order. */
  lemma TraceV2HeaderOption(config: seq<Call>, input: seq<ReadResult>)
    requires NoBody(config) && |Records(input)| > 0
    ensures CallsOf(TraceV2(config, true, input).0, AppendK) == Appends(Records(input)[1..])
    ensures CallsOf(TraceV2(config, true, input).0, HeaderK)
         == CallsOf(config, HeaderK) + [SetHeader(Records(input)[0])]
  {
    TraceV2Kinds(config, true, input, AppendK);
    TraceV2Kinds(config, true, input, HeaderK);
    RoutedKinds(true, Records(input), AppendK);
    RoutedKinds(true, Records(input), HeaderK);
  }

  /** After a configuration trace, the table is rendered once if an error
      is reported and never otherwise. */
  lemma TraceV2RenderCalls(config: seq<Call>, firstRowAsHeader: bool, input: seq<ReadResult>)
    requires NoBody(config)
    ensures CallsOf(TraceV2(config, firstRowAsHeader, input).0, RenderK)
         == if StopError(input).Some? then [Render] else []
  {
    TraceV2Kinds(config, firstRowAsHeader, input, RenderK);
    RoutedKinds(firstRowAsHeader, Records(input), RenderK);
  }

  /** After a configuration trace, the table is rendered exactly when an
      error is reported, so a clean run draws nothing. */
  lemma TraceV2RendersIffError(config: seq<Call>, firstRowAsHeader: bool, input: seq<ReadResult>)
    requires NoBody(config)
    ensures Render in TraceV2(config, firstRowAsHeader, input).0 <==> TraceV2(config, firstRowAsHeader, input).1.Some?
  {
    var calls := TraceV2(config, firstRowAsHeader, input).0;
    TraceV2RenderCalls(config, firstRowAsHeader, input);
    CallsOfMembership(calls, Render);
  }

  /** The table built after a configuration trace: the first record's cells
      follow the configured header cells when the header option is set, the
      body is the records less the one that went to the header, the
      configured footer stays, and it is drawn once if a read failed and
      never otherwise. */
  lemma TraceV2Table(config: seq<Call>, firstRowAsHeader: bool, input: seq<ReadResult>)
    requires NoBody(config)
    ensures var recs, c := Records(input), Replay(EmptyTable, config);
      var toHeader := firstRowAsHeader && |recs| > 0;
      Replay(EmptyTable, TraceV2(config, firstRowAsHeader, input).0)
        == Table(if toHeader then c.header + recs[0] else c.header,
                 if toHeader then recs[1..] else recs,
                 c.footer,
                 if StopError(input).Some? then 1 else 0)
  {
    var recs := Records(input);
    var stream := Routed(firstRowAsHeader, recs);
    var tail: seq<Call> := if StopError(input).Some? then [Render] else [];
    ReplayUntouched(EmptyTable, config);
    var t := Replay(EmptyTable, config);
    if firstRowAsHeader && |recs| > 0 {
      ReplayHeaderThenAppends(t, recs);
    } else {
      ReplayAppends(t, recs);
    }
    if StopError(input).Some? {
      ReplayRender(Replay(t, stream));
    }
    ReplayThree(EmptyTable, config, stream, tail);
  }

  /** The first read failure is the one reported, and nothing after it is
      read: the outcome does not depend on the rest of the input. */
  lemma RenderV2FirstError(o: RenderOptions, recs: seq<seq<string>>, e: Error, rest: seq<ReadResult>)
    ensures RenderV2(o, Feed(recs) + [Err(e)] + rest).1 == Some(e)
    ensures RenderV2(o, Feed(recs) + [Err(e)] + rest) == RenderV2(o, Feed(recs) + [Err(e)])
  {
    RecordsOfFeed(recs, Err(e), rest);
    RecordsOfFeed(recs, Err(e), []);
    assert Feed(recs) + [Err(e)] + [] == Feed(recs) + [Err(e)];
  }

  /** A clean end of input, or running out of input, reports no error, and
      nothing after the end is read. */
  lemma RenderV2CleanEnd(o: RenderOptions, recs: seq<seq<string>>, rest: seq<ReadResult>)
    ensures RenderV2(o, Feed(recs) + [EOF] + rest).1 == None
    ensures RenderV2(o, Feed(recs)).1 == None
    ensures RenderV2(o, Feed(recs) + [EOF] + rest) == RenderV2(o, Feed(recs))
  {
    RecordsOfFeed(recs, EOF, rest);
    RecordsOfFeedOnly(recs);
  }

  /** Empty input adds nothing to the configuration trace and reports no
      error. */
  lemma RenderV2EmptyInput(o: RenderOptions, rest: seq<ReadResult>)
    ensures RenderV2(o, [EOF] + rest) == (ConfigTableWriter(o), None)
    ensures RenderV2(o, []) == (ConfigTableWriter(o), None)
  {
    assert ([EOF] + rest)[0] == EOF;
    assert ConfigTableWriter(o) + [] + [] == ConfigTableWriter(o);
  }

  /** The later pipeline renders exactly when it reports an error. */
  lemma RenderV2RendersIffError(o: RenderOptions, input: seq<ReadResult>)
    ensures Render in RenderV2(o, input).0 <==> RenderV2(o, input).1.Some?
  {
    ConfigIsNoBody(o);
    TraceV2RendersIffError(ConfigTableWriter(o), o.FirstRowAsHeader, input);
  }

  /** The later pipeline appends every record unless the header option is
      set, and then sends exactly the first record to the header. */
  lemma RenderV2Routing(o: RenderOptions, input: seq<ReadResult>)
    ensures !o.FirstRowAsHeader ==>
      && CallsOf(RenderV2(o, input).0, AppendK) == Appends(Records(input))
      && CallsOf(RenderV2(o, input).0, HeaderK) == CallsOf(ConfigTableWriter(o), HeaderK)
    ensures o.FirstRowAsHeader && |Records(input)| > 0 ==>
      && CallsOf(RenderV2(o, input).0, AppendK) == Appends(Records(input)[1..])
      && CallsOf(RenderV2(o, input).0, HeaderK)
         == CallsOf(ConfigTableWriter(o), HeaderK) + [SetHeader(Records(input)[0])]
  {
    ConfigIsNoBody(o);
    if o.FirstRowAsHeader {
      if |Records(input)| > 0 {
        TraceV2HeaderOption(ConfigTableWriter(o), input);
      }
    } else {
      TraceV2NoHeaderOption(ConfigTableWriter(o), input);
    }
  }
  /** The table the later pipeline builds: the literal header, followed by
      the first record's cells when the header option is set; the records
      less that one as body rows, in read order; the literal footer; drawn
      once if a read failed and never otherwise. */
  lemma RenderV2Table(o: RenderOptions, input: seq<ReadResult>)
    ensures var recs := Records(input);
      var toHeader := o.FirstRowAsHeader && |recs| > 0;
      Replay(EmptyTable, RenderV2(o, input).0)
        == Table(if toHeader then o.Header + recs[0] else o.Header,
                 if toHeader then recs[1..] else recs,
                 o.Footer,
                 if StopError(input).Some? then 1 else 0)
  {
    ConfigIsNoBody(o);
    ConfigTable(o);
    TraceV2Table(ConfigTableWriter(o), o.FirstRowAsHeader, input);
  }

  /** As written, a run that reads every record and ends cleanly builds the
      whole table but never draws it, and reports no error. */
  lemma RenderV2CleanRunDrawsNothing(o: RenderOptions, recs: seq<seq<string>>)
    ensures RenderV2(o, Feed(recs) + [EOF]).1 == None
    ensures Render !in RenderV2(o, Feed(recs) + [EOF]).0
    ensures Replay(EmptyTable, RenderV2(o, Feed(recs) + [EOF]).0).renders == 0
  {
    var input := Feed(recs) + [EOF];
    RecordsOfFeed(recs, EOF, []);
    assert Feed(recs) + [EOF] + [] == input;
    ConfigIsNoBody(o);
    TraceV2RendersIffError(ConfigTableWriter(o), o.FirstRowAsHeader, input);
    RenderV2Table(o, input);
  }

  // ---------------------------------------------------------------------
  // The later pipeline with the render condition corrected.
  // ---------------------------------------------------------------------

  /** The whole trace after the given configuration calls, with the table
      drawn once the input ends cleanly and not after a read failure, which
      is still reported. */
  function TraceV2Corrected(config: seq<Call>, firstRowAsHeader: bool, input: seq<ReadResult>): (r: (seq<Call>, Option<Error>))
    ensures r.1 == StopError(input)
    ensures r.0 == config + Routed(firstRowAsHeader, Records(input)) + (if r.1.None? then [Render] else [])
  {
    var s := StreamV2(input, true, firstRowAsHeader);
    (config + s.0 + (if s.1.None? then [Render] else []), s.1)
  }

  /** The later pipeline as its documentation describes it: it writes the
      table when the input has been read to its end. */
  function RenderV2Corrected(o: RenderOptions, input: seq<ReadResult>): (r: (seq<Call>, Option<Error>))
    ensures r.1 == StopError(input)
    ensures r.0 == ConfigTableWriter(o) + Routed(o.FirstRowAsHeader, Records(input)) + (if r.1.None? then [Render] else [])
  {
    TraceV2Corrected(ConfigTableWriter(o), o.FirstRowAsHeader, input)
  }

  /** The corrected pipeline reports the same error and makes the same
      calls as the written one, except that the single render moves from the
      failing runs to the clean ones. */
  lemma RenderV2CorrectedMovesRender(o: RenderOptions, input: seq<ReadResult>)
    ensures RenderV2Corrected(o, input).1 == RenderV2(o, input).1
    ensures StopError(input).None? ==> RenderV2Corrected(o, input).0 == RenderV2(o, input).0 + [Render]
    ensures StopError(input).Some? ==> RenderV2Corrected(o, input).0 + [Render] == RenderV2(o, input).0
  {
    var base := ConfigTableWriter(o) + Routed(o.FirstRowAsHeader, Records(input));
    assert base + [] == base;
  }

  /** The table the corrected pipeline builds: the same header, body rows
      and footer as the written one, drawn once exactly when the input ends
      cleanly. */
  lemma RenderV2CorrectedTable(o: RenderOptions, input: seq<ReadResult>)
    ensures var recs := Records(input);
      var toHeader := o.FirstRowAsHeader && |recs| > 0;
      Replay(EmptyTable, RenderV2Corrected(o, input).0)
        == Table(if toHeader then o.Header + recs[0] else o.Header,
                 if toHeader then recs[1..] else recs,
                 o.Footer,
                 if StopError(input).None? then 1 else 0)
  {
    var config := ConfigTableWriter(o);
    var stream := Routed(o.FirstRowAsHeader, Records(input));
    var t := Replay(EmptyTable, config + stream);
    RenderV2CorrectedMovesRender(o, input);
    RenderV2Table(o, input);
    if StopError(input).None? {
      assert RenderV2(o, input).0 == config + stream + [];
      ReplayConcat(EmptyTable, config + stream, []);
      ReplayConcat(EmptyTable, config + stream, [Render]);
      ReplayRender(t);
    } else {
      assert RenderV2Corrected(o, input).0 == config + stream + [];
      assert config + stream + [] == config + stream;
      ReplayConcat(EmptyTable, config + stream, [Render]);
      ReplayRender(t);
    }
  }
}
