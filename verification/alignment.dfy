/** The alignment token codec: four justification tokens, the empty sentinel
    used on a failed parse, the mapping to the formatter's alignment codes, and
    the batch parser as written together with a corrected batch parser. */
module Align {
  import opened Errors
  import TableWriter

  /** An alignment is a string, as in the source: the four named constants
      are their own tokens, and every other string is an alignment too,
      just not one the codec knows. */
  datatype Alignment = Alignment(token: string)

  const AlignDefault := Alignment("=")
  const AlignCenter := Alignment("-")
  const AlignLeft := Alignment("<")
  const AlignRight := Alignment(">")
  const AlignEmpty := Alignment("")

  /** The four tokens the codec accepts. */
  const Tokens: set<string> := {"=", "-", "<", ">"}

  /** One of the four named constants (never the empty sentinel). */
  predicate IsValid(a: Alignment)
  {
    a.token in Tokens
  }

  predicate AllTokens(strs: seq<string>)
  {
    forall i :: 0 <= i < |strs| ==> strs[i] in Tokens
  }

  /** The canonical token of a named constant; the empty string otherwise. */
  function ToString(a: Alignment): (s: string)
    ensures IsValid(a) ==> s == a.token && s in Tokens
    ensures !IsValid(a) ==> s == ""
  {
    if a == AlignDefault then "="
    else if a == AlignCenter then "-"
    else if a == AlignLeft then "<"
    else if a == AlignRight then ">"
    else ""
  }

  /** The formatter code of a named constant; -1 for anything else. */
  function ToTableWriter(a: Alignment): int
  {
    if a == AlignDefault then TableWriter.ALIGN_DEFAULT
    else if a == AlignCenter then TableWriter.ALIGN_CENTER
    else if a == AlignRight then TableWriter.ALIGN_RIGHT
    else if a == AlignLeft then TableWriter.ALIGN_LEFT
    else -1
  }

  /** Each named constant reaches the formatter as its own code, and exactly
      the strings that are not named constants map to -1. */
  lemma ToTableWriterCodes(a: Alignment)
    ensures IsValid(a) <==> ToTableWriter(a) != -1
    ensures IsValid(a) ==> 0 <= ToTableWriter(a) <= 3
    ensures a == AlignDefault ==> ToTableWriter(a) == TableWriter.ALIGN_DEFAULT
    ensures a == AlignCenter ==> ToTableWriter(a) == TableWriter.ALIGN_CENTER
    ensures a == AlignRight ==> ToTableWriter(a) == TableWriter.ALIGN_RIGHT
    ensures a == AlignLeft ==> ToTableWriter(a) == TableWriter.ALIGN_LEFT
  {
  }

  /** Distinct named alignments reach the formatter as distinct codes. */
  lemma ToTableWriterInjective(a: Alignment, b: Alignment)
    requires IsValid(a) && IsValid(b)
    requires ToTableWriter(a) == ToTableWriter(b)
    ensures a == b
  {
    ToTableWriterCodes(a);
    ToTableWriterCodes(b);
    assert a.token == "=" || a.token == "-" || a.token == "<" || a.token == ">";
  }

  /** Parses a token; Go's `(Alignment, error)` pair is the tuple `(a, err)`.
      Succeeds exactly on the four tokens, and then yields the constant that
      IS that token; any other string yields the empty sentinel together with
      the `UnknownAlignment` error. */
  function FromString(s: string): (r: (Alignment, Option<Error>))
    ensures r.1.None? <==> s in Tokens
    ensures r.1.None? ==> IsValid(r.0) && r.0.token == s
    ensures r.1.Some? ==> r.0 == AlignEmpty && r.1.value == UnknownAlignment
  {
    if s == "=" then (AlignDefault, None)
    else if s == "-" then (AlignCenter, None)
    else if s == "<" then (AlignLeft, None)
    else if s == ">" then (AlignRight, None)
    else (AlignEmpty, Some(UnknownAlignment))
  }

  /** Every valid token parses and prints back to itself. */
  lemma TokenRoundTrip(s: string)
    requires s in Tokens
    ensures FromString(s).1 == None && ToString(FromString(s).0) == s
  {
  }

  /** Every named alignment prints to a token that parses back to it. */
  lemma AlignmentRoundTrip(a: Alignment)
    requires IsValid(a)
    ensures FromString(ToString(a)) == (a, None)
  {
  }

  /** The parsed alignments of an all-valid token list, in order. */
  function Parsed(strs: seq<string>): (aligns: seq<Alignment>)
    ensures |aligns| == |strs|
    ensures forall i :: 0 <= i < |strs| ==> aligns[i] == FromString(strs[i]).0
  {
    seq(|strs|, i requires 0 <= i < |strs| => FromString(strs[i]).0)
  }

  /** Index of the first token outside the four; |strs| when there is none. */
  function FirstInvalid(strs: seq<string>): (k: nat)
    ensures k <= |strs|
    ensures AllTokens(strs[..k])
    ensures k < |strs| ==> strs[k] !in Tokens
  {
    if |strs| == 0 then 0
    else if strs[0] !in Tokens then 0
    else
      var k := 1 + FirstInvalid(strs[1..]);
      assert strs[..k] == [strs[0]] + strs[1..][..k - 1];
      k
  }

  /** The body of the batch parser's loop as written: it parses each token
      and appends the result to its OWN copy of `out`, stopping with the
      error at the first invalid token. Returns the error and what that copy
      holds when the loop ends. */
  function AppendParsed(strs: seq<string>, out: seq<Alignment>): (r: (Option<Error>, seq<Alignment>))
    ensures r.0.None? <==> AllTokens(strs)
    ensures r.0.Some? ==> r.0.value == UnknownAlignment
    ensures r.1 == out + Parsed(strs[..FirstInvalid(strs)])
    decreases |strs|
  {
    if |strs| == 0 then (None, out)
    else
      var (a, err) := FromString(strs[0]);
      if err.Some? then (err, out)
      else
        var r := AppendParsed(strs[1..], out + [a]);
        assert strs[..FirstInvalid(strs)] == [strs[0]] + strs[1..][..FirstInvalid(strs[1..])];
        r
  }

  /** The batch parser as written: `out` is passed by value, so what the
      CALLER holds afterwards is the slice it passed in, whatever was parsed.
      Returns the error and the caller's view of `out`. */
  function FromStringArray(strs: seq<string>, out: seq<Alignment>): (r: (Option<Error>, seq<Alignment>))
    ensures r.0.None? <==> AllTokens(strs)
    ensures r.0.Some? ==> r.0.value == UnknownAlignment && strs[FirstInvalid(strs)] !in Tokens
    ensures r.1 == out
  {
    var (err, _) := AppendParsed(strs, out);
    (err, out)
  }

  /** Witness of the dropped results: a valid one-token list parses to a
      left alignment inside the parser, yet the caller's empty slice stays
      empty. */
  lemma FromStringArrayDropsResults()
    ensures AppendParsed(["<"], []).1 == [AlignLeft]
    ensures FromStringArray(["<"], []) == (None, [])
  {
    assert ["<"][..FirstInvalid(["<"])] == ["<"];
  }

  /** The corrected batch parser: returns the parsed alignments as its value,
      or fails with `UnknownAlignment` at the first invalid token, with no
      partial result. */
  function ParseMany(strs: seq<string>): (r: Result<seq<Alignment>>)
    ensures r.Ok? <==> AllTokens(strs)
    ensures r.Ok? ==> |r.value| == |strs|
    ensures r.Ok? ==> forall i :: 0 <= i < |strs| ==> IsValid(r.value[i]) && r.value[i].token == strs[i]
    ensures r.Fail? ==> r.error == UnknownAlignment && FirstInvalid(strs) < |strs|
    decreases |strs|
  {
    if |strs| == 0 then Ok([])
    else
      var (a, err) := FromString(strs[0]);
      if err.Some? then Fail(err.value)
      else
        match ParseMany(strs[1..])
        case Fail(e) => Fail(e)
        case Ok(rest) => Ok([a] + rest)
  }

  /** The corrected parser yields what the as-written loop accumulates. */
  lemma ParseManyAgreesWithLoop(strs: seq<string>)
    ensures ParseMany(strs).Ok? ==> AppendParsed(strs, []).1 == ParseMany(strs).value
  {
    if ParseMany(strs).Ok? {
      var p := ParseMany(strs).value;
      var q := AppendParsed(strs, []).1;
      assert strs[..FirstInvalid(strs)] == strs;
      assert |q| == |p|;
      forall i | 0 <= i < |p| ensures q[i] == p[i] {
        assert FromString(strs[i]).0.token == strs[i];
      }
    }
  }
}
