// The provenance line of an edit result: printed, parsed back, and computed from a diff.
module EditProvenance {
  import opened Optional
  import opened Text

  const PREFIX: string := "[Edit result provenance: changed lines "
  const SEPARATOR: string := "; deletion anchors "
  const SUFFIX: string := "]"

  /** 1-based, inclusive. */
  datatype LineRange = LineRange(start: int, end: int) {
    predicate Valid() { 1 <= start <= end }
  }

  datatype Provenance = Provenance(ranges: seq<LineRange>, anchors: seq<int>) {
    /** What the constructors accept. */
    predicate Valid() {
      && (forall i :: 0 <= i < |ranges| ==> ranges[i].Valid())
      && (forall i, j :: 0 <= i < j < |ranges| ==> ranges[i].end < ranges[j].start)
      && (forall i :: 0 <= i < |anchors| ==> 1 <= anchors[i])
      && (forall i, j :: 0 <= i < j < |anchors| ==> anchors[i] < anchors[j])
    }
  }

  // ----- printing

  function RangeToken(r: LineRange): string
    requires r.Valid()
  {
    if r.start == r.end then Decimal(r.start) else Decimal(r.start) + "-" + Decimal(r.end)
  }

  function RangeTokens(ranges: seq<LineRange>): (r: seq<string>)
    requires forall i :: 0 <= i < |ranges| ==> ranges[i].Valid()
    ensures |r| == |ranges| && forall i :: 0 <= i < |r| ==> r[i] == RangeToken(ranges[i])
  {
    seq(|ranges|, i requires 0 <= i < |ranges| => RangeToken(ranges[i]))
  }

  function AnchorTokens(anchors: seq<int>): (r: seq<string>)
    requires forall i :: 0 <= i < |anchors| ==> 1 <= anchors[i]
    ensures |r| == |anchors| && forall i :: 0 <= i < |r| ==> r[i] == Decimal(anchors[i])
  {
    seq(|anchors|, i requires 0 <= i < |anchors| => Decimal(anchors[i]))
  }

  function OrNone(tokens: seq<string>): string {
    var s := Join(tokens, ", ");
    if s == "" then "none" else s
  }

  /** `render_result_line` */
  function RenderLine(p: Provenance): string
    requires p.Valid()
  {
    PREFIX + (OrNone(RangeTokens(p.ranges)) + SEPARATOR + OrNone(AnchorTokens(p.anchors))) + SUFFIX
  }

  // ----- parsing

  predicate StartsWith(s: string, prefix: string) {
    |prefix| <= |s| && s[..|prefix|] == prefix
  }

  /** A numeral without a leading zero. */
  predicate Positive(s: string) {
    s != "" && AllDigits(s) && s[0] != '0'
  }

  function FirstDash(s: string): (i: nat)
    ensures i <= |s|
    ensures i < |s| ==> s[i] == '-'
    ensures forall j :: 0 <= j < i ==> s[j] != '-'
  {
    if s == "" || s[0] == '-' then 0 else 1 + FirstDash(s[1..])
  }

  /** One range token, matched whole. */
  function ParseRange(token: string): (r: Option<LineRange>)
    ensures r.Some? ==> r.value.Valid()
  {
    var i := FirstDash(token);
    if i == |token| then
      if Positive(token) && DecimalValue(token) >= 1 then Some(LineRange(DecimalValue(token), DecimalValue(token))) else None
    else if Positive(token[..i]) && Positive(token[i + 1..]) then
      var r := LineRange(DecimalValue(token[..i]), DecimalValue(token[i + 1..]));
      if r.Valid() then Some(r) else None
    else None
  }

  function ParseRanges(tokens: seq<string>): (r: Option<seq<LineRange>>)
    ensures r.Some? ==> |r.value| == |tokens|
  {
    if tokens == [] then Some([])
    else
      var before := ParseRanges(tokens[..|tokens| - 1]);
      var last := ParseRange(tokens[|tokens| - 1]);
      if before.None? || last.None? then None else Some(before.value + [last.value])
  }

  predicate IsDecimal(token: string) {
    token != "" && AllDigits(token)
  }

  function ParseAnchors(tokens: seq<string>): Option<seq<int>> {
    if forall i :: 0 <= i < |tokens| ==> IsDecimal(tokens[i])
    then Some(seq(|tokens|, i requires 0 <= i < |tokens| => DecimalValue(tokens[i])))
    else None
  }

  /** One provenance line. */
  function ParseLine(line: string): (r: Option<Provenance>)
    requires StartsWith(line, PREFIX)
    ensures r.Some? ==> r.value.Valid()
  {
    if line[|line| - 1] != ']' then None
    else
      var parts := Split(line[|PREFIX|..|line| - 1], SEPARATOR);
      if |parts| != 2 then None
      else
        var ranges := if parts[0] == "none" then Some([]) else ParseRanges(Split(parts[0], ", "));
        var anchors := if parts[1] == "none" then Some([]) else ParseAnchors(Split(parts[1], ", "));
        if ranges.None? || anchors.None? then None
        else
          var p := Provenance(ranges.value, anchors.value);
          if p.Valid() then Some(p) else None
  }

  function ProvenanceLines(lines: seq<string>): (r: seq<string>)
    ensures forall k :: 0 <= k < |r| ==> StartsWith(r[k], PREFIX)
  {
    if lines == [] then []
    else (if StartsWith(lines[0], PREFIX) then [lines[0]] else []) + ProvenanceLines(lines[1..])
  }

  /** The provenance a tool result records: nothing unless it has exactly one provenance line, well formed. */
  function Recorded(content: string): (r: Option<Provenance>)
    ensures r.Some? ==> r.value.Valid()
  {
    var lines := ProvenanceLines(SplitLines(content));
    if |lines| == 1 then ParseLine(lines[0]) else None
  }

  /** `from_tool_result` */
  method FromToolResult(content: string) returns (r: Option<Provenance>)
    ensures r == Recorded(content)
  {
    hide Split, SplitLines, ProvenanceLines, ParseRange, DecimalValue, Provenance.Valid;
    var lines := ProvenanceLines(SplitLines(content));
    if |lines| != 1 {
      return None;
    }
    var line := lines[0];
    if line[|line| - 1] != ']' {
      return None;
    }
    var parts := Split(line[|PREFIX|..|line| - 1], SEPARATOR);
    if |parts| != 2 {
      return None;
    }
    var ranges: seq<LineRange> := [];
    if parts[0] != "none" {
      var tokens := Split(parts[0], ", ");
      for i := 0 to |tokens|
        invariant ParseRanges(tokens[..i]) == Some(ranges)
      {
        assert tokens[..i + 1][..i] == tokens[..i];
        var parsed := ParseRange(tokens[i]);
        if parsed.None? {
          BadTokenFails(tokens, i);
          return None;
        }
        ranges := ranges + [parsed.value];
      }
      assert tokens[..|tokens|] == tokens;
    }
    var anchors: seq<int> := [];
    if parts[1] != "none" {
      var tokens := Split(parts[1], ", ");
      if exists i :: 0 <= i < |tokens| && !IsDecimal(tokens[i]) {
        return None;
      }
      anchors := seq(|tokens|, i requires 0 <= i < |tokens| => DecimalValue(tokens[i]));
    }
    var p := Provenance(ranges, anchors);
    if !p.Valid() {
      return None;
    }
    r := Some(p);
  }

  lemma {:induction false} BadTokenFails(tokens: seq<string>, i: nat)
    requires i < |tokens| && ParseRange(tokens[i]).None?
    ensures ParseRanges(tokens).None?
    decreases |tokens|
  {
    if i < |tokens| - 1 {
      BadTokenFails(tokens[..|tokens| - 1], i);
    }
  }

  // ----- the round trip

  lemma DigitsLack(s: string, c: char)
    requires AllDigits(s) && !IsDigit(c)
    ensures Lacks(s, c)
  {
  }

  lemma FirstDashAfter(head: string, rest: string)
    requires Lacks(head, '-')
    ensures FirstDash(head + "-" + rest) == |head|
    ensures FirstDash(head) == |head|
  {
    var s := head + "-" + rest;
    assert s[|head|] == '-';
    assert forall j :: 0 <= j < |head| ==> s[j] == head[j];
  }

  lemma DecimalFacts(n: nat)
    requires n >= 1
    ensures Positive(Decimal(n)) && DecimalValue(Decimal(n)) == n && Lacks(Decimal(n), '-') && PlainToken(Decimal(n))
  {
    DecimalRoundTrip(n);
    DigitsLack(Decimal(n), ',');
  }

  /** Tokens start with digits and hold no comma, semicolon or line break. */
  ghost predicate PlainToken(s: string) {
    s != "" && IsDigit(s[0]) && Lacks(s, ',') && Lacks(s, ';') && OneLine(s)
  }

  lemma DashedPlain(a: string, b: string)
    requires PlainToken(a) && PlainToken(b)
    ensures PlainToken(a + "-" + b)
  {
  }

  lemma DashedParts(a: string, b: string)
    requires Lacks(a, '-')
    ensures var token := a + "-" + b;
      FirstDash(token) == |a| < |token| && token[..|a|] == a && token[|a| + 1..] == b
  {
    FirstDashAfter(a, b);
  }

  lemma RangeRoundTrip(r: LineRange)
    requires r.Valid()
    ensures ParseRange(RangeToken(r)) == Some(r)
    ensures PlainToken(RangeToken(r))
  {
    var a, b := Decimal(r.start), Decimal(r.end);
    DecimalFacts(r.start);
    DecimalFacts(r.end);
    FirstDashAfter(a, b);
    DashedParts(a, b);
    DashedPlain(a, b);
    hide Decimal, DecimalValue, Positive, PlainToken, FirstDash, Lacks;
  }

  lemma ParseOneMore(tokens: seq<string>, ranges: seq<LineRange>, token: string, r: LineRange)
    requires ParseRanges(tokens) == Some(ranges) && ParseRange(token) == Some(r)
    ensures ParseRanges(tokens + [token]) == Some(ranges + [r])
  {
    assert (tokens + [token])[..|tokens|] == tokens;
  }

  lemma {:induction false} RangesRoundTrip(ranges: seq<LineRange>)
    requires forall i :: 0 <= i < |ranges| ==> ranges[i].Valid()
    ensures ParseRanges(RangeTokens(ranges)) == Some(ranges)
  {
    hide *;
    if ranges == [] {
      NoTokens(ranges);
    } else {
      var n := |ranges| - 1;
      RangesRoundTrip(ranges[..n]);
      RangeRoundTrip(ranges[n]);
      LastToken(ranges);
      ParseOneMore(RangeTokens(ranges[..n]), ranges[..n], RangeToken(ranges[n]), ranges[n]);
      assert ranges[..n] + [ranges[n]] == ranges;
    }
  }

  lemma NoTokens(ranges: seq<LineRange>)
    requires ranges == []
    ensures ParseRanges(RangeTokens(ranges)) == Some(ranges)
  {
  }

  lemma LastToken(ranges: seq<LineRange>)
    requires ranges != [] && forall i :: 0 <= i < |ranges| ==> ranges[i].Valid()
    ensures var n := |ranges| - 1;
      RangeTokens(ranges) == RangeTokens(ranges[..n]) + [RangeToken(ranges[n])]
  {
    hide RangeToken, LineRange.Valid;
  }

  lemma AnchorsRoundTrip(anchors: seq<int>)
    requires forall i :: 0 <= i < |anchors| ==> 1 <= anchors[i]
    ensures ParseAnchors(AnchorTokens(anchors)) == Some(anchors)
  {
    var tokens := AnchorTokens(anchors);
    forall i | 0 <= i < |anchors| ensures IsDecimal(tokens[i]) && DecimalValue(tokens[i]) == anchors[i] {
      DecimalFacts(anchors[i]);
    }
    assert ParseAnchors(tokens).value == anchors;
  }

  ghost predicate Plain(tokens: seq<string>) {
    forall i :: 0 <= i < |tokens| ==> PlainToken(tokens[i])
  }

  lemma {:induction false} JoinPlain(tokens: seq<string>)
    requires Plain(tokens)
    ensures Lacks(Join(tokens, ", "), ';') && OneLine(Join(tokens, ", "))
    ensures tokens != [] ==> Join(tokens, ", ") != "" && IsDigit(Join(tokens, ", ")[0])
  {
    if |tokens| > 1 {
      JoinPlain(tokens[1..]);
    }
  }

  lemma OrNoneSplits(tokens: seq<string>)
    requires Plain(tokens)
    ensures Lacks(OrNone(tokens), ';') && OneLine(OrNone(tokens))
    ensures OrNone(tokens) == "none" <==> tokens == []
    ensures tokens != [] ==> Split(OrNone(tokens), ", ") == tokens
  {
    JoinPlain(tokens);
    if tokens != [] {
      assert forall k :: 0 <= k < |tokens| ==> PlainToken(tokens[k]);
      SplitJoin(tokens, ", ");
      assert "none"[0] == 'n';
    }
  }

  lemma TokensPlain(p: Provenance)
    requires p.Valid()
    ensures Plain(RangeTokens(p.ranges)) && Plain(AnchorTokens(p.anchors))
  {
    forall i | 0 <= i < |p.ranges| ensures PlainToken(RangeTokens(p.ranges)[i]) {
      RangeRoundTrip(p.ranges[i]);
    }
    forall i | 0 <= i < |p.anchors| ensures PlainToken(AnchorTokens(p.anchors)[i]) {
      DecimalFacts(p.anchors[i]);
    }
  }

  lemma BodySplits(a: string, b: string)
    requires Lacks(a, ';') && Lacks(b, ';')
    ensures Split(a + SEPARATOR + b, SEPARATOR) == [a, b]
  {
    SplitJoin([a, b], SEPARATOR);
    assert Join([b], SEPARATOR) == b && [a, b][1..] == [b];
    assert Join([a, b], SEPARATOR) == a + SEPARATOR + b;
  }

  lemma PartsParse(line: string, a: string, b: string, p: Provenance)
    requires StartsWith(line, PREFIX) && |line| > |PREFIX| && line[|line| - 1] == ']' && p.Valid()
    requires Split(line[|PREFIX|..|line| - 1], SEPARATOR) == [a, b]
    requires if a == "none" then p.ranges == [] else ParseRanges(Split(a, ", ")) == Some(p.ranges)
    requires if b == "none" then p.anchors == [] else ParseAnchors(Split(b, ", ")) == Some(p.anchors)
    ensures ParseLine(line) == Some(p)
  {
    hide Split, ParseRanges, ParseAnchors, Provenance.Valid;
  }

  /** A rendered line is one line, and parses back to the provenance it was rendered from. */
  lemma LineRoundTrip(p: Provenance)
    requires p.Valid()
    ensures OneLine(RenderLine(p)) && StartsWith(RenderLine(p), PREFIX)
    ensures ParseLine(RenderLine(p)) == Some(p)
  {
    ValidParts(p);
    var rs, anchors := RangeTokens(p.ranges), AnchorTokens(p.anchors);
    var a, b := OrNone(rs), OrNone(anchors);
    var line := PREFIX + (a + SEPARATOR + b) + SUFFIX;
    assert RenderLine(p) == line;
    hide *;
    TokensPlain(p);
    OrNoneSplits(rs);
    OrNoneSplits(anchors);
    BodySplits(a, b);
    RangesRoundTrip(p.ranges);
    AnchorsRoundTrip(p.anchors);
    LineParts(a + SEPARATOR + b);
    LineIsOneLine(a, b);
    PartsParse(line, a, b, p);
  }

  lemma ValidParts(p: Provenance)
    requires p.Valid()
    ensures forall i :: 0 <= i < |p.ranges| ==> p.ranges[i].Valid()
    ensures forall i :: 0 <= i < |p.anchors| ==> 1 <= p.anchors[i]
  {
  }

  lemma LineIsOneLine(a: string, b: string)
    requires OneLine(a) && OneLine(b)
    ensures OneLine(PREFIX + (a + SEPARATOR + b) + SUFFIX)
  {
    PartsAreOneLine();
    hide *;
    OneLineAppend(a, SEPARATOR);
    OneLineAppend(a + SEPARATOR, b);
    OneLineAppend(PREFIX, a + SEPARATOR + b);
    OneLineAppend(PREFIX + (a + SEPARATOR + b), SUFFIX);
  }

  lemma PartsAreOneLine()
    ensures OneLine(PREFIX) && OneLine(SEPARATOR) && OneLine(SUFFIX)
  {
  }

  lemma OneLineAppend(a: string, b: string)
    requires OneLine(a) && OneLine(b)
    ensures OneLine(a + b)
  {
  }

  lemma LineParts(body: string)
    ensures var line := PREFIX + body + SUFFIX;
      StartsWith(line, PREFIX) && |line| > |PREFIX| && line[|line| - 1] == ']' && line[|PREFIX|..|line| - 1] == body
  {
    var line := PREFIX + body + SUFFIX;
    assert line[..|PREFIX|] == PREFIX;
    assert line[|PREFIX|..|line| - 1] == body;
  }

  lemma {:induction false} OnlyProvenanceLine(lines: seq<string>, k: nat)
    requires k < |lines| && StartsWith(lines[k], PREFIX)
    requires forall j :: 0 <= j < |lines| && j != k ==> !StartsWith(lines[j], PREFIX)
    ensures ProvenanceLines(lines) == [lines[k]]
  {
    if k > 0 {
      OnlyProvenanceLine(lines[1..], k - 1);
    } else {
      NoProvenanceLine(lines[1..]);
    }
  }

  lemma {:induction false} NoProvenanceLine(lines: seq<string>)
    requires forall j :: 0 <= j < |lines| ==> !StartsWith(lines[j], PREFIX)
    ensures ProvenanceLines(lines) == []
  {
    if lines != [] {
      NoProvenanceLine(lines[1..]);
    }
  }

  /** Any result that holds the rendered line among lines without the prefix gives the provenance back. */
  lemma RecordedInResult(content: string, p: Provenance, k: nat)
    requires p.Valid()
    requires k < |SplitLines(content)| && SplitLines(content)[k] == RenderLine(p)
    requires forall j :: 0 <= j < |SplitLines(content)| && j != k ==> !StartsWith(SplitLines(content)[j], PREFIX)
    ensures Recorded(content) == Some(p)
  {
    LineRoundTrip(p);
    OnlyProvenanceLine(SplitLines(content), k);
  }

  /** In particular the line between any other text lines. */
  lemma RecordedBetween(before: seq<string>, p: Provenance, after: seq<string>)
    requires p.Valid()
    requires forall k :: 0 <= k < |before| ==> OneLine(before[k]) && !StartsWith(before[k], PREFIX)
    requires forall k :: 0 <= k < |after| ==> OneLine(after[k]) && !StartsWith(after[k], PREFIX)
    requires after != [] ==> after[|after| - 1] != ""
    ensures Recorded(Join(before + [RenderLine(p)] + after, "\n")) == Some(p)
  {
    var line := RenderLine(p);
    var lines := before + [line] + after;
    LineRoundTrip(p);
    RenderLineNonempty(p);
    hide *;
    LinesBetween(before, line, after);
    SplitLinesJoin(lines);
    RecordedInResult(Join(lines, "\n"), p, |before|);
  }

  lemma LinesBetween(before: seq<string>, line: string, after: seq<string>)
    requires OneLine(line) && line != "" && (after != [] ==> after[|after| - 1] != "")
    requires forall k :: 0 <= k < |before| ==> OneLine(before[k]) && !StartsWith(before[k], PREFIX)
    requires forall k :: 0 <= k < |after| ==> OneLine(after[k]) && !StartsWith(after[k], PREFIX)
    ensures var lines := before + [line] + after;
      && lines[|lines| - 1] != "" && lines[|before|] == line
      && (forall k :: 0 <= k < |lines| ==> OneLine(lines[k]))
      && (forall k :: 0 <= k < |lines| && k != |before| ==> !StartsWith(lines[k], PREFIX))
  {
    hide OneLine, StartsWith;
  }

  lemma RenderLineNonempty(p: Provenance)
    requires p.Valid()
    ensures RenderLine(p) != ""
  {
  }
}
