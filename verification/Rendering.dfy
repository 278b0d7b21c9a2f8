// Rendering spans as line-numbered text under a character budget.
module Rendering {
  import opened Optional
  import opened Text
  import opened LineNumbers
  import opened Spans

  /** One output line: a source line, or the summary of a collapsed span. */
  datatype Piece =
    | Line(text: string, number: nat, content: string)
    | Summary(text: string, start: int, end: int)

  datatype RenderedOutline = RenderedOutline(
    text: string, visibleLines: seq<FileLine>, collapsedRanges: seq<(int, int)>)

  /** The file, and the optional marker column. */
  datatype Source = Source(lines: seq<string>, markers: Option<map<int, string>>) {
    function Width(): nat { |Decimal(|lines|)| }

    function Marker(number: int): string {
      if markers.None? then ""
      else if number in markers.value then markers.value[number] else " "
    }

    /** Source lines hold no line breaks; markers are one character, no digit, bar or break. */
    ghost predicate Proper() {
      && (forall k :: 0 <= k < |lines| ==> OneLine(lines[k]))
      && (markers.Some? ==> forall k :: k in markers.value ==>
            |markers.value[k]| == 1 && ProperMarker(markers.value[k]) && OneLine(markers.value[k]))
    }
  }

  /** The visible spans lie within the file. */
  predicate InFile(spans: seq<Span>, total: nat) {
    forall i :: 0 <= i < |spans| && spans[i].visible && spans[i].start <= spans[i].end ==>
      1 <= spans[i].start && spans[i].end <= total
  }

  function Signed(n: int): string {
    if n < 0 then "-" + Decimal(-n) else Decimal(n)
  }

  /** `_collapsed_span_summary` */
  function SummaryText(span: Span): string {
    "[lines " + Signed(span.start) + "-" + Signed(span.end) + ", " + Signed(span.Lines())
    + " lines -- use offset/limit to read]"
  }

  function Footer(truncated: bool, total: nat): string {
    (if truncated then "[Outline truncated at character limit. " else "[Outline: ")
    + Decimal(total) + " lines total." + " Use offset/limit to read" + " specific regions.]"
  }

  // ----- reference definition: the output lines of the spans

  function LinePieces(source: Source, first: int, last: int): seq<Piece>
    requires first <= last ==> 1 <= first && last <= |source.lines|
    decreases last - first
  {
    if first > last then []
    else
      var content := source.lines[first - 1];
      [Line(FormatLine(first, source.Width(), source.Marker(first), content), first, content)]
      + LinePieces(source, first + 1, last)
  }

  function SpanPieces(source: Source, span: Span): seq<Piece>
    requires InFile([span], |source.lines|)
  {
    assert [span][0] == span;
    if span.visible then LinePieces(source, span.start, span.end)
    else [Summary(SummaryText(span), span.start, span.end)]
  }

  function Pieces(source: Source, spans: seq<Span>): seq<Piece>
    requires InFile(spans, |source.lines|)
  {
    if spans == [] then [] else SpanPieces(source, spans[0]) + Pieces(source, spans[1..])
  }

  /** Characters charged for the pieces, with one line break each. */
  function Charge(pieces: seq<Piece>): nat {
    if pieces == [] then 0 else |pieces[0].text| + 1 + Charge(pieces[1..])
  }

  /** How many of the pieces fit the budget, taken in order. */
  function FitCount(pieces: seq<Piece>, budget: int): (k: nat)
    ensures k <= |pieces|
  {
    if pieces == [] || |pieces[0].text| + 1 > budget then 0
    else 1 + FitCount(pieces[1..], budget - |pieces[0].text| - 1)
  }

  function Texts(pieces: seq<Piece>): seq<string> {
    if pieces == [] then [] else [pieces[0].text] + Texts(pieces[1..])
  }

  function VisibleLines(pieces: seq<Piece>): seq<FileLine> {
    if pieces == [] then []
    else if pieces[0].Line? then [FileLine(pieces[0].number, pieces[0].content)] + VisibleLines(pieces[1..])
    else VisibleLines(pieces[1..])
  }

  function CollapsedRanges(pieces: seq<Piece>): seq<(int, int)> {
    if pieces == [] then []
    else if pieces[0].Summary? then [(pieces[0].start, pieces[0].end)] + CollapsedRanges(pieces[1..])
    else CollapsedRanges(pieces[1..])
  }

  /** The longest run of leading pieces that fits, then the footer. */
  function Rendered(source: Source, spans: seq<Span>, charBudget: int): RenderedOutline
    requires InFile(spans, |source.lines|)
  {
    var all := Pieces(source, spans);
    var k := FitCount(all, charBudget);
    RenderedOutline(
      Join(Texts(all[..k]) + [Footer(k < |all|, |source.lines|)], "\n"),
      VisibleLines(all[..k]),
      CollapsedRanges(all[..k]))
  }

  // ----- the rendering loops

  /** What the renderer has accumulated so far. */
  datatype Output = Output(
    parts: seq<string>, visibleLines: seq<FileLine>, collapsedRanges: seq<(int, int)>,
    charCount: int, hitCharLimit: bool)
  {
    /** Charges one piece and appends it, or stops at the character limit. */
    function Emit(piece: Piece, charBudget: int): Output {
      var count := charCount + |piece.text| + 1;
      if hitCharLimit then this
      else if count > charBudget then this.(charCount := count, hitCharLimit := true)
      else
        match piece
        case Line(text, number, content) =>
          this.(charCount := count, parts := parts + [text], visibleLines := visibleLines + [FileLine(number, content)])
        case Summary(text, start, end) =>
          this.(charCount := count, parts := parts + [text], collapsedRanges := collapsedRanges + [(start, end)])
    }

    function EmitAll(pieces: seq<Piece>, charBudget: int): Output
      decreases pieces
    {
      if pieces == [] then this else Emit(pieces[0], charBudget).EmitAll(pieces[1..], charBudget)
    }
  }

  lemma {:induction false} EmitAppend(out: Output, a: seq<Piece>, b: seq<Piece>, charBudget: int)
    ensures out.EmitAll(a + b, charBudget) == out.EmitAll(a, charBudget).EmitAll(b, charBudget)
    decreases a
  {
    if a == [] {
      assert a + b == b;
    } else {
      assert (a + b)[1..] == a[1..] + b;
      EmitAppend(out.Emit(a[0], charBudget), a[1..], b, charBudget);
    }
  }

  lemma {:induction false} LimitStays(out: Output, pieces: seq<Piece>, charBudget: int)
    requires out.hitCharLimit
    ensures out.EmitAll(pieces, charBudget) == out
    decreases pieces
  {
    if pieces != [] { LimitStays(out, pieces[1..], charBudget); }
  }

  /** `r` is `out` with these pieces appended, stopped at the limit when `more` pieces are left. */
  ghost predicate Took(out: Output, r: Output, taken: seq<Piece>, more: bool) {
    && r.parts == out.parts + Texts(taken)
    && r.visibleLines == out.visibleLines + VisibleLines(taken)
    && r.collapsedRanges == out.collapsedRanges + CollapsedRanges(taken)
    && (r.hitCharLimit <==> more)
  }

  lemma TookNothing(out: Output)
    requires !out.hitCharLimit
    ensures Took(out, out, [], false)
  {
  }

  lemma TookStop(out: Output, piece: Piece, charBudget: int)
    requires !out.hitCharLimit && out.Emit(piece, charBudget).hitCharLimit
    ensures Took(out, out.Emit(piece, charBudget), [], true)
  {
  }

  lemma TookOne(out: Output, r: Output, piece: Piece, taken: seq<Piece>, more: bool, charBudget: int)
    requires !out.hitCharLimit && !out.Emit(piece, charBudget).hitCharLimit
    requires Took(out.Emit(piece, charBudget), r, taken, more)
    ensures Took(out, r, [piece] + taken, more)
  {
    assert ([piece] + taken)[1..] == taken;
  }

  lemma EmitFirst(out: Output, pieces: seq<Piece>, charBudget: int)
    requires pieces != [] && !out.hitCharLimit
    ensures var next, left := out.Emit(pieces[0], charBudget), charBudget - out.charCount;
      && out.EmitAll(pieces, charBudget) == next.EmitAll(pieces[1..], charBudget)
      && (next.hitCharLimit <==> FitCount(pieces, left) == 0)
      && (!next.hitCharLimit ==> FitCount(pieces, left) == 1 + FitCount(pieces[1..], charBudget - next.charCount))
  {
  }

  /** Emission stops exactly where the budget is used up. */
  lemma {:induction false} EmitsWhatFits(out: Output, pieces: seq<Piece>, charBudget: int)
    requires !out.hitCharLimit
    ensures var k, r := FitCount(pieces, charBudget - out.charCount), out.EmitAll(pieces, charBudget);
      Took(out, r, pieces[..k], k < |pieces|)
    decreases pieces
  {
    if pieces == [] {
      TookNothing(out);
    } else {
      EmitFirst(out, pieces, charBudget);
      hide *;
      var next := out.Emit(pieces[0], charBudget);
      if next.hitCharLimit {
        LimitStays(next, pieces[1..], charBudget);
        TookStop(out, pieces[0], charBudget);
      } else {
        var k := FitCount(pieces, charBudget - out.charCount);
        EmitsWhatFits(next, pieces[1..], charBudget);
        TookOne(out, next.EmitAll(pieces[1..], charBudget), pieces[0], pieces[1..][..k - 1], k < |pieces|, charBudget);
        assert pieces[..k] == [pieces[0]] + pieces[1..][..k - 1];
      }
    }
  }

  lemma StartEmitsWhatFits(pieces: seq<Piece>, charBudget: int)
    ensures var k, r := FitCount(pieces, charBudget), Output([], [], [], 0, false).EmitAll(pieces, charBudget);
      && r.parts == Texts(pieces[..k])
      && r.visibleLines == VisibleLines(pieces[..k])
      && r.collapsedRanges == CollapsedRanges(pieces[..k])
      && (r.hitCharLimit <==> k < |pieces|)
  {
    hide Texts, VisibleLines, CollapsedRanges, FitCount, Output.EmitAll;
    EmitsWhatFits(Output([], [], [], 0, false), pieces, charBudget);
  }

  function LinePiece(source: Source, line: int): Piece
    requires 1 <= line <= |source.lines|
  {
    var content := source.lines[line - 1];
    Line(FormatLine(line, source.Width(), source.Marker(line), content), line, content)
  }

  lemma EmitNextLine(source: Source, out: Output, line: int, last: int, charBudget: int)
    requires 1 <= line <= last <= |source.lines|
    ensures out.EmitAll(LinePieces(source, line, last), charBudget) ==
      out.Emit(LinePiece(source, line), charBudget).EmitAll(LinePieces(source, line + 1, last), charBudget)
  {
    var rest := LinePieces(source, line + 1, last);
    assert LinePieces(source, line, last) == [LinePiece(source, line)] + rest;
    hide LinePieces, LinePiece, Output.Emit;
    assert ([LinePiece(source, line)] + rest)[1..] == rest;
  }

  lemma SpanEmission(source: Source, span: Span, out: Output, charBudget: int)
    requires InFile([span], |source.lines|)
    ensures span.visible && span.start <= span.end ==> 1 <= span.start && span.end <= |source.lines|
    ensures span.visible ==> SpanPieces(source, span) == LinePieces(source, span.start, span.end)
    ensures !span.visible ==>
      (out.EmitAll(SpanPieces(source, span), charBudget) == out.Emit(Summary(SummaryText(span), span.start, span.end), charBudget))
  {
    assert [span][0] == span;
    hide LinePieces, Output.Emit;
  }

  lemma NoMoreLines(source: Source, out: Output, line: int, last: int, charBudget: int)
    requires line > last
    ensures out.EmitAll(LinePieces(source, line, last), charBudget) == out
  {
  }

  /** The emission of one span by `render_outline`. */
  method EmitSpan(source: Source, span: Span, out: Output, charBudget: int) returns (r: Output)
    requires InFile([span], |source.lines|) && !out.hitCharLimit
    ensures r == out.EmitAll(SpanPieces(source, span), charBudget)
  {
    hide *;
    r := out;
    SpanEmission(source, span, out, charBudget);
    if span.visible {
      var line := span.start;
      while line <= span.end && !r.hitCharLimit
        invariant span.start <= line && (line <= span.end ==> 1 <= line && span.end <= |source.lines|)
        invariant r.EmitAll(LinePieces(source, line, span.end), charBudget) == out.EmitAll(SpanPieces(source, span), charBudget)
      {
        EmitNextLine(source, r, line, span.end, charBudget);
        r := r.Emit(LinePiece(source, line), charBudget);
        line := line + 1;
      }
      if r.hitCharLimit {
        LimitStays(r, LinePieces(source, line, span.end), charBudget);
      } else {
        NoMoreLines(source, r, line, span.end, charBudget);
      }
    } else {
      r := r.Emit(Summary(SummaryText(span), span.start, span.end), charBudget);
    }
  }

  lemma NextSpanPieces(source: Source, spans: seq<Span>, i: nat)
    requires i < |spans| && InFile(spans[i..], |source.lines|)
    ensures InFile([spans[i]], |source.lines|) && InFile(spans[i + 1..], |source.lines|)
    ensures Pieces(source, spans[i..]) == SpanPieces(source, spans[i]) + Pieces(source, spans[i + 1..])
  {
    assert spans[i..][1..] == spans[i + 1..];
    hide SpanPieces;
  }

  lemma RenderedIs(source: Source, spans: seq<Span>, charBudget: int)
    requires InFile(spans, |source.lines|)
    ensures var out := Output([], [], [], 0, false).EmitAll(Pieces(source, spans), charBudget);
      Rendered(source, spans, charBudget) == RenderedOutline(
        Join(out.parts + [Footer(out.hitCharLimit, |source.lines|)], "\n"), out.visibleLines, out.collapsedRanges)
  {
    StartEmitsWhatFits(Pieces(source, spans), charBudget);
    hide Pieces, Texts, VisibleLines, CollapsedRanges, FitCount, Join, Footer, Output.EmitAll;
  }

  lemma NothingLeft(source: Source, spans: seq<Span>, out: Output, charBudget: int)
    requires spans == []
    ensures InFile(spans, |source.lines|) && out.EmitAll(Pieces(source, spans), charBudget) == out
  {
  }

  /** The part of `render_outline` after line selection. */
  method RenderSpans(source: Source, spans: seq<Span>, charBudget: int) returns (r: RenderedOutline)
    requires InFile(spans, |source.lines|)
    ensures r == Rendered(source, spans, charBudget)
  {
    hide *;
    var start := Output([], [], [], 0, false);
    var out := start;
    var i := 0;
    assert spans[0..] == spans;
    while i < |spans| && !out.hitCharLimit
      invariant 0 <= i <= |spans| && InFile(spans[i..], |source.lines|)
      invariant out.EmitAll(Pieces(source, spans[i..]), charBudget) == start.EmitAll(Pieces(source, spans), charBudget)
    {
      NextSpanPieces(source, spans, i);
      EmitAppend(out, SpanPieces(source, spans[i]), Pieces(source, spans[i + 1..]), charBudget);
      out := EmitSpan(source, spans[i], out, charBudget);
      i := i + 1;
    }
    if out.hitCharLimit {
      LimitStays(out, Pieces(source, spans[i..]), charBudget);
    } else {
      NothingLeft(source, spans[i..], out, charBudget);
    }
    RenderedIs(source, spans, charBudget);
    r := RenderedOutline(
      Join(out.parts + [Footer(out.hitCharLimit, |source.lines|)], "\n"), out.visibleLines, out.collapsedRanges);
  }

  // ----- parsing the rendering gives back what it shows

  ghost predicate FromSource(source: Source, p: Piece) {
    match p
    case Line(text, number, content) =>
      && 1 <= number <= |source.lines| && content == source.lines[number - 1]
      && text == FormatLine(number, source.Width(), source.Marker(number), content)
    case Summary(text, start, end) =>
      && text != "" && text[0] == '[' && OneLine(text)
  }

  lemma {:induction false} LinePiecesFromSource(source: Source, first: int, last: int)
    requires first <= last ==> 1 <= first && last <= |source.lines|
    ensures forall p :: p in LinePieces(source, first, last) ==> FromSource(source, p)
    decreases last - first
  {
    if first <= last { LinePiecesFromSource(source, first + 1, last); }
  }

  lemma DigitsAreOneLine(n: int)
    ensures OneLine(Signed(n))
  {
    if n < 0 {
      assert OneLine(Decimal(-n));
    } else {
      assert OneLine(Decimal(n));
    }
  }

  lemma SummaryIsOneLine(span: Span)
    ensures OneLine(SummaryText(span)) && SummaryText(span)[0] == '['
  {
    DigitsAreOneLine(span.start);
    DigitsAreOneLine(span.end);
    DigitsAreOneLine(span.Lines());
    assert OneLine("[lines ") && OneLine("-") && OneLine(", ") && OneLine(" lines -- use offset/limit to read]");
    hide Signed, OneLine;
    OneLineConcat("[lines ", Signed(span.start));
    OneLineConcat("[lines " + Signed(span.start), "-");
    OneLineConcat("[lines " + Signed(span.start) + "-", Signed(span.end));
    OneLineConcat("[lines " + Signed(span.start) + "-" + Signed(span.end), ", ");
    OneLineConcat("[lines " + Signed(span.start) + "-" + Signed(span.end) + ", ", Signed(span.Lines()));
    OneLineConcat("[lines " + Signed(span.start) + "-" + Signed(span.end) + ", " + Signed(span.Lines()),
                  " lines -- use offset/limit to read]");
  }

  lemma OneLineConcat(a: string, b: string)
    requires OneLine(a) && OneLine(b)
    ensures OneLine(a + b)
  {
  }

  lemma FooterHeadsAreOneLine()
    ensures OneLine("[Outline truncated at character limit. ") && OneLine("[Outline: ")
  {
  }

  lemma FooterTailsAreOneLine()
    ensures OneLine(" lines total.") && OneLine(" Use offset/limit to read") && OneLine(" specific regions.]")
  {
  }

  lemma FooterIsOneLine(truncated: bool, total: nat)
    ensures OneLine(Footer(truncated, total)) && Footer(truncated, total)[0] == '['
  {
    FooterHeadsAreOneLine();
    FooterTailsAreOneLine();
    DigitsAreOneLine(total);
    var head := if truncated then "[Outline truncated at character limit. " else "[Outline: ";
    var a, b, c := " lines total.", " Use offset/limit to read", " specific regions.]";
    hide OneLine, Signed;
    OneLineConcat(head, Signed(total));
    OneLineConcat(head + Signed(total), a);
    OneLineConcat(head + Signed(total) + a, b);
    OneLineConcat(head + Signed(total) + a + b, c);
    SignedNat(total);
  }

  lemma SignedNat(n: nat)
    ensures Signed(n) == Decimal(n)
  {
  }

  lemma {:induction false} PiecesFromSource(source: Source, spans: seq<Span>)
    requires InFile(spans, |source.lines|)
    ensures forall p :: p in Pieces(source, spans) ==> FromSource(source, p)
  {
    if spans != [] {
      PiecesFromSource(source, spans[1..]);
      assert [spans[0]][0] == spans[0];
      if spans[0].visible {
        LinePiecesFromSource(source, spans[0].start, spans[0].end);
      } else {
        SummaryIsOneLine(spans[0]);
      }
    }
  }

  /** A printed piece is one line, and parses to itself if it is a source line and to nothing if not. */
  lemma PieceParses(source: Source, p: Piece)
    requires source.Proper() && FromSource(source, p)
    ensures OneLine(p.text)
    ensures ParseLine(p.text) == if p.Line? then Some(FileLine(p.number, p.content)) else None
  {
    if p.Line? {
      var marker := source.Marker(p.number);
      assert ProperMarker(marker) && OneLine(marker);
      ParseFormatted(p.number, source.Width(), marker, p.content);
      FormattedIsOneLine(p.number, source.Width(), marker, p.content);
    } else {
      BracketsNeverParse(p.text);
    }
  }

  lemma {:induction false} PiecesParse(source: Source, pieces: seq<Piece>, footer: string)
    requires source.Proper() && forall p :: p in pieces ==> FromSource(source, p)
    requires OneLine(footer) && footer != "" && footer[0] == '['
    ensures ParseLines(Texts(pieces) + [footer]) == Some(VisibleLines(pieces))
    ensures forall t :: t in Texts(pieces) + [footer] ==> OneLine(t)
  {
    var lines := Texts(pieces) + [footer];
    if pieces == [] {
      BracketsNeverParse(footer);
      assert lines == [footer] && lines[1..] == [];
    } else {
      assert pieces[0] in pieces;
      PieceParses(source, pieces[0]);
      PiecesParse(source, pieces[1..], footer);
      assert lines[0] == pieces[0].text && lines[1..] == Texts(pieces[1..]) + [footer];
      assert lines == [lines[0]] + lines[1..];
    }
  }

  /** The round trip: parsing the rendered text gives back exactly the lines it shows. */
  lemma RenderedParsesBack(source: Source, spans: seq<Span>, charBudget: int)
    requires source.Proper() && InFile(spans, |source.lines|)
    ensures ParseContent(Rendered(source, spans, charBudget).text)
         == Some(Rendered(source, spans, charBudget).visibleLines)
  {
    var all := Pieces(source, spans);
    var k := FitCount(all, charBudget);
    var footer := Footer(k < |all|, |source.lines|);
    PiecesFromSource(source, spans);
    FooterIsOneLine(k < |all|, |source.lines|);
    PiecesParse(source, all[..k], footer);
    var lines := Texts(all[..k]) + [footer];
    forall i | 0 <= i < |lines| ensures OneLine(lines[i]) {
      assert lines[i] in lines;
    }
    SplitLinesJoin(lines);
  }

  // ----- what a summary says

  function FirstNumber(s: string): nat {
    DecimalValue(s[..DigitCount(s)])
  }

  function AfterNumber(s: string, skip: nat): string {
    if |s| < DigitCount(s) + skip then "" else s[DigitCount(s) + skip..]
  }

  /** The three numbers of a summary, as a reader finds them: after the first word, after the dash, and after the
      comma. */
  function NumbersOf(summary: string): (nat, nat, nat) {
    var first := if |summary| < 7 then "" else summary[7..];
    var last := AfterNumber(first, 1);
    (FirstNumber(first), FirstNumber(last), FirstNumber(AfterNumber(last, 2)))
  }

  lemma {:induction false} DigitsCounted(digits: string, rest: string)
    requires AllDigits(digits) && rest != "" && !IsDigit(rest[0])
    ensures DigitCount(digits + rest) == |digits|
  {
    if digits == "" {
      assert digits + rest == rest;
    } else {
      assert (digits + rest)[1..] == digits[1..] + rest;
      DigitsCounted(digits[1..], rest);
    }
  }

  lemma NumberRead(n: nat, rest: string, skip: nat)
    requires rest != "" && !IsDigit(rest[0]) && skip <= |rest|
    ensures FirstNumber(Decimal(n) + rest) == n && AfterNumber(Decimal(n) + rest, skip) == rest[skip..]
  {
    DigitsCounted(Decimal(n), rest);
    DecimalRoundTrip(n);
    assert (Decimal(n) + rest)[..|Decimal(n)|] == Decimal(n);
  }

  /** The summary of a collapsed span names exactly its first line, its last line and how many lines it hides. */
  lemma SummaryNames(span: Span)
    requires 1 <= span.start <= span.end
    ensures NumbersOf(SummaryText(span)) == (span.start, span.end, span.end - span.start + 1)
  {
    hide Decimal, DecimalValue, DigitCount, FirstNumber, AfterNumber, Signed, NumbersOf;
    var close := " lines -- use offset/limit to read]";
    var third := Decimal(span.Lines()) + close;
    var second := Decimal(span.end) + (", " + third);
    var first := Decimal(span.start) + ("-" + second);
    SignedNat(span.start);
    SignedNat(span.end);
    SignedNat(span.Lines());
    assert SummaryText(span) == "[lines " + first;
    assert ("[lines " + first)[7..] == first;
    NumberRead(span.start, "-" + second, 1);
    assert ("-" + second)[1..] == second;
    NumberRead(span.end, ", " + third, 2);
    assert (", " + third)[2..] == third;
    NumberRead(span.Lines(), close, 0);
    ReadInTurn(SummaryText(span), first, second, third);
  }

  lemma ReadInTurn(summary: string, first: string, second: string, third: string)
    requires |summary| >= 7 && summary[7..] == first && AfterNumber(first, 1) == second && AfterNumber(second, 2) == third
    ensures NumbersOf(summary) == (FirstNumber(first), FirstNumber(second), FirstNumber(third))
  {
    hide FirstNumber, AfterNumber;
  }

  /** The footer says how many lines the file has, and whether the output was cut. */
  lemma FooterNames(truncated: bool, total: nat)
    ensures var footer, start := Footer(truncated, total), (if truncated then 39 else 10);
      && ("[Outline truncated" <= footer <==> truncated)
      && |footer| > start && FirstNumber(footer[start..]) == total
  {
    hide Decimal, DecimalValue, DigitCount, FirstNumber, AfterNumber;
    var tail := " lines total." + " Use offset/limit to read" + " specific regions.]";
    var head := if truncated then "[Outline truncated at character limit. " else "[Outline: ";
    assert Footer(truncated, total) == head + (Decimal(total) + tail);
    assert (head + (Decimal(total) + tail))[|head|..] == Decimal(total) + tail;
    assert !truncated ==> head[8] == ':';
    NumberRead(total, tail, 0);
  }
}
