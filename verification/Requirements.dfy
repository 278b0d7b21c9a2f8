// Choosing which lines an outline shows when some lines are required and characters are scarce.
module Requirements {
  import opened LineNumbers
  import opened Rendering
  import opened Sorting
  import opened Spans
  import opened Text

  /** `_REQUIRED_OUTLINE_OPTIONAL_CANDIDATE_LIMIT` */
  const OPTIONAL_CANDIDATE_LIMIT: nat := 512

  // ----- reference definitions

  /** The members of `s` from lo to hi, ascending. */
  function LinesIn(lo: int, hi: int, s: set<int>): seq<int>
    decreases hi - lo
  {
    if lo > hi then []
    else (if lo in s then [lo] else []) + LinesIn(lo + 1, hi, s)
  }

  /** The required lines that are visible, in the order of their first mention. */
  function Prioritized(required: seq<int>, visible: set<int>): seq<int> {
    if required == [] then []
    else
      var before, line := Prioritized(required[..|required| - 1], visible), required[|required| - 1];
      if line in visible && line !in before then before + [line] else before
  }

  function Take(s: seq<int>, n: nat): seq<int> {
    if |s| <= n then s else s[..n]
  }

  /** Required lines first, then the first other visible lines. */
  function CandidateOrder(source: Source, spans: seq<Span>, required: seq<int>): seq<int> {
    var total := |source.lines|;
    var visible := ShownLines(spans, total);
    var first := Prioritized(required, visible);
    first + Take(LinesIn(1, total, visible - set line | line in first), OPTIONAL_CANDIDATE_LIMIT)
  }

  lemma RunsInFile(total: nat, s: set<int>)
    ensures InFile(RunsOf(1, total, s), total)
  {
    RunsOfShows(1, total, s);
    TilesBounds(RunsOf(1, total, s), 1, total);
  }

  /** Characters charged for showing just the lines of `s`, everything else collapsed. */
  function ChargeOf(source: Source, s: set<int>): nat {
    RunsInFile(|source.lines|, s);
    Charge(Pieces(source, RunsOf(1, |source.lines|, s)))
  }

  /** The greedy choice: each line in turn is kept if the lines kept so far leave room for it. */
  function Kept(source: Source, order: seq<int>, charBudget: int): set<int> {
    if order == [] then {}
    else
      var before, line := Kept(source, order[..|order| - 1], charBudget), order[|order| - 1];
      if ChargeOf(source, before + {line}) > charBudget then before else before + {line}
  }

  function Selected(source: Source, spans: seq<Span>, charBudget: int, required: seq<int>): set<int> {
    Kept(source, CandidateOrder(source, spans, required), charBudget)
  }

  // ----- the loops

  /** `_outline_body_char_count` */
  method OutlineBodyCharCount(source: Source, spans: seq<Span>) returns (charCount: nat)
    requires InFile(spans, |source.lines|)
    ensures charCount == Charge(Pieces(source, spans))
  {
    charCount := 0;
    assert spans[0..] == spans;
    assert Charge(Pieces(source, spans[|spans|..])) == 0;
    hide *;
    for i := 0 to |spans|
      invariant InFile(spans[i..], |source.lines|)
      invariant charCount + Charge(Pieces(source, spans[i..])) == Charge(Pieces(source, spans))
    {
      var span := spans[i];
      ChargeNext(source, spans, i);
      var cost := SpanCharCount(source, span);
      charCount := charCount + cost;
    }
  }

  lemma ChargeNext(source: Source, spans: seq<Span>, i: nat)
    requires i < |spans| && InFile(spans, |source.lines|)
    ensures InFile([spans[i]], |source.lines|) && InFile(spans[i..], |source.lines|) && InFile(spans[i + 1..], |source.lines|)
    ensures Charge(Pieces(source, spans[i..])) ==
      Charge(SpanPieces(source, spans[i])) + Charge(Pieces(source, spans[i + 1..]))
  {
    assert spans[i..][1..] == spans[i + 1..];
    ChargeAppend(SpanPieces(source, spans[i]), Pieces(source, spans[i + 1..]));
  }

  method SpanCharCount(source: Source, span: Span) returns (charCount: nat)
    requires InFile([span], |source.lines|)
    ensures charCount == Charge(SpanPieces(source, span))
  {
    assert [span][0] == span;
    if !span.visible {
      charCount := |SummaryText(span)| + 1;
      return;
    }
    charCount := 0;
    var line := span.start;
    while line <= span.end
      invariant span.start <= line && (line <= span.end ==> 1 <= line && span.end <= |source.lines|)
      invariant charCount + Charge(LinePieces(source, line, span.end)) == Charge(SpanPieces(source, span))
    {
      var formatted := FormatLine(line, source.Width(), source.Marker(line), source.lines[line - 1]);
      charCount := charCount + |formatted| + 1;
      line := line + 1;
    }
  }

  lemma {:induction false} ChargeAppend(a: seq<Piece>, b: seq<Piece>)
    ensures Charge(a + b) == Charge(a) + Charge(b)
  {
    if a == [] {
      assert a + b == b;
    } else {
      assert (a + b)[1..] == a[1..] + b;
      ChargeAppend(a[1..], b);
    }
  }

  /** `spans_for_regions` over single lines. */
  method SpansForLines(total: nat, s: set<int>) returns (spans: seq<Span>)
    requires AllInFile(s, total)
    ensures spans == RunsOf(1, total, s)
  {
    var lines := SortedElements(s);
    var regions: seq<(int, int)> := seq(|lines|, k requires 0 <= k < |lines| => (lines[k], lines[k]));
    WindowOfLines(total, s, lines, regions);
    InRangeMeets(regions, 0, total);
    RunsOfRegions(total, regions, 0);
    spans := SpansForRegions(total, regions, 0);
  }

  lemma WindowOfLines(total: nat, s: set<int>, lines: seq<int>, regions: seq<(int, int)>)
    requires forall line :: line in lines <==> line in s
    requires forall line :: line in s ==> 1 <= line <= total
    requires |regions| == |lines| && forall k :: 0 <= k < |lines| ==> regions[k] == (lines[k], lines[k])
    ensures InRange(regions, total)
    ensures Window(total, regions, 0) == s
  {
    forall k | 0 <= k < |regions| ensures 1 <= regions[k].0 <= regions[k].1 <= total {
      assert lines[k] in lines;
    }
    forall line | line in s ensures line in Window(total, regions, 0) {
      assert line in lines;
      var k :| 0 <= k < |lines| && lines[k] == line;
      assert Widened(regions, 0)[k] == (line, line);
    }
    forall line | line in Window(total, regions, 0) ensures line in s {
      var k :| 0 <= k < |regions| && Widened(regions, 0)[k].0 <= line <= Widened(regions, 0)[k].1;
      assert lines[k] in lines;
    }
  }

  method PrioritizedRequiredLines(required: seq<int>, visible: set<int>) returns (r: seq<int>)
    ensures r == Prioritized(required, visible)
  {
    r := [];
    for i := 0 to |required|
      invariant r == Prioritized(required[..i], visible)
    {
      assert required[..i + 1][..i] == required[..i];
      if required[i] in visible && required[i] !in r {
        r := r + [required[i]];
      }
    }
    assert required[..|required|] == required;
  }

  /** `_spans_that_preserve_required_lines` */
  method SpansThatPreserveRequiredLines(source: Source, spans: seq<Span>, charBudget: int, required: seq<int>)
    returns (r: seq<Span>)
    requires InFile(spans, |source.lines|)
    ensures r == RunsOf(1, |source.lines|, Selected(source, spans, charBudget, required))
  {
    var total := |source.lines|;
    var visible := ShownLines(spans, total);
    var first := PrioritizedRequiredLines(required, visible);
    var others := Take(LinesIn(1, total, visible - set line | line in first), OPTIONAL_CANDIDATE_LIMIT);
    var order := first + others;
    assert order == CandidateOrder(source, spans, required);
    CandidatesInFile(source, spans, required);
    assert forall i :: 0 <= i < |order| ==> order[i] in order;
    r := KeepWhatFits(source, order, charBudget);
  }

  /** The selection loop over the candidates. */
  method KeepWhatFits(source: Source, order: seq<int>, charBudget: int) returns (r: seq<Span>)
    requires forall i :: 0 <= i < |order| ==> 1 <= order[i] <= |source.lines|
    ensures r == RunsOf(1, |source.lines|, Kept(source, order, charBudget))
  {
    var total := |source.lines|;
    var selected: set<int> := {};
    hide *;
    KeptNone(source, order, charBudget);
    for i := 0 to |order|
      invariant selected == Kept(source, order[..i], charBudget)
      invariant AllInFile(selected, total)
    {
      KeptNext(source, order, charBudget, i);
      OneMoreInFile(selected, order[i], total);
      var candidate := selected + {order[i]};
      var candidateSpans := SpansForLines(total, candidate);
      var charCount := OutlineBodyCharCount(source, candidateSpans);
      if charCount > charBudget {
        continue;
      }
      selected := candidate;
    }
    assert order[..|order|] == order;
    r := SpansForLines(total, selected);
  }

  ghost predicate AllInFile(lines: set<int>, total: nat) {
    forall line :: line in lines ==> 1 <= line <= total
  }

  lemma OneMoreInFile(lines: set<int>, line: int, total: nat)
    requires AllInFile(lines, total) && 1 <= line <= total
    ensures AllInFile(lines + {line}, total)
  {
  }

  lemma KeptNone(source: Source, order: seq<int>, charBudget: int)
    ensures Kept(source, order[..0], charBudget) == {} && AllInFile({}, |source.lines|)
  {
  }

  lemma KeptNext(source: Source, order: seq<int>, charBudget: int, i: nat)
    requires i < |order|
    ensures var before := Kept(source, order[..i], charBudget);
      var candidate := before + {order[i]};
      && InFile(RunsOf(1, |source.lines|, candidate), |source.lines|)
      && Kept(source, order[..i + 1], charBudget) ==
        if Charge(Pieces(source, RunsOf(1, |source.lines|, candidate))) > charBudget then before else candidate
  {
    assert order[..i + 1][..i] == order[..i];
    RunsInFile(|source.lines|, Kept(source, order[..i], charBudget) + {order[i]});
  }

  lemma CandidatesInFile(source: Source, spans: seq<Span>, required: seq<int>)
    ensures forall line :: line in CandidateOrder(source, spans, required) ==>
      line in ShownLines(spans, |source.lines|)
  {
    var visible := ShownLines(spans, |source.lines|);
    var first := Prioritized(required, visible);
    PrioritizedAreVisible(required, visible);
    var rest := visible - set line | line in first;
    LinesInElements(1, |source.lines|, rest);
    var others := Take(LinesIn(1, |source.lines|, rest), OPTIONAL_CANDIDATE_LIMIT);
    forall line | line in first + others ensures line in visible {
      if line in others {
        assert line in LinesIn(1, |source.lines|, rest);
      }
    }
  }

  lemma {:induction false} PrioritizedAreVisible(required: seq<int>, visible: set<int>)
    ensures forall line :: line in Prioritized(required, visible) <==> line in required && line in visible
  {
    if required != [] {
      PrioritizedAreVisible(required[..|required| - 1], visible);
      assert required == required[..|required| - 1] + [required[|required| - 1]];
    }
  }

  lemma {:induction false} LinesInElements(lo: int, hi: int, s: set<int>)
    ensures forall line :: line in LinesIn(lo, hi, s) <==> lo <= line <= hi && line in s
    decreases hi - lo
  {
    if lo <= hi {
      LinesInElements(lo + 1, hi, s);
      assert forall line :: line in LinesIn(lo, hi, s) <==> (line == lo && lo in s) || line in LinesIn(lo + 1, hi, s);
    }
  }

  lemma {:induction false} LinesInAscend(lo: int, hi: int, s: set<int>)
    ensures StrictlyIncreasing(LinesIn(lo, hi, s))
    decreases hi - lo
  {
    if lo <= hi {
      LinesInAscend(lo + 1, hi, s);
      var rest := LinesIn(lo + 1, hi, s);
      forall k | 0 <= k < |rest| ensures lo < rest[k] {
        assert rest[k] in rest;
        LinesInElements(lo + 1, hi, s);
      }
    }
  }

  /** `render_outline` */
  method RenderOutline(source: Source, spans: seq<Span>, charBudget: int, required: seq<int>) returns (r: RenderedOutline)
    requires InFile(spans, |source.lines|)
    ensures required == [] ==> r == Rendered(source, spans, charBudget)
    ensures required != [] ==> r == RenderedSelection(source, Selected(source, spans, charBudget, required), charBudget)
  {
    var chosen := spans;
    if required != [] {
      chosen := SpansThatPreserveRequiredLines(source, spans, charBudget, required);
      RunsInFile(|source.lines|, Selected(source, spans, charBudget, required));
    }
    r := RenderSpans(source, chosen, charBudget);
  }

  function RenderedSelection(source: Source, selected: set<int>, charBudget: int): RenderedOutline {
    RunsInFile(|source.lines|, selected);
    Rendered(source, RunsOf(1, |source.lines|, selected), charBudget)
  }

  // ----- what the selection promises

  lemma {:induction false} KeptFits(source: Source, order: seq<int>, charBudget: int)
    ensures Kept(source, order, charBudget) != {} ==> ChargeOf(source, Kept(source, order, charBudget)) <= charBudget
    ensures forall line :: line in Kept(source, order, charBudget) ==> line in order
  {
    if order != [] {
      KeptFits(source, order[..|order| - 1], charBudget);
      assert order == order[..|order| - 1] + [order[|order| - 1]];
    }
  }

  /** Deciding later lines changes nothing about earlier ones. */
  lemma {:induction false} KeptEarlier(source: Source, order: seq<int>, charBudget: int, i: nat)
    requires i <= |order| && Distinct(order)
    ensures Kept(source, order[..i], charBudget) ==
      set line | line in Kept(source, order, charBudget) && line in order[..i]
  {
    if i == |order| {
      assert order[..i] == order;
      KeptFits(source, order, charBudget);
    } else {
      var shorter := order[..|order| - 1];
      assert shorter[..i] == order[..i];
      KeptEarlier(source, shorter, charBudget, i);
      assert order[|order| - 1] !in order[..i];
    }
  }

  /** A line is dropped only if it overflows together with the lines kept before it. */
  lemma {:induction false} DroppedOverflows(source: Source, order: seq<int>, charBudget: int, i: nat)
    requires i < |order| && order[i] !in Kept(source, order, charBudget)
    ensures ChargeOf(source, Kept(source, order[..i], charBudget) + {order[i]}) > charBudget
  {
    if i < |order| - 1 {
      var shorter := order[..|order| - 1];
      assert shorter[..i] == order[..i];
      DroppedOverflows(source, shorter, charBudget, i);
    }
  }

  predicate Distinct(s: seq<int>) {
    forall j, k :: 0 <= j < k < |s| ==> s[j] != s[k]
  }

  lemma {:induction false} PrioritizedDistinct(required: seq<int>, visible: set<int>)
    ensures Distinct(Prioritized(required, visible))
  {
    if required != [] {
      var before := Prioritized(required[..|required| - 1], visible);
      PrioritizedDistinct(required[..|required| - 1], visible);
      assert forall j :: 0 <= j < |before| ==> before[j] in before;
    }
  }

  lemma OrderDistinct(source: Source, spans: seq<Span>, required: seq<int>)
    ensures Distinct(CandidateOrder(source, spans, required))
  {
    var total := |source.lines|;
    var visible := ShownLines(spans, total);
    var first := Prioritized(required, visible);
    var others := LinesIn(1, total, visible - set line | line in first);
    PrioritizedDistinct(required, visible);
    LinesInElements(1, total, visible - set line | line in first);
    LinesInAscend(1, total, visible - set line | line in first);
    var order := CandidateOrder(source, spans, required);
    forall j, k | 0 <= j < k < |order| ensures order[j] != order[k] {
      if k < |first| {
        assert order[j] == first[j] && order[k] == first[k] && first[j] != first[k];
      } else {
        assert order[k] == others[k - |first|] && others[k - |first|] in others;
        if j < |first| {
          assert order[j] == first[j] && first[j] in first;
          assert order[k] !in first;
        } else {
          assert order[j] == others[j - |first|] < others[k - |first|];
        }
      }
    }
  }

  /** A required line the outline would have shown is missing only because it does not fit beside
      the required lines of higher priority that are shown. */
  lemma RequiredDroppedOnlyByOverflow(source: Source, spans: seq<Span>, charBudget: int, required: seq<int>, i: nat)
    requires i < |Prioritized(required, ShownLines(spans, |source.lines|))|
    ensures var first := Prioritized(required, ShownLines(spans, |source.lines|));
      var selected := Selected(source, spans, charBudget, required);
      first[i] in selected ||
      ChargeOf(source, (set line | line in selected && line in first[..i]) + {first[i]}) > charBudget
  {
    var first := Prioritized(required, ShownLines(spans, |source.lines|));
    var order := CandidateOrder(source, spans, required);
    var selected := Selected(source, spans, charBudget, required);
    assert order[..i] == first[..i] && order[i] == first[i];
    if first[i] !in selected {
      OrderDistinct(source, spans, required);
      DroppedOverflows(source, order, charBudget, i);
      KeptEarlier(source, order, charBudget, i);
    }
  }

  // ----- what the rendering of a selection shows

  function Numbered(source: Source, lines: seq<int>): seq<FileLine>
    requires forall k :: 0 <= k < |lines| ==> 1 <= lines[k] <= |source.lines|
  {
    seq(|lines|, k requires 0 <= k < |lines| => FileLine(lines[k], source.lines[lines[k] - 1]))
  }

  lemma {:induction false} VisibleAppend(a: seq<Piece>, b: seq<Piece>)
    ensures VisibleLines(a + b) == VisibleLines(a) + VisibleLines(b)
  {
    if a == [] {
      assert a + b == b;
    } else {
      assert (a + b)[1..] == a[1..] + b;
      VisibleAppend(a[1..], b);
    }
  }

  /** Cutting the lines in two. */
  lemma {:induction false} LinesInSplit(lo: int, mid: int, hi: int, s: set<int>)
    requires lo <= mid + 1 && mid <= hi
    ensures LinesIn(lo, hi, s) == LinesIn(lo, mid, s) + LinesIn(mid + 1, hi, s)
    decreases mid - lo
  {
    if lo <= mid { LinesInSplit(lo + 1, mid, hi, s); }
  }

  lemma {:induction false} RunShows(source: Source, lo: int, hi: int, s: set<int>)
    requires 1 <= lo && hi <= |source.lines| && lo <= hi + 1
    requires forall line :: lo <= line <= hi ==> line in s
    ensures (forall k :: 0 <= k < |LinesIn(lo, hi, s)| ==> lo <= LinesIn(lo, hi, s)[k] <= hi)
    ensures VisibleLines(LinePieces(source, lo, hi)) == Numbered(source, LinesIn(lo, hi, s))
    decreases hi - lo
  {
    if lo <= hi {
      RunShows(source, lo + 1, hi, s);
      FirstOfRun(source, lo, hi);
      assert LinesIn(lo, hi, s) == [lo] + LinesIn(lo + 1, hi, s);
      hide LinePieces, LinesIn;
      NumberedAppend(source, [lo], LinesIn(lo + 1, hi, s));
    }
  }

  lemma FirstOfRun(source: Source, lo: int, hi: int)
    requires 1 <= lo <= hi <= |source.lines|
    ensures VisibleLines(LinePieces(source, lo, hi)) == Numbered(source, [lo]) + VisibleLines(LinePieces(source, lo + 1, hi))
  {
    hide FormatLine;
    assert LinePieces(source, lo, hi)[1..] == LinePieces(source, lo + 1, hi);
  }

  lemma {:induction false} NothingIn(lo: int, hi: int, s: set<int>)
    requires forall line :: lo <= line <= hi ==> line !in s
    ensures LinesIn(lo, hi, s) == []
    decreases hi - lo
  {
    if lo <= hi { NothingIn(lo + 1, hi, s); }
  }

  /** One maximal run of lines in or out of the selection. */
  lemma RunShowsItsLines(source: Source, lo: int, e: int, s: set<int>)
    requires 1 <= lo <= e <= |source.lines|
    requires forall line :: lo <= line <= e ==> (line in s <==> lo in s)
    ensures InFile([Span(lo, e, lo in s)], |source.lines|)
    ensures (forall k :: 0 <= k < |LinesIn(lo, e, s)| ==> lo <= LinesIn(lo, e, s)[k] <= e)
    ensures VisibleLines(SpanPieces(source, Span(lo, e, lo in s))) == Numbered(source, LinesIn(lo, e, s))
  {
    if lo in s {
      RunShows(source, lo, e, s);
    } else {
      NothingIn(lo, e, s);
      var piece := Summary(SummaryText(Span(lo, e, false)), lo, e);
      assert [piece][1..] == [];
    }
  }

  /** The spans show the lines of `s` between lo and hi, in source order. */
  ghost predicate ShowsJust(source: Source, spans: seq<Span>, lo: int, hi: int, s: set<int>) {
    && InFile(spans, |source.lines|)
    && (forall k :: 0 <= k < |LinesIn(lo, hi, s)| ==> 1 <= LinesIn(lo, hi, s)[k] <= |source.lines|)
    && VisibleLines(Pieces(source, spans)) == Numbered(source, LinesIn(lo, hi, s))
  }

  lemma {:induction false} RunsShowSelection(source: Source, lo: int, hi: int, s: set<int>)
    requires 1 <= lo <= hi + 1 && hi <= |source.lines|
    ensures ShowsJust(source, RunsOf(lo, hi, s), lo, hi, s)
    decreases hi - lo
  {
    if lo <= hi {
      var e := RunEnd(lo, hi, s);
      var rest := RunsOf(e + 1, hi, s);
      assert RunsOf(lo, hi, s) == [Span(lo, e, lo in s)] + rest;
      hide *;
      RunsShowSelection(source, e + 1, hi, s);
      RunBeforeRest(source, lo, e, hi, s, rest);
    }
  }

  lemma RunBeforeRest(source: Source, lo: int, e: int, hi: int, s: set<int>, rest: seq<Span>)
    requires 1 <= lo <= e <= hi <= |source.lines|
    requires forall line :: lo <= line <= e ==> (line in s <==> lo in s)
    requires ShowsJust(source, rest, e + 1, hi, s)
    ensures ShowsJust(source, [Span(lo, e, lo in s)] + rest, lo, hi, s)
  {
    RunShowsItsLines(source, lo, e, s);
    LinesInSplit(lo, e, hi, s);
    hide LinesIn, SpanPieces, Pieces, VisibleLines, Numbered, InFile;
    PiecesOfRuns(source, Span(lo, e, lo in s), rest);
    NumberedAppend(source, LinesIn(lo, e, s), LinesIn(e + 1, hi, s));
  }

  lemma PiecesOfRuns(source: Source, span: Span, rest: seq<Span>)
    requires InFile([span], |source.lines|) && InFile(rest, |source.lines|)
    ensures InFile([span] + rest, |source.lines|)
    ensures VisibleLines(Pieces(source, [span] + rest)) ==
      VisibleLines(SpanPieces(source, span)) + VisibleLines(Pieces(source, rest))
  {
    assert [span][0] == span;
    assert ([span] + rest)[1..] == rest;
    VisibleAppend(SpanPieces(source, span), Pieces(source, rest));
  }

  lemma NumberedAppend(source: Source, a: seq<int>, b: seq<int>)
    requires forall k :: 0 <= k < |a| ==> 1 <= a[k] <= |source.lines|
    requires forall k :: 0 <= k < |b| ==> 1 <= b[k] <= |source.lines|
    ensures Numbered(source, a + b) == Numbered(source, a) + Numbered(source, b)
  {
  }

  lemma {:induction false} EverythingFits(pieces: seq<Piece>, charBudget: int)
    requires pieces != [] ==> Charge(pieces) <= charBudget
    ensures FitCount(pieces, charBudget) == |pieces|
  {
    if pieces != [] { EverythingFits(pieces[1..], charBudget - |pieces[0].text| - 1); }
  }

  lemma {:induction false} TextLength(pieces: seq<Piece>, footer: string)
    ensures |Join(Texts(pieces) + [footer], "\n")| == Charge(pieces) + |footer|
  {
    var parts := Texts(pieces) + [footer];
    if pieces != [] {
      TextLength(pieces[1..], footer);
      assert parts[1..] == Texts(pieces[1..]) + [footer];
    }
  }

  /** A rendering that fits shows everything and charges what it costs. */
  lemma FittingSelection(source: Source, s: set<int>, charBudget: int)
    requires ChargeOf(source, s) <= charBudget
    ensures InFile(RunsOf(1, |source.lines|, s), |source.lines|)
    ensures var r := RenderedSelection(source, s, charBudget);
      && r.visibleLines == VisibleLines(Pieces(source, RunsOf(1, |source.lines|, s)))
      && r.text == Join(Texts(Pieces(source, RunsOf(1, |source.lines|, s))) + [Footer(false, |source.lines|)], "\n")
      && |r.text| == ChargeOf(source, s) + |Footer(false, |source.lines|)|
  {
    RunsInFile(|source.lines|, s);
    hide Pieces, RunsOf, Charge, VisibleLines, Texts, Join, FitCount, Footer, CollapsedRanges, InFile;
    var pieces := Pieces(source, RunsOf(1, |source.lines|, s));
    EverythingFits(pieces, charBudget);
    assert pieces[..|pieces|] == pieces;
    TextLength(pieces, Footer(false, |source.lines|));
  }

  /** Whenever any line is selected, the output is not truncated, shows exactly the selected lines
      in source order, and stays within the character budget but for the footer. */
  lemma SelectionIsShown(source: Source, spans: seq<Span>, charBudget: int, required: seq<int>)
    requires Selected(source, spans, charBudget, required) != {}
    ensures InFile(RunsOf(1, |source.lines|, Selected(source, spans, charBudget, required)), |source.lines|)
    ensures var selected := Selected(source, spans, charBudget, required);
      var r := RenderedSelection(source, selected, charBudget);
      r.text == Join(Texts(Pieces(source, RunsOf(1, |source.lines|, selected))) + [Footer(false, |source.lines|)], "\n")
    ensures var selected := Selected(source, spans, charBudget, required);
      var r := RenderedSelection(source, selected, charBudget);
      var lines := LinesIn(1, |source.lines|, selected);
      && (forall k :: 0 <= k < |lines| ==> 1 <= lines[k] <= |source.lines|)
      && r.visibleLines == Numbered(source, lines)
      && selected == (set line | line in lines)
      && |r.text| <= charBudget + |Footer(false, |source.lines|)|
  {
    var total := |source.lines|;
    var selected := Selected(source, spans, charBudget, required);
    KeptFits(source, CandidateOrder(source, spans, required), charBudget);
    SelectedInFile(source, spans, charBudget, required);
    assert ChargeOf(source, selected) <= charBudget;
    hide *;
    FittingSelection(source, selected, charBudget);
    RunsShowSelection(source, 1, total, selected);
    ShownInOrder(source, RunsOf(1, total, selected), total, selected);
  }

  lemma SelectedInFile(source: Source, spans: seq<Span>, charBudget: int, required: seq<int>)
    ensures AllInFile(Selected(source, spans, charBudget, required), |source.lines|)
  {
    KeptFits(source, CandidateOrder(source, spans, required), charBudget);
    CandidatesInFile(source, spans, required);
  }

  lemma ShownInOrder(source: Source, spans: seq<Span>, total: nat, s: set<int>)
    requires ShowsJust(source, spans, 1, total, s) && AllInFile(s, total)
    ensures InFile(spans, |source.lines|)
    ensures var lines := LinesIn(1, total, s);
      && (forall k :: 0 <= k < |lines| ==> 1 <= lines[k] <= |source.lines|)
      && VisibleLines(Pieces(source, spans)) == Numbered(source, lines)
      && s == (set line | line in lines)
  {
    LinesInElements(1, total, s);
    hide LinesIn, Pieces, VisibleLines, Numbered, InFile;
    forall line ensures line in s <==> line in LinesIn(1, total, s) {
    }
  }
}
