// Output spans of an outline: a file's lines cut into visible and collapsed stretches.
module Spans {
  import opened Integers
  import opened Sorting

  /** A contiguous range of 1-based file lines, shown verbatim or as one summary line. */
  datatype Span = Span(start: int, end: int, visible: bool) {
    function Lines(): int { end - start + 1 }

    /** Lines this span contributes to the formatted output. */
    function Cost(): int { if visible then Lines() else 1 }

    /** A one-line collapse would cost as much as the line itself. */
    function Suppressed(): Span {
      if !visible && Lines() <= 1 then Span(start, end, true) else this
    }

    predicate Holds(line: int) { start <= line <= end }
  }

  function TotalCost(spans: seq<Span>): int {
    if spans == [] then 0 else spans[0].Cost() + TotalCost(spans[1..])
  }

  /** The spans are nonempty and cut lo..hi into consecutive pieces, in order. */
  predicate Tiles(spans: seq<Span>, lo: int, hi: int) {
    if spans == [] then lo == hi + 1
    else spans[0].start == lo && lo <= spans[0].end <= hi && Tiles(spans[1..], spans[0].end + 1, hi)
  }

  predicate Shows(spans: seq<Span>, line: int) {
    spans != [] && ((spans[0].visible && spans[0].Holds(line)) || Shows(spans[1..], line))
  }

  /** The lines of the file that the spans show. */
  function ShownLines(spans: seq<Span>, total: nat): set<int> {
    set line | 1 <= line <= total && Shows(spans, line)
  }

  /** No collapsed span hides just one line. */
  predicate NoTrivialCollapse(spans: seq<Span>) {
    forall i :: 0 <= i < |spans| && !spans[i].visible ==> spans[i].Lines() >= 2
  }

  predicate NoAdjacentVisible(spans: seq<Span>) {
    forall i :: 0 <= i < |spans| - 1 ==> !(spans[i].visible && spans[i + 1].visible)
  }

  predicate Alternating(spans: seq<Span>) {
    forall i :: 0 <= i < |spans| - 1 ==> spans[i].visible != spans[i + 1].visible
  }

  // ----- appending

  lemma {:induction false} TilesAppend(a: seq<Span>, b: seq<Span>, lo: int, mid: int, hi: int)
    requires Tiles(a, lo, mid) && Tiles(b, mid + 1, hi) && mid <= hi
    ensures Tiles(a + b, lo, hi)
  {
    if a == [] {
      assert a + b == b;
    } else {
      TilesAppend(a[1..], b, a[0].end + 1, mid, hi);
      assert (a + b)[1..] == a[1..] + b;
    }
  }

  lemma {:induction false} TilesSplit(a: seq<Span>, b: seq<Span>, lo: int, hi: int) returns (mid: int)
    requires Tiles(a + b, lo, hi)
    ensures Tiles(a, lo, mid) && Tiles(b, mid + 1, hi)
    ensures lo - 1 <= mid
    ensures b != [] ==> mid + 1 == b[0].start
    ensures b == [] ==> mid == hi
    ensures a != [] ==> mid == a[|a| - 1].end
  {
    if a == [] {
      assert a + b == b;
      mid := lo - 1;
    } else {
      assert (a + b)[1..] == a[1..] + b;
      mid := TilesSplit(a[1..], b, a[0].end + 1, hi);
    }
  }

  lemma {:induction false} ShowsAppend(a: seq<Span>, b: seq<Span>)
    ensures forall line :: Shows(a + b, line) <==> Shows(a, line) || Shows(b, line)
  {
    if a == [] {
      assert a + b == b;
    } else {
      ShowsAppend(a[1..], b);
      assert (a + b)[1..] == a[1..] + b;
    }
  }

  lemma {:induction false} CostAppend(a: seq<Span>, b: seq<Span>)
    ensures TotalCost(a + b) == TotalCost(a) + TotalCost(b)
  {
    if a == [] {
      assert a + b == b;
    } else {
      CostAppend(a[1..], b);
      assert (a + b)[1..] == a[1..] + b;
    }
  }

  lemma One(s: Span)
    ensures Tiles([s], s.start, s.end) <==> s.start <= s.end
    ensures TotalCost([s]) == s.Cost()
    ensures forall line :: Shows([s], line) <==> s.visible && s.Holds(line)
  {
    assert [s][1..] == [];
  }

  /** What one more span adds to a tiling. */
  lemma Snoc(a: seq<Span>, s: Span, lo: int)
    requires Tiles(a, lo, s.start - 1) && lo <= s.start <= s.end
    ensures Tiles(a + [s], lo, s.end)
    ensures TotalCost(a + [s]) == TotalCost(a) + s.Cost()
    ensures forall line :: Shows(a + [s], line) <==> Shows(a, line) || (s.visible && s.Holds(line))
  {
    One(s);
    TilesAppend(a, [s], lo, s.start - 1, s.end);
    CostAppend(a, [s]);
    ShowsAppend(a, [s]);
  }

  /** A tiling shows only lines of its range, and costs at least one line if it is not empty. */
  lemma {:induction false} TilesBounds(spans: seq<Span>, lo: int, hi: int)
    requires Tiles(spans, lo, hi)
    ensures lo <= hi + 1
    ensures forall line :: Shows(spans, line) ==> lo <= line <= hi
    ensures 0 <= TotalCost(spans) <= hi - lo + 1
    ensures spans != [] ==> TotalCost(spans) > 0
    ensures forall i :: 0 <= i < |spans| ==> lo <= spans[i].start <= spans[i].end <= hi
  {
    if spans != [] {
      TilesBounds(spans[1..], spans[0].end + 1, hi);
    }
  }

  // ----- the one alternating tiling that shows a given set of lines

  function RunEnd(lo: int, hi: int, shown: set<int>): (e: int)
    requires lo <= hi
    ensures lo <= e <= hi
    ensures forall line :: lo <= line <= e ==> (line in shown <==> lo in shown)
    ensures e < hi ==> (e + 1 in shown <==> lo !in shown)
    decreases hi - lo
  {
    if lo < hi && (lo + 1 in shown <==> lo in shown) then RunEnd(lo + 1, hi, shown) else lo
  }

  /** Lines lo..hi cut into maximal runs of lines in and out of `shown`. */
  function RunsOf(lo: int, hi: int, shown: set<int>): seq<Span>
    decreases hi - lo
  {
    if lo > hi then []
    else
      var e := RunEnd(lo, hi, shown);
      [Span(lo, e, lo in shown)] + RunsOf(e + 1, hi, shown)
  }

  lemma {:induction false} RunsOfShows(lo: int, hi: int, shown: set<int>)
    requires lo <= hi + 1
    ensures Tiles(RunsOf(lo, hi, shown), lo, hi)
    ensures forall line :: lo <= line <= hi ==> (Shows(RunsOf(lo, hi, shown), line) <==> line in shown)
    ensures Alternating(RunsOf(lo, hi, shown))
    decreases hi - lo
  {
    if lo <= hi {
      var e := RunEnd(lo, hi, shown);
      RunsOfShows(e + 1, hi, shown);
      TilesBounds(RunsOf(e + 1, hi, shown), e + 1, hi);
    }
  }

  /** An alternating tiling is determined by the lines it shows. */
  lemma {:induction false} RunsUnique(spans: seq<Span>, lo: int, hi: int, shown: set<int>)
    requires Tiles(spans, lo, hi) && Alternating(spans)
    requires forall line :: lo <= line <= hi ==> (Shows(spans, line) <==> line in shown)
    ensures spans == RunsOf(lo, hi, shown)
    decreases |spans|
  {
    if spans != [] {
      FirstRun(spans, lo, hi, shown);
      LaterRuns(spans, lo, hi, shown);
      hide Shows, Tiles, Alternating;
      RunsUnique(spans[1..], spans[0].end + 1, hi, shown);
    }
  }

  lemma LaterRuns(spans: seq<Span>, lo: int, hi: int, shown: set<int>)
    requires spans != [] && Tiles(spans, lo, hi) && Alternating(spans)
    requires forall line :: lo <= line <= hi ==> (Shows(spans, line) <==> line in shown)
    ensures lo <= hi && Tiles(spans[1..], spans[0].end + 1, hi) && Alternating(spans[1..]) && lo <= spans[0].end
    ensures forall line :: spans[0].end + 1 <= line <= hi ==> (Shows(spans[1..], line) <==> line in shown)
  {
    TilesBounds(spans[1..], spans[0].end + 1, hi);
  }

  lemma FirstRun(spans: seq<Span>, lo: int, hi: int, shown: set<int>)
    requires spans != [] && Tiles(spans, lo, hi) && Alternating(spans)
    requires forall line :: lo <= line <= hi ==> (Shows(spans, line) <==> line in shown)
    ensures spans[0] == Span(lo, RunEnd(lo, hi, shown), lo in shown)
  {
    var first, rest := spans[0], spans[1..];
    TilesBounds(rest, first.end + 1, hi);
    forall line | first.Holds(line) ensures line in shown <==> first.visible {
      assert Shows(spans, line) <==> first.visible;
    }
    if rest != [] {
      assert rest[0] == spans[1] && spans[1].visible != spans[0].visible;
      TilesBounds(rest[1..], rest[0].end + 1, hi);
      assert Shows(rest, first.end + 1) <==> rest[0].visible;
      assert first.end + 1 in shown <==> rest[0].visible;
    }
    var e := RunEnd(lo, hi, shown);
    assert e == first.end;
  }

  // ----- merging

  /** `merged` is a tiling of lo..hi like `spans`, with visible neighbours joined. */
  ghost predicate MergedFrom(merged: seq<Span>, spans: seq<Span>, lo: int, hi: int) {
    && Tiles(merged, lo, hi) && merged != [] && spans != []
    && merged[|merged| - 1].end == hi
    && merged[|merged| - 1].visible == spans[|spans| - 1].visible
    && NoAdjacentVisible(merged)
    && TotalCost(merged) == TotalCost(spans)
    && (forall line :: Shows(merged, line) <==> Shows(spans, line))
    && (forall s: Span :: !s.visible ==> (s in merged <==> s in spans))
  }

  lemma MergedAppend(merged: seq<Span>, spans: seq<Span>, lo: int, s: Span)
    requires MergedFrom(merged, spans, lo, s.start - 1) && Tiles(spans, lo, s.start - 1)
    requires lo <= s.start <= s.end && !(s.visible && spans[|spans| - 1].visible)
    ensures MergedFrom(merged + [s], spans + [s], lo, s.end)
  {
    Snoc(merged, s, lo);
    Snoc(spans, s, lo);
  }

  lemma MergedJoin(before: seq<Span>, prev: Span, spans: seq<Span>, lo: int, s: Span)
    requires MergedFrom(before + [prev], spans, lo, s.start - 1) && Tiles(spans, lo, s.start - 1)
    requires lo <= s.start <= s.end && s.visible && prev.visible
    ensures MergedFrom(before + [Span(prev.start, s.end, true)], spans + [s], lo, s.end)
  {
    var joined := Span(prev.start, s.end, true);
    Snoc(spans, s, lo);
    var mid := TilesSplit(before, [prev], lo, s.start - 1);
    TilesBounds([prev], mid + 1, s.start - 1);
    Snoc(before, prev, lo);
    Snoc(before, joined, lo);
    forall i | 0 <= i < |before|
      ensures !((before + [joined])[i].visible && (before + [joined])[i + 1].visible)
    {
      assert !((before + [prev])[i].visible && (before + [prev])[i + 1].visible);
    }
  }

  /** The spans with each visible one joined to a visible one right before it. */
  function Merged(spans: seq<Span>): (r: seq<Span>)
    ensures r == [] <==> spans == []
  {
    if |spans| <= 1 then spans
    else
      var before, s := Merged(spans[..|spans| - 1]), spans[|spans| - 1];
      var prev := before[|before| - 1];
      if s.visible && prev.visible && s.start == prev.end + 1 then before[..|before| - 1] + [Span(prev.start, s.end, true)]
      else before + [s]
  }

  /** `_merge_visible`: joins adjacent visible spans. */
  method MergeVisible(spans: seq<Span>) returns (merged: seq<Span>)
    ensures merged == Merged(spans)
  {
    if spans == [] {
      return spans;
    }
    merged := [spans[0]];
    assert spans[..1] == [spans[0]];
    for i := 1 to |spans|
      invariant merged == Merged(spans[..i]) && merged != []
    {
      var span := spans[i];
      var prev := merged[|merged| - 1];
      assert spans[..i + 1][..i] == spans[..i];
      if span.visible && prev.visible && span.start == prev.end + 1 {
        merged := merged[..|merged| - 1] + [Span(prev.start, span.end, true)];
      } else {
        merged := merged + [span];
      }
    }
    assert spans[..|spans|] == spans;
  }

  /** Merging a tiling gives a tiling. */
  lemma {:induction false} MergedTiles(spans: seq<Span>, lo: int, hi: int)
    requires Tiles(spans, lo, hi) && lo <= hi
    ensures MergedFrom(Merged(spans), spans, lo, hi)
  {
    hide *;
    if |spans| <= 1 {
      OneMerged(spans, lo, hi);
    } else {
      var front, s := spans[..|spans| - 1], spans[|spans| - 1];
      assert spans == front + [s];
      TilingFront(spans, lo, hi);
      MergedTiles(front, lo, s.start - 1);
      var before := Merged(front);
      MergedParts(before, front, lo, s.start - 1);
      MergedStep(spans);
      var prev := before[|before| - 1];
      if s.visible && prev.visible {
        assert before == before[..|before| - 1] + [prev];
        MergedJoin(before[..|before| - 1], prev, front, lo, s);
      } else {
        MergedAppend(before, front, lo, s);
      }
    }
  }

  lemma OneMerged(spans: seq<Span>, lo: int, hi: int)
    requires Tiles(spans, lo, hi) && lo <= hi && |spans| <= 1
    ensures MergedFrom(Merged(spans), spans, lo, hi)
  {
  }

  lemma TilingFront(spans: seq<Span>, lo: int, hi: int)
    requires Tiles(spans, lo, hi) && |spans| > 1
    ensures var s := spans[|spans| - 1];
      Tiles(spans[..|spans| - 1], lo, s.start - 1) && lo < s.start <= s.end == hi
  {
    var front, s := spans[..|spans| - 1], spans[|spans| - 1];
    assert spans == front + [s];
    var mid := TilesSplit(front, [s], lo, hi);
    TilesBounds(front, lo, mid);
    TilesBounds([s], mid + 1, hi);
    assert [s][1..] == [];
  }

  lemma MergedStep(spans: seq<Span>)
    requires |spans| > 1
    ensures Merged(spans[..|spans| - 1]) != []
    ensures var before, s := Merged(spans[..|spans| - 1]), spans[|spans| - 1];
      var prev := before[|before| - 1];
      Merged(spans) ==
        if s.visible && prev.visible && s.start == prev.end + 1 then before[..|before| - 1] + [Span(prev.start, s.end, true)]
        else before + [s]
  {
  }

  lemma MergedParts(merged: seq<Span>, spans: seq<Span>, lo: int, hi: int)
    requires MergedFrom(merged, spans, lo, hi)
    ensures merged != [] && spans != [] && merged[|merged| - 1].end == hi
    ensures merged[|merged| - 1].visible == spans[|spans| - 1].visible
  {
  }

  ghost predicate NonemptySpans(spans: seq<Span>) {
    forall i :: 0 <= i < |spans| ==> spans[i].start <= spans[i].end
  }

  /** Merging any list, in whatever order and with whatever gaps, changes neither lines nor cost. */
  lemma {:induction false} MergedShows(spans: seq<Span>)
    requires NonemptySpans(spans)
    ensures NonemptySpans(Merged(spans)) && TotalCost(Merged(spans)) == TotalCost(spans)
    ensures forall line :: Shows(Merged(spans), line) <==> Shows(spans, line)
  {
    hide *;
    if |spans| <= 1 {
      FewMerged(spans);
    } else {
      var front, s := spans[..|spans| - 1], spans[|spans| - 1];
      assert spans == front + [s];
      FrontNonempty(front, s);
      MergedShows(front);
      MergedStep(spans);
      var before := Merged(front);
      OneAppended(front, s);
      OneAppended(before, s);
      assert before == before[..|before| - 1] + [before[|before| - 1]];
      FrontNonempty(before[..|before| - 1], before[|before| - 1]);
      FrontNonempty(before, s);
      Joined(before[..|before| - 1], before[|before| - 1], s);
    }
  }

  lemma FewMerged(spans: seq<Span>)
    requires |spans| <= 1
    ensures Merged(spans) == spans
  {
  }

  lemma FrontNonempty(front: seq<Span>, s: Span)
    ensures NonemptySpans(front + [s]) <==> NonemptySpans(front) && s.start <= s.end
  {
    assert forall i :: 0 <= i < |front| ==> (front + [s])[i] == front[i];
    assert (front + [s])[|front|] == s;
  }

  lemma OneAppended(spans: seq<Span>, s: Span)
    ensures TotalCost(spans + [s]) == TotalCost(spans) + s.Cost()
    ensures forall line :: Shows(spans + [s], line) <==> Shows(spans, line) || (s.visible && s.Holds(line))
  {
    One(s);
    CostAppend(spans, [s]);
    ShowsAppend(spans, [s]);
  }

  lemma Joined(before: seq<Span>, prev: Span, s: Span)
    requires prev.start <= prev.end && s.start <= s.end
    ensures prev.visible && s.visible && s.start == prev.end + 1 ==>
      var joined := before + [Span(prev.start, s.end, true)];
      && TotalCost(joined) == TotalCost(before + [prev]) + s.Cost()
      && (NonemptySpans(before) ==> NonemptySpans(joined))
      && forall line :: Shows(joined, line) <==> Shows(before + [prev], line) || (s.visible && s.Holds(line))
  {
    OneAppended(before, prev);
    OneAppended(before, Span(prev.start, s.end, true));
  }

  lemma StepInTiling(spans: seq<Span>, lo: int, hi: int, i: nat)
    requires Tiles(spans, lo, hi) && 0 < i < |spans|
    ensures spans[i].start == spans[i - 1].end + 1 && spans[i].start <= spans[i].end <= hi
  {
    assert spans == spans[..i] + spans[i..];
    var mid := TilesSplit(spans[..i], spans[i..], lo, hi);
  }

  function SuppressedAll(spans: seq<Span>): (r: seq<Span>)
    ensures |r| == |spans|
  {
    seq(|spans|, k requires 0 <= k < |spans| => spans[k].Suppressed())
  }

  /** `_finalize_spans`: shows the lines of one-line collapses, then merges. */
  method Finalize(spans: seq<Span>) returns (r: seq<Span>)
    ensures r == Merged(SuppressedAll(spans))
  {
    var suppressed: seq<Span> := [];
    for i := 0 to |spans|
      invariant |suppressed| == i
      invariant forall k :: 0 <= k < i ==> suppressed[k] == spans[k].Suppressed()
    {
      suppressed := suppressed + [spans[i].Suppressed()];
    }
    assert suppressed == SuppressedAll(spans);
    r := MergeVisible(suppressed);
  }

  /** What finalizing makes of a tiling. */
  lemma FinalizedTiles(spans: seq<Span>, lo: int, hi: int)
    requires Tiles(spans, lo, hi) && lo <= hi
    ensures var r := Merged(SuppressedAll(spans));
      && Tiles(r, lo, hi) && NoAdjacentVisible(r) && NoTrivialCollapse(r) && TotalCost(r) == TotalCost(spans)
      && (forall line :: Shows(r, line) <==> Shows(spans, line) || Span(line, line, false) in spans)
      && (forall s: Span :: !s.visible ==> (s in r <==> s in spans && s.Lines() > 1))
  {
    var suppressed := SuppressedAll(spans);
    var r := Merged(suppressed);
    SuppressedAlike(spans, suppressed, lo, hi);
    MergedTiles(suppressed, lo, hi);
    hide Merged;
    forall i | 0 <= i < |r| && !r[i].visible ensures r[i].Lines() >= 2 {
      assert r[i] in suppressed;
    }
  }

  lemma {:induction false} SuppressedAlike(spans: seq<Span>, suppressed: seq<Span>, lo: int, hi: int)
    requires Tiles(spans, lo, hi)
    requires |suppressed| == |spans|
    requires forall k :: 0 <= k < |spans| ==> suppressed[k] == spans[k].Suppressed()
    ensures Tiles(suppressed, lo, hi)
    ensures TotalCost(suppressed) == TotalCost(spans)
    ensures forall line :: Shows(suppressed, line) <==>
      Shows(spans, line) || Span(line, line, false) in spans
  {
    if spans != [] {
      SuppressedAlike(spans[1..], suppressed[1..], spans[0].end + 1, hi);
      forall line ensures Shows(suppressed, line) <==>
        Shows(spans, line) || Span(line, line, false) in spans
      {
        assert spans == [spans[0]] + spans[1..];
      }
    }
  }

  // ----- spans for regions

  predicate Covers(regions: seq<(int, int)>, line: int) {
    exists k :: 0 <= k < |regions| && regions[k].0 <= line <= regions[k].1
  }

  /** The lines of the file that the regions cover. */
  function CoveredLines(regions: seq<(int, int)>, total: nat): set<int> {
    set line | 1 <= line <= total && Covers(regions, line)
  }

  predicate InRange(regions: seq<(int, int)>, total: int) {
    forall k :: 0 <= k < |regions| ==> 1 <= regions[k].0 <= regions[k].1 <= total
  }

  /** Each region, widened by the context, meets the file. */
  predicate MeetFile(regions: seq<(int, int)>, context: nat, total: int) {
    forall k :: 0 <= k < |regions| ==> Max(1, regions[k].0 - context) <= Min(total, regions[k].1 + context)
  }

  lemma InRangeMeets(regions: seq<(int, int)>, context: nat, total: int)
    requires InRange(regions, total)
    ensures MeetFile(regions, context, total)
  {
  }

  /** The lines of the file within `context` lines of a region. */
  function Window(total: nat, regions: seq<(int, int)>, context: nat): set<int> {
    set line | 1 <= line <= total && Covers(Widened(regions, context), line)
  }

  function Widened(regions: seq<(int, int)>, context: nat): (r: seq<(int, int)>) {
    seq(|regions|, k requires 0 <= k < |regions| => (regions[k].0 - context, regions[k].1 + context))
  }

  predicate RegionLe(a: (int, int), b: (int, int)) {
    a.0 < b.0 || (a.0 == b.0 && a.1 <= b.1)
  }

  /** The windows are separated by at least one line. */
  predicate Separated(windows: seq<(int, int)>) {
    && (forall i :: 0 <= i < |windows| ==> windows[i].0 <= windows[i].1)
    && (forall i, j :: 0 <= i < j < |windows| ==> windows[i].1 + 1 < windows[j].0)
  }

  predicate NoneEmpty(windows: seq<(int, int)>) {
    forall i :: 0 <= i < |windows| ==> windows[i].0 <= windows[i].1
  }

  predicate SortedStarts(regions: seq<(int, int)>) {
    forall i, j :: 0 <= i < j < |regions| ==> regions[i].0 <= regions[j].0
  }

  function WithWindow(windows: seq<(int, int)>, start: int, end: int): seq<(int, int)> {
    if windows != [] && start <= windows[|windows| - 1].1 + 1 then
      windows[..|windows| - 1] + [(windows[|windows| - 1].0, Max(windows[|windows| - 1].1, end))]
    else
      windows + [(start, end)]
  }

  /** The first n regions, widened, clamped to the file and merged; one that misses the file can leave an
      empty window. */
  function Windows(total: nat, sorted: seq<(int, int)>, context: nat, n: nat): seq<(int, int)>
    requires n <= |sorted|
  {
    if n == 0 then []
    else
      WithWindow(Windows(total, sorted, context, n - 1),
                 Max(1, sorted[n - 1].0 - context), Min(total, sorted[n - 1].1 + context))
  }

  /** The first loop of `spans_for_regions`. */
  method MergedWindows(total: nat, sorted: seq<(int, int)>, context: nat) returns (windows: seq<(int, int)>)
    ensures windows == Windows(total, sorted, context, |sorted|)
  {
    windows := [];
    for i := 0 to |sorted|
      invariant windows == Windows(total, sorted, context, i)
    {
      windows := WithWindow(windows, Max(1, sorted[i].0 - context), Min(total, sorted[i].1 + context));
    }
  }

  /** The windows keep to the file, lie apart, and cover exactly the lines of it that `wide` covers. */
  ghost predicate WindowsOf(windows: seq<(int, int)>, wide: seq<(int, int)>, total: nat) {
    && (forall i :: 0 <= i < |windows| ==> 1 <= windows[i].0 && windows[i].1 <= total)
    && (forall i, j :: 0 <= i < j < |windows| ==> windows[i].1 + 1 < windows[j].0 && windows[i].0 <= windows[j].0)
    && (forall line :: 1 <= line <= total ==> (Covers(windows, line) <==> Covers(wide, line)))
  }

  lemma ExtendLast(init: seq<(int, int)>, last: (int, int), wide: seq<(int, int)>, w: (int, int), total: nat)
    requires WindowsOf(init + [last], wide, total)
    requires last.0 <= Max(1, w.0) <= last.1 + 1
    ensures WindowsOf(init + [(last.0, Max(last.1, Min(total, w.1)))], wide + [w], total)
  {
    var all, longer := init + [last], init + [(last.0, Max(last.1, Min(total, w.1)))];
    assert all[|init|] == last;
    assert forall i :: 0 <= i < |init| ==> all[i] == init[i] == longer[i];
    CoversSnoc(wide, w);
    CoversSnoc(init, last);
    CoversSnoc(init, longer[|init|]);
  }

  lemma AddWindow(windows: seq<(int, int)>, wide: seq<(int, int)>, w: (int, int), total: nat)
    requires WindowsOf(windows, wide, total)
    requires windows != [] ==> Max(1, w.0) > windows[|windows| - 1].1 + 1 && windows[|windows| - 1].0 <= Max(1, w.0)
    ensures WindowsOf(windows + [(Max(1, w.0), Min(total, w.1))], wide + [w], total)
  {
    CoversSnoc(wide, w);
    CoversSnoc(windows, (Max(1, w.0), Min(total, w.1)));
  }

  lemma WithWindowMerges(windows: seq<(int, int)>, wide: seq<(int, int)>, w: (int, int), total: nat)
    requires WindowsOf(windows, wide, total)
    requires windows != [] ==> windows[|windows| - 1].0 <= Max(1, w.0)
    ensures var next := WithWindow(windows, Max(1, w.0), Min(total, w.1));
      WindowsOf(next, wide + [w], total) && next != [] && next[|next| - 1].0 <= Max(1, w.0)
  {
    if windows != [] && Max(1, w.0) <= windows[|windows| - 1].1 + 1 {
      assert windows == windows[..|windows| - 1] + [windows[|windows| - 1]];
      ExtendLast(windows[..|windows| - 1], windows[|windows| - 1], wide, w, total);
    } else {
      AddWindow(windows, wide, w, total);
    }
  }

  /** The last window starts no later than the n-th region allows. */
  ghost predicate EndsBy(windows: seq<(int, int)>, sorted: seq<(int, int)>, context: nat, n: nat)
    requires n <= |sorted|
  {
    if n == 0 then windows == []
    else windows != [] && windows[|windows| - 1].0 <= Max(1, sorted[n - 1].0 - context)
  }

  /** For any regions in the order of their starts. */
  lemma {:induction false} WindowsCover(total: nat, sorted: seq<(int, int)>, context: nat, n: nat)
    requires n <= |sorted| && SortedStarts(sorted)
    ensures var windows := Windows(total, sorted, context, n);
      WindowsOf(windows, Widened(sorted[..n], context), total) && EndsBy(windows, sorted, context, n)
  {
    hide *;
    if n == 0 {
      NoWindow(total, sorted, context);
    } else {
      WindowsCover(total, sorted, context, n - 1);
      OneMoreWidened(sorted, context, n);
      OneMoreWindow(total, sorted, context, n);
    }
  }

  lemma NoWindow(total: nat, sorted: seq<(int, int)>, context: nat)
    ensures Windows(total, sorted, context, 0) == [] && EndsBy([], sorted, context, 0)
    ensures WindowsOf([], Widened(sorted[..0], context), total)
  {
  }

  lemma OneMoreWindow(total: nat, sorted: seq<(int, int)>, context: nat, n: nat)
    requires 0 < n <= |sorted| && (n > 1 ==> sorted[n - 2].0 <= sorted[n - 1].0)
    requires WindowsOf(Windows(total, sorted, context, n - 1), Widened(sorted[..n - 1], context), total)
    requires EndsBy(Windows(total, sorted, context, n - 1), sorted, context, n - 1)
    ensures var w := (sorted[n - 1].0 - context, sorted[n - 1].1 + context);
      WindowsOf(Windows(total, sorted, context, n), Widened(sorted[..n - 1], context) + [w], total)
    ensures EndsBy(Windows(total, sorted, context, n), sorted, context, n)
  {
    var w := (sorted[n - 1].0 - context, sorted[n - 1].1 + context);
    var before := Windows(total, sorted, context, n - 1);
    hide *;
    NextWindow(total, sorted, context, n);
    EndsByMeans(before, sorted, context, n - 1);
    EndsByMeans(WithWindow(before, Max(1, w.0), Min(total, w.1)), sorted, context, n);
    WithWindowMerges(before, Widened(sorted[..n - 1], context), w, total);
  }

  lemma NextWindow(total: nat, sorted: seq<(int, int)>, context: nat, n: nat)
    requires 0 < n <= |sorted|
    ensures Windows(total, sorted, context, n) ==
      WithWindow(Windows(total, sorted, context, n - 1), Max(1, sorted[n - 1].0 - context), Min(total, sorted[n - 1].1 + context))
  {
  }

  lemma EndsByMeans(windows: seq<(int, int)>, sorted: seq<(int, int)>, context: nat, n: nat)
    requires n <= |sorted|
    ensures EndsBy(windows, sorted, context, n) <==>
      if n == 0 then windows == []
      else windows != [] && windows[|windows| - 1].0 <= Max(1, sorted[n - 1].0 - context)
  {
  }

  lemma OneMoreWidened(sorted: seq<(int, int)>, context: nat, n: nat)
    requires 0 < n <= |sorted| && SortedStarts(sorted)
    ensures Widened(sorted[..n], context) ==
      Widened(sorted[..n - 1], context) + [(sorted[n - 1].0 - context, sorted[n - 1].1 + context)]
    ensures n > 1 ==> sorted[n - 2].0 <= sorted[n - 1].0
  {
  }

  /** Regions that meet the file leave no empty window. */
  lemma {:induction false} MeetingLeavesNoneEmpty(total: nat, sorted: seq<(int, int)>, context: nat, n: nat)
    requires n <= |sorted| && MeetFile(sorted, context, total)
    ensures NoneEmpty(Windows(total, sorted, context, n))
  {
    if n > 0 { MeetingLeavesNoneEmpty(total, sorted, context, n - 1); }
  }

  lemma CoversSnoc(regions: seq<(int, int)>, r: (int, int))
    ensures forall line :: Covers(regions + [r], line) <==> Covers(regions, line) || r.0 <= line <= r.1
  {
    forall line ensures Covers(regions + [r], line) <==> Covers(regions, line) || r.0 <= line <= r.1 {
      var all := regions + [r];
      if Covers(regions, line) {
        var k :| 0 <= k < |regions| && regions[k].0 <= line <= regions[k].1;
        assert all[k] == regions[k];
      }
      if r.0 <= line <= r.1 {
        assert all[|regions|] == r;
      }
    }
  }

  /** The spans up to the n-th window, and the first line after it. */
  function AroundUpTo(windows: seq<(int, int)>, n: nat): (seq<Span>, int)
    requires n <= |windows|
  {
    if n == 0 then ([], 1)
    else
      var (before, cursor) := AroundUpTo(windows, n - 1);
      var (start, end) := windows[n - 1];
      (before + (if cursor < start then [Span(cursor, start - 1, false)] else []) + [Span(start, end, true)], end + 1)
  }

  /** The windows as visible spans, with collapsed spans in the gaps. */
  function Around(total: nat, windows: seq<(int, int)>): seq<Span> {
    var (spans, cursor) := AroundUpTo(windows, |windows|);
    if cursor <= total then spans + [Span(cursor, total, false)] else spans
  }

  /** The second loop of `spans_for_regions`: fills the gaps with collapsed spans. */
  method SpansAroundWindows(total: nat, windows: seq<(int, int)>) returns (spans: seq<Span>)
    ensures spans == Around(total, windows)
  {
    spans := [];
    var cursor := 1;
    for i := 0 to |windows|
      invariant (spans, cursor) == AroundUpTo(windows, i)
    {
      AroundNext(windows, i + 1);
      var (start, end) := windows[i];
      if cursor < start {
        spans := spans + [Span(cursor, start - 1, false)];
      } else {
        assert spans + [] == spans;
      }
      spans := spans + [Span(start, end, true)];
      cursor := end + 1;
    }
    if cursor <= total {
      spans := spans + [Span(cursor, total, false)];
    }
  }

  /** The spans end before the cursor with the n-th window, and show the windows so far. */
  ghost predicate AroundTo(spans: seq<Span>, cursor: int, windows: seq<(int, int)>, n: nat)
    requires n <= |windows|
  {
    && 1 <= cursor == (if n == 0 then 1 else windows[n - 1].1 + 1)
    && Tiles(spans, 1, cursor - 1) && Alternating(spans)
    && (if n == 0 then spans == [] else spans != [] && spans[|spans| - 1].visible)
    && forall line :: Shows(spans, line) <==> Covers(windows[..n], line)
  }

  lemma {:induction false} AroundUpToTiles(total: nat, windows: seq<(int, int)>, n: nat)
    requires n <= |windows| && Separated(windows) && InRange(windows, total)
    ensures AroundTo(AroundUpTo(windows, n).0, AroundUpTo(windows, n).1, windows, n)
  {
    hide *;
    if n == 0 {
      NothingAround(windows);
    } else {
      AroundUpToTiles(total, windows, n - 1);
      AroundNext(windows, n);
      WindowBounds(total, windows, n);
      OneMoreAround(AroundUpTo(windows, n - 1).0, AroundUpTo(windows, n - 1).1, windows, n);
    }
  }

  lemma NothingAround(windows: seq<(int, int)>)
    ensures AroundUpTo(windows, 0) == ([], 1) && AroundTo([], 1, windows, 0)
  {
  }

  lemma WindowBounds(total: nat, windows: seq<(int, int)>, n: nat)
    requires 0 < n <= |windows| && Separated(windows) && InRange(windows, total)
    ensures 1 <= windows[n - 1].0 <= windows[n - 1].1 && (n > 1 ==> windows[n - 2].1 + 1 < windows[n - 1].0)
  {
  }

  lemma OneMoreAround(before: seq<Span>, cursor: int, windows: seq<(int, int)>, n: nat)
    requires 0 < n <= |windows| && AroundTo(before, cursor, windows, n - 1)
    requires 1 <= windows[n - 1].0 <= windows[n - 1].1 && (n > 1 ==> windows[n - 2].1 + 1 < windows[n - 1].0)
    ensures var (start, end) := windows[n - 1];
      AroundTo(before + (if cursor < start then [Span(cursor, start - 1, false)] else []) + [Span(start, end, true)],
               end + 1, windows, n)
  {
    var (start, end) := windows[n - 1];
    assert windows[..n - 1] + [windows[n - 1]] == windows[..n];
    CoversSnoc(windows[..n - 1], windows[n - 1]);
    var gap, shown := Span(cursor, start - 1, false), Span(start, end, true);
    hide Tiles, Covers, Shows;
    if cursor < start {
      Snoc(before, gap, 1);
      Snoc(before + [gap], shown, 1);
    } else {
      Snoc(before, shown, 1);
      assert before + [] == before;
    }
  }

  lemma AroundNext(windows: seq<(int, int)>, n: nat)
    requires 0 < n <= |windows|
    ensures var (before, cursor) := AroundUpTo(windows, n - 1);
      var (start, end) := windows[n - 1];
      AroundUpTo(windows, n) ==
        (before + (if cursor < start then [Span(cursor, start - 1, false)] else []) + [Span(start, end, true)], end + 1)
  {
  }

  /** Around separated windows of the file the spans tile it, alternate and show exactly the windows. */
  lemma AroundTiles(total: nat, windows: seq<(int, int)>)
    requires Separated(windows) && InRange(windows, total)
    ensures Tiles(Around(total, windows), 1, total) && Alternating(Around(total, windows))
    ensures forall line :: Shows(Around(total, windows), line) <==> Covers(windows, line)
  {
    AroundUpToTiles(total, windows, |windows|);
    var (spans, cursor) := AroundUpTo(windows, |windows|);
    assert windows[..|windows|] == windows;
    hide Covers, AroundUpTo;
    if cursor <= total {
      Snoc(spans, Span(cursor, total, false), 1);
    }
  }

  /** What `spans_for_regions` returns. */
  function RegionSpans(total: nat, regions: seq<(int, int)>, context: nat): seq<Span> {
    if total == 0 then []
    else if regions == [] then [Span(1, total, false)]
    else
      var sorted := StableSort(regions, RegionLe);
      Around(total, Windows(total, sorted, context, |sorted|))
  }

  /** `spans_for_regions` */
  method SpansForRegions(total: nat, regions: seq<(int, int)>, context: nat) returns (spans: seq<Span>)
    ensures spans == RegionSpans(total, regions, context)
  {
    if total == 0 {
      return [];
    }
    if regions == [] {
      return [Span(1, total, false)];
    }
    var windows := MergedWindows(total, StableSort(regions, RegionLe), context);
    spans := SpansAroundWindows(total, windows);
  }

  lemma NothingShown(total: nat, context: nat)
    requires total > 0
    ensures RunsOf(1, total, Window(total, [], context)) == [Span(1, total, false)]
  {
    var spans := [Span(1, total, false)];
    assert forall line :: Shows(spans[1..], line) == false;
    RunsUnique(spans, 1, total, Window(total, [], context));
  }

  lemma SortedByStart(regions: seq<(int, int)>)
    ensures SortedStarts(StableSort(regions, RegionLe))
  {
    SortSorts(regions, RegionLe);
    var sorted := StableSort(regions, RegionLe);
    assert forall i, j :: 0 <= i < j < |sorted| ==> RegionLe(sorted[i], sorted[j]);
  }

  lemma SortedMeet(regions: seq<(int, int)>, context: nat, total: int)
    requires MeetFile(regions, context, total)
    ensures MeetFile(StableSort(regions, RegionLe), context, total)
  {
    var sorted := StableSort(regions, RegionLe);
    forall k | 0 <= k < |sorted| ensures Max(1, sorted[k].0 - context) <= Min(total, sorted[k].1 + context) {
      SortedFrom(regions, RegionLe, k);
    }
  }

  lemma ProperWindows(windows: seq<(int, int)>, wide: seq<(int, int)>, total: nat)
    requires WindowsOf(windows, wide, total) && NoneEmpty(windows)
    ensures Separated(windows) && InRange(windows, total)
  {
  }

  lemma WindowShown(windows: seq<(int, int)>, regions: seq<(int, int)>, context: nat, total: nat)
    requires WindowsOf(windows, Widened(StableSort(regions, RegionLe), context), total) && NoneEmpty(windows)
    ensures Around(total, windows) == RunsOf(1, total, Window(total, regions, context))
  {
    var sorted := StableSort(regions, RegionLe);
    ProperWindows(windows, Widened(sorted, context), total);
    AroundTiles(total, windows);
    SameElements(regions, RegionLe);
    assert forall x :: x in sorted ==> x in regions;
    hide StableSort, Widened, Covers, Tiles, Alternating, Shows, Around;
    forall line ensures Covers(Widened(sorted, context), line) <==> Covers(Widened(regions, context), line) {
      CoversPermuted(regions, sorted, context, line);
      CoversPermuted(sorted, regions, context, line);
    }
    forall line | 1 <= line <= total ensures Shows(Around(total, windows), line) <==> line in Window(total, regions, context) {
      assert Covers(windows, line) <==> Covers(Widened(sorted, context), line);
    }
    RunsUnique(Around(total, windows), 1, total, Window(total, regions, context));
  }

  /** The spans are the maximal runs of the padded regions if and only if no window stays empty, whatever
      the regions, their order, and how far they reach out of the file. */
  lemma RegionSpansIff(total: nat, regions: seq<(int, int)>, context: nat)
    requires total > 0 && regions != []
    ensures var sorted := StableSort(regions, RegionLe);
      RegionSpans(total, regions, context) == RunsOf(1, total, Window(total, regions, context)) <==>
        NoneEmpty(Windows(total, sorted, context, |sorted|))
  {
    var sorted := StableSort(regions, RegionLe);
    var windows := Windows(total, sorted, context, |sorted|);
    SortedByStart(regions);
    WindowsCover(total, sorted, context, |sorted|);
    assert sorted[..|sorted|] == sorted;
    hide StableSort, Windows, WindowsOf, RunsOf, Widened;
    if NoneEmpty(windows) {
      WindowShown(windows, regions, context, total);
    }
    if Around(total, windows) == RunsOf(1, total, Window(total, regions, context)) {
      RunsOfShows(1, total, Window(total, regions, context));
      TilesBounds(Around(total, windows), 1, total);
      forall i | 0 <= i < |windows| ensures windows[i].0 <= windows[i].1 {
        WindowIsSpan(total, windows, i);
      }
    }
  }

  lemma WindowIsSpan(total: nat, windows: seq<(int, int)>, i: nat)
    requires i < |windows|
    ensures Span(windows[i].0, windows[i].1, true) in Around(total, windows)
  {
    WindowIn(windows, |windows|, i);
  }

  lemma {:induction false} WindowIn(windows: seq<(int, int)>, n: nat, i: nat)
    requires i < n <= |windows|
    ensures Span(windows[i].0, windows[i].1, true) in AroundUpTo(windows, n).0
  {
    if i < n - 1 { WindowIn(windows, n - 1, i); }
  }

  /** Regions that meet the file, as all callers pass them, leave none. */
  lemma RunsOfRegions(total: nat, regions: seq<(int, int)>, context: nat)
    requires total == 0 || MeetFile(regions, context, total)
    ensures RegionSpans(total, regions, context) == RunsOf(1, total, Window(total, regions, context))
  {
    if total > 0 {
      if regions == [] {
        NothingShown(total, context);
      } else {
        RegionSpansIff(total, regions, context);
        SortedMeet(regions, context, total);
        var sorted := StableSort(regions, RegionLe);
        MeetingLeavesNoneEmpty(total, sorted, context, |sorted|);
      }
    }
  }

  /** The failing case: a region past the end of the file, which the spans then overrun. */
  lemma RegionPastEnd()
    ensures RegionSpans(10, [(20, 25)], 3) == [Span(1, 16, false), Span(17, 10, true)]
  {
    var region := [(20, 25)];
    assert region[1..] == [];
    assert StableSort(region, RegionLe) == region;
    assert Windows(10, region, 3, 0) == [];
    assert Windows(10, region, 3, 1) == [(17, 10)];
    assert AroundUpTo([(17, 10)], 0) == ([], 1);
  }

  lemma CoversPermuted(a: seq<(int, int)>, b: seq<(int, int)>, context: nat, line: int)
    requires forall x :: x in a ==> x in b
    ensures Covers(Widened(a, context), line) ==> Covers(Widened(b, context), line)
  {
    if Covers(Widened(a, context), line) {
      var k :| 0 <= k < |a| && Widened(a, context)[k].0 <= line <= Widened(a, context)[k].1;
      assert a[k] in b;
      var j :| 0 <= j < |b| && b[j] == a[k];
      assert Widened(b, context)[j] == Widened(a, context)[k];
    }
  }
}
