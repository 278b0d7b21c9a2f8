// Which lines of a file the folded file context shows, under its line budget.
module FoldedView {
  import opened Collapse
  import opened Content
  import opened Integers
  import opened Optional
  import opened Sorting
  import opened Spans

  const LINE_BUDGET: int := 80
  const AROUND_SALIENT_LINE: nat := 2
  const OUTLINE_LINE_BUDGET: int := 18

  // ----- reference definition: the first distinct lines of the regions

  function RangeLines(first: int, last: int): seq<int>
    decreases last - first
  {
    if first > last then [] else [first] + RangeLines(first + 1, last)
  }

  /** The lines of the regions, in the regions' order, with repetitions. */
  function Mentioned(regions: seq<(int, int)>): seq<int> {
    if regions == [] then [] else RangeLines(regions[0].0, regions[0].1) + Mentioned(regions[1..])
  }

  /** Each value once, where it first occurs. */
  function Firsts(s: seq<int>): seq<int> {
    if s == [] then []
    else
      var before, x := Firsts(s[..|s| - 1]), s[|s| - 1];
      if x in before then before else before + [x]
  }

  function Members(s: seq<int>): set<int> {
    set x | x in s
  }

  /** The first min(budget, all) distinct lines of the regions; a budget below 1 is no limit. */
  function FirstLines(regions: seq<(int, int)>, budget: int): set<int> {
    var lines := Firsts(Mentioned(regions));
    Members(if 1 <= budget < |lines| then lines[..budget] else lines)
  }

  // ----- limiting

  lemma {:induction false} FirstsMembers(s: seq<int>)
    ensures Members(Firsts(s)) == Members(s) && |Members(s)| == |Firsts(s)|
  {
    if s != [] {
      var before, x := s[..|s| - 1], s[|s| - 1];
      FirstsMembers(before);
      assert s == before + [x];
      assert Members(s) == Members(before) + {x};
      assert x in Firsts(before) <==> x in Members(Firsts(before));
      assert Members(Firsts(before) + [x]) == Members(Firsts(before)) + {x};
    }
  }

  lemma {:induction false} FirstsPrefix(a: seq<int>, b: seq<int>)
    ensures Firsts(a) <= Firsts(a + b)
  {
    if b == [] {
      assert a + b == a;
    } else {
      assert (a + b)[..|a + b| - 1] == a + b[..|b| - 1];
      FirstsPrefix(a, b[..|b| - 1]);
    }
  }

  /** The lines `done` have been taken and there is still room. */
  ghost predicate Taken(selected: set<int>, done: seq<int>, budget: int) {
    && selected == Members(done)
    && (budget >= 1 ==> |Firsts(done)| < budget)
  }

  /** Taking one more line either leaves room or completes the budget. */
  lemma TakeLine(selected: set<int>, done: seq<int>, line: int, later: seq<int>, regions: seq<(int, int)>, budget: int)
    requires Taken(selected, done, budget) && Mentioned(regions) == done + [line] + later
    ensures selected + {line} == Members(done + [line])
    ensures |selected + {line}| == budget && budget >= 1 ==> selected + {line} == FirstLines(regions, budget)
    ensures |selected + {line}| != budget ==> Taken(selected + {line}, done + [line], budget)
    ensures budget < 1 ==> |selected + {line}| != budget
  {
    FirstsMembers(done);
    FirstsMembers(done + [line]);
    FirstsPrefix(done + [line], later);
    assert (done + [line])[..|done|] == done;
    assert selected + {line} == Members(done + [line]);
    var lines := Firsts(Mentioned(regions));
    var firsts := Firsts(done + [line]);
    assert lines[..|firsts|] == firsts;
    if |firsts| == budget && |lines| == budget {
      assert lines == firsts;
    }
  }

  lemma TakenAll(selected: set<int>, regions: seq<(int, int)>, budget: int)
    requires Taken(selected, Mentioned(regions), budget)
    ensures selected == FirstLines(regions, budget)
  {
    FirstsMembers(Mentioned(regions));
  }

  lemma {:induction false} MentionedAppend(a: seq<(int, int)>, b: seq<(int, int)>)
    ensures Mentioned(a + b) == Mentioned(a) + Mentioned(b)
  {
    if a == [] {
      assert a + b == b;
    } else {
      assert (a + b)[1..] == a[1..] + b;
      MentionedAppend(a[1..], b);
    }
  }

  lemma MentionedSplit(regions: seq<(int, int)>, i: nat)
    requires i < |regions|
    ensures Mentioned(regions) ==
      Mentioned(regions[..i]) + RangeLines(regions[i].0, regions[i].1) + Mentioned(regions[i + 1..])
    ensures Mentioned(regions[..i + 1]) == Mentioned(regions[..i]) + RangeLines(regions[i].0, regions[i].1)
  {
    hide *;
    MentionedNext(regions, i);
    assert regions == regions[..i + 1] + regions[i + 1..];
    MentionedAppend(regions[..i + 1], regions[i + 1..]);
  }

  lemma MentionedNext(regions: seq<(int, int)>, i: nat)
    requires i < |regions|
    ensures Mentioned(regions[..i + 1]) == Mentioned(regions[..i]) + RangeLines(regions[i].0, regions[i].1)
  {
    assert regions[..i + 1] == regions[..i] + [regions[i]];
    assert Mentioned([regions[i]]) == RangeLines(regions[i].0, regions[i].1) by {
      assert [regions[i]][1..] == [];
    }
    hide *;
    MentionedAppend(regions[..i], [regions[i]]);
  }

  /** The inner loop of `_limit_regions_to_line_budget`; reports whether the budget is used up. */
  method TakeRegion(regions: seq<(int, int)>, i: nat, before: set<int>, budget: int)
    returns (selected: set<int>, full: bool)
    requires i < |regions| && Taken(before, Mentioned(regions[..i]), budget)
    ensures full ==> selected == FirstLines(regions, budget)
    ensures !full ==> Taken(selected, Mentioned(regions[..i + 1]), budget)
  {
    var (start, end) := regions[i];
    selected, full := before, false;
    ghost var done := Mentioned(regions[..i]);
    ghost var later := Mentioned(regions[i + 1..]);
    var line := start;
    MentionedSplit(regions, i);
    assert Mentioned(regions) == done + RangeLines(start, end) + later;
    while line <= end
      invariant start <= line
      invariant Mentioned(regions) == done + RangeLines(line, end) + later
      invariant Mentioned(regions[..i + 1]) == done + RangeLines(line, end)
      invariant Taken(selected, done, budget)
    {
      ghost var rest := RangeLines(line + 1, end);
      assert done + RangeLines(line, end) + later == done + [line] + (rest + later);
      assert done + RangeLines(line, end) == done + [line] + rest;
      assert done + [line] + (rest + later) == done + [line] + rest + later;
      TakeLine(selected, done, line, rest + later, regions, budget);
      if line in selected {
        assert selected + {line} == selected;
        AlreadyTaken(selected, done, line, budget);
      } else {
        selected := selected + {line};
        if |selected| == budget {
          return selected, true;
        }
      }
      done := done + [line];
      line := line + 1;
    }
    assert RangeLines(line, end) == [];
    assert done + RangeLines(line, end) == done;
  }

  lemma AlreadyTaken(selected: set<int>, done: seq<int>, line: int, budget: int)
    requires Taken(selected, done, budget) && line in selected
    ensures Taken(selected, done + [line], budget)
  {
    FirstsMembers(done);
    assert line in Members(Firsts(done));
    assert (done + [line])[..|done|] == done;
  }

  /** `_limit_regions_to_line_budget`, with the selected lines before they become regions. */
  method LimitToBudget(regions: seq<(int, int)>, budget: int) returns (selected: set<int>)
    ensures selected == FirstLines(regions, budget)
  {
    selected := {};
    assert Taken(selected, Mentioned(regions[..0]), budget);
    for i := 0 to |regions|
      invariant Taken(selected, Mentioned(regions[..i]), budget)
    {
      var full;
      selected, full := TakeRegion(regions, i, selected, budget);
      if full {
        return;
      }
    }
    assert regions[..|regions|] == regions;
    TakenAll(selected, regions, budget);
  }

  // ----- merging

  /** `_merge_regions` over regions of a file. */
  method MergeRegions(regions: seq<(int, int)>, ghost total: nat) returns (merged: seq<(int, int)>)
    requires InRange(regions, total)
    ensures InRange(merged, total) && Separated(merged)
    ensures forall line :: 1 <= line <= total ==> (Covers(merged, line) <==> Covers(regions, line))
  {
    hide *;
    var sorted := StableSort(regions, RegionLe);
    SortedRegions(regions, total);
    InRangeMeets(sorted, 0, total);
    merged := [];
    NoWindows(total, sorted);
    for i := 0 to |sorted|
      invariant merged == Windows(total, sorted, 0, i)
    {
      NextRegion(total, sorted, i);
      merged := WithWindow(merged, sorted[i].0, sorted[i].1);
    }
    MergedCover(merged, sorted, total);
    SameCovers(regions, sorted);
  }

  lemma NoWindows(total: nat, sorted: seq<(int, int)>)
    ensures Windows(total, sorted, 0, 0) == []
  {
  }

  /** Regions of the file need no clamping. */
  lemma NextRegion(total: nat, sorted: seq<(int, int)>, i: nat)
    requires InRange(sorted, total) && i < |sorted|
    ensures Windows(total, sorted, 0, i + 1) == WithWindow(Windows(total, sorted, 0, i), sorted[i].0, sorted[i].1)
  {
  }

  lemma MergedCover(merged: seq<(int, int)>, sorted: seq<(int, int)>, total: nat)
    requires InRange(sorted, total) && SortedStarts(sorted) && merged == Windows(total, sorted, 0, |sorted|)
    ensures InRange(merged, total) && Separated(merged)
    ensures forall line :: 1 <= line <= total ==> (Covers(merged, line) <==> Covers(sorted, line))
  {
    WindowsCover(total, sorted, 0, |sorted|);
    InRangeMeets(sorted, 0, total);
    MeetingLeavesNoneEmpty(total, sorted, 0, |sorted|);
    assert sorted[..|sorted|] == sorted && Widened(sorted, 0) == sorted;
    ProperWindows(merged, sorted, total);
  }

  lemma SortedRegions(regions: seq<(int, int)>, total: nat)
    requires InRange(regions, total)
    ensures var sorted := StableSort(regions, RegionLe);
      && InRange(sorted, total)
      && SortedStarts(sorted)
  {
    var sorted := StableSort(regions, RegionLe);
    SortSorts(regions, RegionLe);
    forall k | 0 <= k < |sorted| ensures 1 <= sorted[k].0 <= sorted[k].1 <= total {
      SortedFrom(regions, RegionLe, k);
    }
    forall i, j | 0 <= i < j < |sorted| ensures sorted[i].0 <= sorted[j].0 {
      assert RegionLe(sorted[i], sorted[j]);
    }
  }

  lemma SameCovers(regions: seq<(int, int)>, sorted: seq<(int, int)>)
    requires sorted == StableSort(regions, RegionLe)
    ensures forall line :: Covers(regions, line) <==> Covers(sorted, line)
  {
    SameElements(regions, RegionLe);
    hide StableSort, RegionLe, Covers;
    forall line ensures Covers(regions, line) <==> Covers(sorted, line) {
      CoversMore(regions, sorted, line);
      CoversMore(sorted, regions, line);
    }
  }

  lemma CoversMore(a: seq<(int, int)>, b: seq<(int, int)>, line: int)
    requires forall x :: x in a ==> x in b
    ensures Covers(a, line) ==> Covers(b, line)
  {
    if Covers(a, line) {
      var k :| 0 <= k < |a| && a[k].0 <= line <= a[k].1;
      assert a[k] in b;
    }
  }

  /** `_limit_regions_to_line_budget` */
  method LimitRegionsToLineBudget(regions: seq<(int, int)>, budget: int, total: nat) returns (limited: seq<(int, int)>)
    requires InRange(regions, total)
    ensures InRange(limited, total)
    ensures forall line :: 1 <= line <= total ==> (Covers(limited, line) <==> line in FirstLines(regions, budget))
  {
    var selected := LimitToBudget(regions, budget);
    FirstLinesCovered(regions, budget, total);
    var lines := SortedElements(selected);
    var singles: seq<(int, int)> := seq(|lines|, k requires 0 <= k < |lines| => (lines[k], lines[k]));
    hide FirstLines;
    SinglesCover(lines, singles, selected, total);
    limited := MergeRegions(singles, total);
  }

  lemma SinglesCover(lines: seq<int>, singles: seq<(int, int)>, selected: set<int>, total: nat)
    requires forall line :: line in lines <==> line in selected
    requires forall line :: line in selected ==> 1 <= line <= total
    requires |singles| == |lines| && forall k :: 0 <= k < |lines| ==> singles[k] == (lines[k], lines[k])
    ensures InRange(singles, total)
    ensures forall line :: Covers(singles, line) <==> line in selected
  {
    forall k | 0 <= k < |singles| ensures 1 <= singles[k].0 <= singles[k].1 <= total {
      assert lines[k] in lines;
    }
    forall line ensures Covers(singles, line) <==> line in selected {
      if line in selected {
        assert line in lines;
        var k :| 0 <= k < |lines| && lines[k] == line;
        assert singles[k] == (line, line);
      }
      if Covers(singles, line) {
        var k :| 0 <= k < |singles| && singles[k].0 <= line <= singles[k].1;
        assert lines[k] in lines;
      }
    }
  }

  lemma {:induction false} RangeMembers(first: int, last: int)
    ensures forall x :: x in RangeLines(first, last) <==> first <= x <= last
    decreases last - first
  {
    if first <= last { RangeMembers(first + 1, last); }
  }

  lemma {:induction false} MentionedMembers(regions: seq<(int, int)>)
    ensures forall x :: x in Mentioned(regions) <==> Covers(regions, x)
  {
    if regions != [] {
      RangeMembers(regions[0].0, regions[0].1);
      MentionedMembers(regions[1..]);
      forall x ensures x in Mentioned(regions) <==> Covers(regions, x) {
        if Covers(regions[1..], x) {
          var k :| 0 <= k < |regions[1..]| && regions[1..][k].0 <= x <= regions[1..][k].1;
          assert regions[k + 1] == regions[1..][k];
        }
        if Covers(regions, x) {
          var k :| 0 <= k < |regions| && regions[k].0 <= x <= regions[k].1;
          assert k > 0 ==> regions[1..][k - 1] == regions[k];
        }
      }
    }
  }

  /** The first lines are covered by the regions, and there are min(budget, all) of them. */
  lemma FirstLinesCovered(regions: seq<(int, int)>, budget: int, total: nat)
    requires InRange(regions, total)
    ensures forall line :: line in FirstLines(regions, budget) ==> 1 <= line <= total && Covers(regions, line)
    ensures forall line :: Covers(regions, line) <==> line in Members(Mentioned(regions))
    ensures |FirstLines(regions, budget)| ==
      var all := |Members(Mentioned(regions))|; if 1 <= budget < all then budget else all
  {
    var lines := Firsts(Mentioned(regions));
    FirstsMembers(Mentioned(regions));
    MentionedMembers(regions);
    forall line | line in FirstLines(regions, budget) ensures 1 <= line <= total && Covers(regions, line) {
      assert line in lines;
      assert line in Members(lines);
    }
    if 1 <= budget < |lines| {
      FirstsSize(Mentioned(regions), budget);
    }
  }

  lemma {:induction false} FirstsSize(s: seq<int>, k: nat)
    requires k <= |Firsts(s)|
    ensures |Members(Firsts(s)[..k])| == k
  {
    if s != [] {
      var before, x := s[..|s| - 1], s[|s| - 1];
      if k <= |Firsts(before)| {
        FirstsSize(before, k);
        assert Firsts(s)[..k] == Firsts(before)[..k];
      } else {
        FirstsMembers(s);
        assert Firsts(s)[..k] == Firsts(s);
      }
    }
  }

  /** Everything the leading regions cover is among the first lines, if it fits. */
  lemma LeadingRegionsFit(lead: seq<(int, int)>, regions: seq<(int, int)>, budget: int, line: int)
    requires lead <= regions && budget >= 1 && |Members(Mentioned(lead))| <= budget && Covers(lead, line)
    ensures line in FirstLines(regions, budget)
  {
    var rest := regions[|lead|..];
    assert regions == lead + rest;
    MentionedAppend(lead, rest);
    FirstsPrefix(Mentioned(lead), Mentioned(rest));
    FirstsMembers(Mentioned(lead));
    MentionedMembers(lead);
    var firsts, lines := Firsts(Mentioned(lead)), Firsts(Mentioned(regions));
    assert line in Members(firsts);
    assert line in firsts;
    var k :| 0 <= k < |firsts| && firsts[k] == line;
    assert lines[k] == line;
    if budget < |lines| {
      assert lines[..budget][k] == line;
    }
  }

  /** Nothing else is among them, if it fills the budget. */
  lemma LeadingRegionsFill(lead: seq<(int, int)>, regions: seq<(int, int)>, budget: int, line: int)
    requires lead <= regions && 1 <= budget <= |Members(Mentioned(lead))| && line in FirstLines(regions, budget)
    ensures Covers(lead, line)
  {
    var rest := regions[|lead|..];
    assert regions == lead + rest;
    MentionedAppend(lead, rest);
    FirstsPrefix(Mentioned(lead), Mentioned(rest));
    FirstsMembers(Mentioned(lead));
    MentionedMembers(lead);
    var firsts, lines := Firsts(Mentioned(lead)), Firsts(Mentioned(regions));
    assert lines[..budget] == firsts[..budget];
    assert line in lines[..budget] by {
      if budget == |lines| { assert lines[..budget] == lines; }
    }
    assert line in firsts;
    assert line in Members(firsts);
  }

  // ----- the folded view

  predicate MoreSalient(a: (int, real), b: (int, real)) {
    a.1 > b.1 || (a.1 == b.1 && a.0 <= b.0)
  }

  /** `_salient_regions`: a window around each scored line, most salient line first. */
  function SalientRegions(scores: seq<(int, real)>, total: nat): seq<(int, int)> {
    WindowsAround(StableSort(scores, MoreSalient), total)
  }

  function WindowsAround(scores: seq<(int, real)>, total: nat): (r: seq<(int, int)>)
    ensures |r| == |scores|
  {
    seq(|scores|, k requires 0 <= k < |scores| =>
      (Max(1, scores[k].0 - AROUND_SALIENT_LINE), Min(total, scores[k].0 + AROUND_SALIENT_LINE)))
  }

  /** The scored lines lie in the file. */
  ghost predicate ScoresInFile(scores: seq<(int, real)>, total: nat) {
    forall s :: s in scores ==> 1 <= s.0 <= total
  }

  lemma SalientInRange(scores: seq<(int, real)>, total: nat)
    requires ScoresInFile(scores, total)
    ensures InRange(SalientRegions(scores, total), total)
  {
    var sorted := StableSort(scores, MoreSalient);
    forall k | 0 <= k < |sorted| ensures 1 <= sorted[k].0 <= total {
      SortedFrom(scores, MoreSalient, k);
    }
  }

  function Clamp(range: Option<(int, int)>, total: nat): seq<(int, int)> {
    if range.Some? && total > 0 && Max(1, range.value.0) <= Min(total, range.value.1) then
      [(Max(1, range.value.0), Min(total, range.value.1))]
    else []
  }

  /** The ranges of the visible spans, in order. */
  function VisibleRegions(spans: seq<Span>): seq<(int, int)> {
    if spans == [] then []
    else (if spans[0].visible then [(spans[0].start, spans[0].end)] else []) + VisibleRegions(spans[1..])
  }

  method VisibleRegionsFromSpans(spans: seq<Span>) returns (regions: seq<(int, int)>)
    ensures regions == VisibleRegions(spans)
  {
    regions := [];
    for i := 0 to |spans|
      invariant regions + VisibleRegions(spans[i..]) == VisibleRegions(spans)
    {
      assert spans[i..][1..] == spans[i + 1..];
      if spans[i].visible {
        regions := regions + [(spans[i].start, spans[i].end)];
      }
    }
  }

  /** They lie in the file and cover exactly what the spans show. */
  lemma {:induction false} VisibleRegionsCover(spans: seq<Span>, lo: int, total: int)
    requires Tiles(spans, lo, total) && 1 <= lo
    ensures InRange(VisibleRegions(spans), total)
    ensures forall line :: Covers(VisibleRegions(spans), line) <==> Shows(spans, line)
  {
    if spans != [] {
      VisibleRegionsCover(spans[1..], spans[0].end + 1, total);
      var first, rest := if spans[0].visible then [(spans[0].start, spans[0].end)] else [], VisibleRegions(spans[1..]);
      InRangeAppend(first, rest, total);
      forall line ensures Covers(first + rest, line) <==> Covers(first, line) || Covers(rest, line) {
        CoversEither(first, rest, line);
      }
      assert spans[0].visible ==> first[0] == (spans[0].start, spans[0].end);
    }
  }

  lemma CoversEither(a: seq<(int, int)>, b: seq<(int, int)>, line: int)
    ensures Covers(a + b, line) <==> Covers(a, line) || Covers(b, line)
  {
    assert forall k :: 0 <= k < |a| ==> (a + b)[k] == a[k];
    assert forall k :: 0 <= k < |b| ==> (a + b)[|a| + k] == b[k];
  }

  /** The windows around the edited lines. */
  function EditWindows(scores: seq<(int, real)>, edited: set<int>, total: nat): seq<(int, int)> {
    SalientRegions(OnlyLines(scores, edited), total)
  }

  function OnlyLines(scores: seq<(int, real)>, lines: set<int>): seq<(int, real)> {
    if scores == [] then []
    else if scores[0].0 in lines then [scores[0]] + OnlyLines(scores[1..], lines)
    else OnlyLines(scores[1..], lines)
  }

  function OtherLines(scores: seq<(int, real)>, lines: set<int>): seq<(int, real)> {
    if scores == [] then []
    else if scores[0].0 in lines then OtherLines(scores[1..], lines)
    else [scores[0]] + OtherLines(scores[1..], lines)
  }

  lemma {:induction false} SplitScores(scores: seq<(int, real)>, lines: set<int>, total: nat)
    requires ScoresInFile(scores, total)
    ensures ScoresInFile(OnlyLines(scores, lines), total) && ScoresInFile(OtherLines(scores, lines), total)
    ensures |OnlyLines(scores, lines)| + |OtherLines(scores, lines)| == |scores|
  {
    if scores != [] {
      assert scores[0] in scores;
      forall s | s in scores[1..] ensures 1 <= s.0 <= total {
        assert s in scores;
      }
      SplitScores(scores[1..], lines, total);
    }
  }

  /** The regions in priority order: edits, the latest read, other salient lines, the outline. */
  function Wanted(scores: seq<(int, real)>, edited: set<int>, latestRead: Option<(int, int)>, outline: seq<Span>,
                  total: nat): seq<(int, int)> {
    EditWindows(scores, edited, total) + Clamp(latestRead, total) + SalientRegions(OtherLines(scores, edited), total)
    + VisibleRegions(outline)
  }

  /** A file that was read whole brings the small outline with it. */
  ghost predicate OutlineFor(outline: seq<Span>, root: ContentNode, hasWholeFileRead: bool) {
    if hasWholeFileRead then IsCollapse(outline, root, OUTLINE_LINE_BUDGET) else outline == []
  }

  /** `spans` are the folded view of the regions: their first distinct lines, at most a budget of them. */
  ghost predicate FoldedViewOf(spans: seq<Span>, total: nat, regions: seq<(int, int)>) {
    InRange(regions, total) && spans == RunsOf(1, total, FirstLines(regions, LINE_BUDGET))
  }

  lemma InRangeAppend(a: seq<(int, int)>, b: seq<(int, int)>, total: nat)
    requires InRange(a, total) && InRange(b, total)
    ensures InRange(a + b, total)
  {
  }

  lemma PriorityRegions(scores: seq<(int, real)>, edited: set<int>, latestRead: Option<(int, int)>, total: nat)
    requires ScoresInFile(scores, total)
    ensures InRange(EditWindows(scores, edited, total), total)
    ensures InRange(Clamp(latestRead, total), total)
    ensures InRange(SalientRegions(OtherLines(scores, edited), total), total)
    ensures EditWindows(scores, edited, total) == [] && SalientRegions(OtherLines(scores, edited), total) == [] ==> scores == []
  {
    SplitScores(scores, edited, total);
    SalientInRange(OnlyLines(scores, edited), total);
    SalientInRange(OtherLines(scores, edited), total);
  }

  /** The loop-free assembly of the regions. */
  method WantedRegions(root: ContentNode, scores: seq<(int, real)>, edited: set<int>,
                       latestRead: Option<(int, int)>, hasWholeFileRead: bool)
    returns (regions: seq<(int, int)>, ghost outline: seq<Span>)
    requires root.start == 1 && WellFormed(root) && 1 <= root.end && ScoresInFile(scores, root.end)
    ensures OutlineFor(outline, root, hasWholeFileRead)
    ensures regions == Wanted(scores, edited, latestRead, outline, root.end) && InRange(regions, root.end)
  {
    hide *;
    var total := root.end;
    PriorityRegions(scores, edited, latestRead, total);
    regions := EditWindows(scores, edited, total);
    InRangeAppend(regions, Clamp(latestRead, total), total);
    regions := regions + Clamp(latestRead, total);
    InRangeAppend(regions, SalientRegions(OtherLines(scores, edited), total), total);
    regions := regions + SalientRegions(OtherLines(scores, edited), total);
    outline := [];
    NoOutline(root);
    ghost var before := regions;
    if hasWholeFileRead {
      var spans := ComputeCollapse(root, OUTLINE_LINE_BUDGET);
      var outlined := VisibleRegionsFromSpans(spans);
      outline := spans;
      CollapseIsOutline(spans, root);
      InRangeAppend(regions, outlined, total);
      regions := regions + outlined;
    }
    assert regions == before + VisibleRegions(outline);
    WantedIs(scores, edited, latestRead, outline, total);
  }

  lemma NoOutline(root: ContentNode)
    ensures OutlineFor([], root, false) && VisibleRegions([]) == []
  {
  }

  lemma WantedIs(scores: seq<(int, real)>, edited: set<int>, latestRead: Option<(int, int)>, outline: seq<Span>, total: nat)
    ensures Wanted(scores, edited, latestRead, outline, total) ==
      EditWindows(scores, edited, total) + Clamp(latestRead, total) + SalientRegions(OtherLines(scores, edited), total)
      + VisibleRegions(outline)
  {
  }

  lemma CollapseIsOutline(spans: seq<Span>, root: ContentNode)
    requires root.start == 1 && WellFormed(root) && IsCollapse(spans, root, OUTLINE_LINE_BUDGET)
    ensures OutlineFor(spans, root, true) && InRange(VisibleRegions(spans), root.end)
  {
    CollapseTiles(spans, root, OUTLINE_LINE_BUDGET);
    VisibleRegionsCover(spans, 1, root.end);
  }

  /** `_spans_for_folded_context`, for a file with the given content hierarchy. */
  method SpansForFoldedContext(root: ContentNode, scores: seq<(int, real)>, edited: set<int>,
                               latestRead: Option<(int, int)>, hasWholeFileRead: bool)
    returns (spans: seq<Span>, ghost regions: seq<(int, int)>, ghost outline: seq<Span>)
    requires root.start == 1 && WellFormed(root) && 1 <= root.end && ScoresInFile(scores, root.end)
    ensures root.end <= LINE_BUDGET ==> spans == [Span(1, root.end, true)]
    ensures root.end > LINE_BUDGET ==>
      && OutlineFor(outline, root, hasWholeFileRead)
      && regions == Wanted(scores, edited, latestRead, outline, root.end)
      && (if regions != [] then FoldedViewOf(spans, root.end, regions) else IsCollapse(spans, root, LINE_BUDGET))
  {
    var total := root.end;
    regions, outline := [], [];
    if total <= LINE_BUDGET {
      WholeFile(total);
      RunsOfRegions(total, [(1, total)], 0);
      spans := SpansForRegions(total, [(1, total)], 0);
      return;
    }
    var wanted;
    wanted, outline := WantedRegions(root, scores, edited, latestRead, hasWholeFileRead);
    regions := wanted;
    if wanted == [] {
      spans := ComputeCollapse(root, LINE_BUDGET);
      return;
    }
    spans := ViewOfRegions(wanted, total);
  }

  method ViewOfRegions(regions: seq<(int, int)>, total: nat) returns (spans: seq<Span>)
    requires InRange(regions, total)
    ensures spans == RunsOf(1, total, FirstLines(regions, LINE_BUDGET))
  {
    hide *;
    var limited := LimitRegionsToLineBudget(regions, LINE_BUDGET, total);
    FirstLinesCovered(regions, LINE_BUDGET, total);
    WindowIsCover(total, limited, FirstLines(regions, LINE_BUDGET));
    InRangeMeets(limited, 0, total);
    RunsOfRegions(total, limited, 0);
    spans := SpansForRegions(total, limited, 0);
  }

  lemma WindowIsCover(total: nat, limited: seq<(int, int)>, lines: set<int>)
    requires forall line :: 1 <= line <= total ==> (Covers(limited, line) <==> line in lines)
    requires forall line :: line in lines ==> 1 <= line <= total
    ensures Window(total, limited, 0) == lines
  {
    assert Widened(limited, 0) == limited;
  }

  lemma WholeFile(total: nat)
    requires total > 0
    ensures InRange([(1, total)], total)
    ensures RunsOf(1, total, Window(total, [(1, total)], 0)) == [Span(1, total, true)]
  {
    var region := [(1, total)];
    assert region[0] == (1, total);
    assert Widened(region, 0) == region;
    var spans := [Span(1, total, true)];
    One(spans[0]);
    forall line | 1 <= line <= total ensures line in Window(total, [(1, total)], 0) {
      assert region[0].0 <= line <= region[0].1;
    }
    RunsUnique(spans, 1, total, Window(total, [(1, total)], 0));
  }

  lemma MentionedAreCovered(regions: seq<(int, int)>, total: nat)
    requires InRange(regions, total)
    ensures Members(Mentioned(regions)) == CoveredLines(regions, total)
  {
    MentionedMembers(regions);
    hide Mentioned;
    forall line ensures line in Members(Mentioned(regions)) <==> line in CoveredLines(regions, total) {
    }
  }

  lemma ShownAreFirst(total: nat, lines: set<int>)
    requires forall line :: line in lines ==> 1 <= line <= total
    ensures Tiles(RunsOf(1, total, lines), 1, total)
    ensures ShownLines(RunsOf(1, total, lines), total) == lines
  {
    RunsOfShows(1, total, lines);
    hide RunsOf, Shows;
  }

  /** A partition of the file that shows min(80, all) of the wanted lines and no others. */
  lemma ViewShowsWanted(spans: seq<Span>, total: nat, regions: seq<(int, int)>)
    requires FoldedViewOf(spans, total, regions)
    ensures Tiles(spans, 1, total)
    ensures ShownLines(spans, total) == FirstLines(regions, LINE_BUDGET) <= CoveredLines(regions, total)
    ensures |ShownLines(spans, total)| == Min(|CoveredLines(regions, total)|, LINE_BUDGET)
  {
    FirstLinesCovered(regions, LINE_BUDGET, total);
    MentionedAreCovered(regions, total);
    ShownAreFirst(total, FirstLines(regions, LINE_BUDGET));
  }

  /** Priority is kept: leading regions are shown whole when they fit, and nothing else is shown when
      they fill the view. */
  lemma LeadingShown(spans: seq<Span>, total: nat, lead: seq<(int, int)>, regions: seq<(int, int)>)
    requires FoldedViewOf(spans, total, regions) && lead <= regions
    ensures |CoveredLines(lead, total)| <= LINE_BUDGET ==> CoveredLines(lead, total) <= ShownLines(spans, total)
    ensures |CoveredLines(lead, total)| >= LINE_BUDGET ==> ShownLines(spans, total) <= CoveredLines(lead, total)
  {
    ViewShowsWanted(spans, total, regions);
    assert InRange(lead, total) by {
      assert forall k :: 0 <= k < |lead| ==> lead[k] == regions[k];
    }
    MentionedAreCovered(lead, total);
    hide FirstLines, RunsOf, ShownLines, Mentioned, Members;
    if |CoveredLines(lead, total)| <= LINE_BUDGET {
      forall line | line in CoveredLines(lead, total) ensures line in ShownLines(spans, total) {
        LeadingRegionsFit(lead, regions, LINE_BUDGET, line);
      }
    }
    if |CoveredLines(lead, total)| >= LINE_BUDGET {
      forall line | line in ShownLines(spans, total) ensures line in CoveredLines(lead, total) {
        LeadingRegionsFill(lead, regions, LINE_BUDGET, line);
      }
    }
  }

  /** The wanted view of a file over the budget shows every line of every edit window when those have at
      most 80 lines, and the latest read with them when together they do, however much else is wanted;
      and nothing else as long as they have more. */
  lemma EditsStayVisible(spans: seq<Span>, total: nat, scores: seq<(int, real)>, edited: set<int>,
                         latestRead: Option<(int, int)>, outline: seq<Span>)
    requires FoldedViewOf(spans, total, Wanted(scores, edited, latestRead, outline, total))
    ensures var edits := CoveredLines(EditWindows(scores, edited, total), total);
      && (|edits| <= LINE_BUDGET ==> edits <= ShownLines(spans, total))
      && (|edits| >= LINE_BUDGET ==> ShownLines(spans, total) <= edits)
    ensures var both := CoveredLines(EditWindows(scores, edited, total) + Clamp(latestRead, total), total);
      && (|both| <= LINE_BUDGET ==> both <= ShownLines(spans, total))
      && (|both| >= LINE_BUDGET ==> ShownLines(spans, total) <= both)
    ensures var marked := CoveredLines(EditWindows(scores, edited, total) + Clamp(latestRead, total)
                                       + SalientRegions(OtherLines(scores, edited), total), total);
      && (|marked| <= LINE_BUDGET ==> marked <= ShownLines(spans, total))
      && (|marked| >= LINE_BUDGET ==> ShownLines(spans, total) <= marked)
  {
    var regions := Wanted(scores, edited, latestRead, outline, total);
    var edits, read := EditWindows(scores, edited, total), Clamp(latestRead, total);
    var others := SalientRegions(OtherLines(scores, edited), total);
    hide EditWindows, Clamp, SalientRegions, OtherLines, FoldedViewOf, ShownLines, CoveredLines, VisibleRegions;
    assert regions == edits + (read + others + VisibleRegions(outline));
    LeadingShown(spans, total, edits, regions);
    LeadingShown(spans, total, edits + read, regions);
    LeadingShown(spans, total, edits + read + others, regions);
  }
}
