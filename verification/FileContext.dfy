// One file's section of the folded file context: its scored lines, its view, and what of it is shown.
module FileContext {
  import opened Collapse
  import opened Content
  import opened FoldedView
  import opened LineNumbers
  import opened Optional
  import opened Rendering
  import opened Requirements
  import opened Sorting
  import opened Spans
  import opened Text
  import Folding
  import Outline

  const CHAR_BUDGET: int := 20000
  const SALIENCE_DECAY: real := 0.88

  datatype Marker = ReadMarker | SearchMarker | EditMarker | EditContextMarker {
    function Text(): string {
      match this
      case ReadMarker => "*"
      case SearchMarker => "!"
      case EditMarker => "~"
      case EditContextMarker => "-"
    }
  }

  /** What one call observed of the file's lines, or changed in them. */
  datatype Observed = Observed(isRead: bool, range: Option<(int, int)>, whole: bool, searched: seq<int>,
                               edited: seq<int>, editContext: seq<int>, sequenceIndex: nat)

  function Power(x: real, n: nat): real {
    if n == 0 then 1.0 else x * Power(x, n - 1)
  }

  // ----- what makes lines salient

  /** A line becomes more salient, and is marked. */
  datatype Touch = Touch(line: int, salience: real, marker: Marker)

  function Touches(lines: seq<int>, salience: real, marker: Marker): (r: seq<Touch>)
    ensures |r| == |lines|
  {
    seq(|lines|, k requires 0 <= k < |lines| => Touch(lines[k], salience, marker))
  }

  /** The lines of a range that lie in the file. */
  function ClampedLines(range: Option<(int, int)>, total: nat): seq<int> {
    var clamped := Clamp(range, total);
    if clamped == [] then [] else RangeLines(clamped[0].0, clamped[0].1)
  }

  function ObservedTouches(o: Observed, latest: nat, total: nat): seq<Touch>
    requires o.sequenceIndex <= latest
  {
    var decay := Power(SALIENCE_DECAY, latest - o.sequenceIndex);
    Touches(ClampedLines(o.range, total), 4.0 * decay, ReadMarker)
    + Touches(o.searched, 5.0 * decay, SearchMarker)
    + Touches(o.edited, 6.0 * decay, EditMarker)
    + Touches(o.editContext, 6.0 * decay, EditContextMarker)
  }

  ghost predicate NoneAfter(all: seq<Observed>, latest: nat) {
    forall i :: 0 <= i < |all| ==> all[i].sequenceIndex <= latest
  }

  function AllTouches(all: seq<Observed>, latest: nat, total: nat): seq<Touch>
    requires NoneAfter(all, latest)
  {
    if all == [] then []
    else
      assert forall i :: 0 <= i < |all| - 1 ==> all[..|all| - 1][i] == all[i];
      AllTouches(all[..|all| - 1], latest, total) + ObservedTouches(all[|all| - 1], latest, total)
  }

  // ----- the scores, as a dictionary in order of insertion

  datatype Scored = Scored(scores: seq<(int, real)>, markers: map<int, set<Marker>>)

  /** The position of the line's score, or |scores|. */
  function ScoreOf(scores: seq<(int, real)>, line: int): (i: nat)
    ensures i <= |scores|
    ensures i < |scores| ==> scores[i].0 == line
    ensures forall k :: 0 <= k < i ==> scores[k].0 != line
  {
    if scores == [] || scores[0].0 == line then 0 else 1 + ScoreOf(scores[1..], line)
  }

  /** `_add_line_salience` */
  function WithTouch(s: Scored, t: Touch, total: nat): Scored {
    if t.line < 1 || t.line > total then s
    else
      var i := ScoreOf(s.scores, t.line);
      Scored(
        if i < |s.scores| then s.scores[i := (t.line, s.scores[i].1 + t.salience)] else s.scores + [(t.line, 0.0 + t.salience)],
        s.markers[t.line := (if t.line in s.markers then s.markers[t.line] else {}) + {t.marker}])
  }

  function WithTouches(s: Scored, touches: seq<Touch>, total: nat): Scored {
    if touches == [] then s
    else WithTouch(WithTouches(s, touches[..|touches| - 1], total), touches[|touches| - 1], total)
  }

  lemma {:induction false} TouchesAppend(s: Scored, a: seq<Touch>, b: seq<Touch>, total: nat)
    ensures WithTouches(s, a + b, total) == WithTouches(WithTouches(s, a, total), b, total)
  {
    if b == [] {
      assert a + b == a;
    } else {
      assert (a + b)[..|a + b| - 1] == a + b[..|b| - 1];
      TouchesAppend(s, a, b[..|b| - 1], total);
    }
  }

  /** The loops over single lines. */
  method AddLines(s: Scored, lines: seq<int>, salience: real, marker: Marker, total: nat) returns (r: Scored)
    ensures r == WithTouches(s, Touches(lines, salience, marker), total)
  {
    r := s;
    ghost var touches := Touches(lines, salience, marker);
    for i := 0 to |lines|
      invariant r == WithTouches(s, touches[..i], total)
    {
      assert touches[..i + 1][..i] == touches[..i];
      r := WithTouch(r, Touch(lines[i], salience, marker), total);
    }
    assert touches[..|lines|] == touches;
  }

  /** `_add_range_salience` */
  method AddRange(s: Scored, range: Option<(int, int)>, salience: real, marker: Marker, total: nat) returns (r: Scored)
    ensures r == WithTouches(s, Touches(ClampedLines(range, total), salience, marker), total)
  {
    r := s;
    var clamped := Clamp(range, total);
    if clamped == [] {
      return;
    }
    var lines: seq<int> := [];
    var line := clamped[0].0;
    while line <= clamped[0].1
      invariant lines + RangeLines(line, clamped[0].1) == ClampedLines(range, total)
      invariant r == WithTouches(s, Touches(lines, salience, marker), total)
      decreases clamped[0].1 - line
    {
      var more := lines + [line];
      assert Touches(more, salience, marker)[..|lines|] == Touches(lines, salience, marker);
      assert more + RangeLines(line + 1, clamped[0].1) == lines + RangeLines(line, clamped[0].1);
      r := WithTouch(r, Touch(line, salience, marker), total);
      lines := more;
      line := line + 1;
    }
    assert lines + [] == lines;
  }

  /** The latest sequence index. */
  method LatestIndex(all: seq<Observed>) returns (latest: nat)
    ensures NoneAfter(all, latest)
    ensures all != [] ==> exists i :: 0 <= i < |all| && all[i].sequenceIndex == latest
  {
    latest := 0;
    for i := 0 to |all|
      invariant forall k :: 0 <= k < i ==> all[k].sequenceIndex <= latest
      invariant i == 0 ==> latest == 0
      invariant i > 0 ==> exists k :: 0 <= k < i && all[k].sequenceIndex == latest
    {
      if i == 0 || all[i].sequenceIndex > latest {
        latest := all[i].sequenceIndex;
      }
    }
  }

  const Unscored: Scored := Scored([], map[])

  /** `_score_file_lines` */
  method ScoreFileLines(all: seq<Observed>, total: nat) returns (s: Scored, whole: bool, latest: nat)
    ensures NoneAfter(all, latest) && (all != [] ==> exists i :: 0 <= i < |all| && all[i].sequenceIndex == latest)
    ensures s == WithTouches(Unscored, AllTouches(all, latest, total), total)
    ensures whole <==> exists i :: 0 <= i < |all| && all[i].whole
  {
    hide *;
    latest := LatestIndex(all);
    s, whole := Unscored, false;
    NoTouches(all, latest, total);
    for i := 0 to |all|
      invariant NoneAfter(all[..i], latest)
      invariant s == WithTouches(Unscored, AllTouches(all[..i], latest, total), total)
      invariant whole <==> exists k :: 0 <= k < i && all[k].whole
    {
      OneMoreTouches(all, latest, total, i);
      s := ScoreOne(s, all[i], latest, total);
      TouchesAppend(Unscored, AllTouches(all[..i], latest, total), ObservedTouches(all[i], latest, total), total);
      whole := whole || all[i].whole;
    }
    assert all[..|all|] == all;
  }

  lemma NoTouches(all: seq<Observed>, latest: nat, total: nat)
    ensures NoneAfter(all[..0], latest) && WithTouches(Unscored, AllTouches(all[..0], latest, total), total) == Unscored
  {
  }

  lemma OneMoreTouches(all: seq<Observed>, latest: nat, total: nat, i: nat)
    requires i < |all| && NoneAfter(all, latest)
    ensures NoneAfter(all[..i], latest) && NoneAfter(all[..i + 1], latest) && all[i].sequenceIndex <= latest
    ensures AllTouches(all[..i + 1], latest, total) ==
      AllTouches(all[..i], latest, total) + ObservedTouches(all[i], latest, total)
  {
    assert all[..i + 1][..i] == all[..i];
    hide ObservedTouches;
  }

  method ScoreOne(s: Scored, o: Observed, latest: nat, total: nat) returns (r: Scored)
    requires o.sequenceIndex <= latest
    ensures r == WithTouches(s, ObservedTouches(o, latest, total), total)
  {
    hide *;
    var decay := Power(SALIENCE_DECAY, latest - o.sequenceIndex);
    r := AddRange(s, o.range, 4.0 * decay, ReadMarker, total);
    ghost var touches := Touches(ClampedLines(o.range, total), 4.0 * decay, ReadMarker);
    r := AddLines(r, o.searched, 5.0 * decay, SearchMarker, total);
    TouchesAppend(s, touches, Touches(o.searched, 5.0 * decay, SearchMarker), total);
    touches := touches + Touches(o.searched, 5.0 * decay, SearchMarker);
    r := AddLines(r, o.edited, 6.0 * decay, EditMarker, total);
    TouchesAppend(s, touches, Touches(o.edited, 6.0 * decay, EditMarker), total);
    touches := touches + Touches(o.edited, 6.0 * decay, EditMarker);
    r := AddLines(r, o.editContext, 6.0 * decay, EditContextMarker, total);
    TouchesAppend(s, touches, Touches(o.editContext, 6.0 * decay, EditContextMarker), total);
    TouchesAre(o, latest, total);
  }

  lemma TouchesAre(o: Observed, latest: nat, total: nat)
    requires o.sequenceIndex <= latest
    ensures var decay := Power(SALIENCE_DECAY, latest - o.sequenceIndex);
      ObservedTouches(o, latest, total) ==
        Touches(ClampedLines(o.range, total), 4.0 * decay, ReadMarker) + Touches(o.searched, 5.0 * decay, SearchMarker)
        + Touches(o.edited, 6.0 * decay, EditMarker) + Touches(o.editContext, 6.0 * decay, EditContextMarker)
  {
  }

  // ----- what the scores say

  ghost predicate Touched(touches: seq<Touch>, line: int) {
    exists k :: 0 <= k < |touches| && touches[k].line == line
  }

  ghost predicate TouchedBy(touches: seq<Touch>, line: int, marker: Marker) {
    exists k :: 0 <= k < |touches| && touches[k].line == line && touches[k].marker == marker
  }

  function TotalSalience(touches: seq<Touch>, line: int): real {
    if touches == [] then 0.0
    else
      var last := touches[|touches| - 1];
      TotalSalience(touches[..|touches| - 1], line) + if last.line == line then last.salience else 0.0
  }

  ghost predicate HasScore(scores: seq<(int, real)>, line: int) {
    exists i :: 0 <= i < |scores| && scores[i].0 == line
  }

  /** One score for each line of the file that was touched, the sum of its saliences, and its markers. */
  ghost predicate ScoredFor(s: Scored, touches: seq<Touch>, total: nat) {
    && (forall i, j :: 0 <= i < j < |s.scores| ==> s.scores[i].0 != s.scores[j].0)
    && (forall line :: HasScore(s.scores, line) <==> 1 <= line <= total && Touched(touches, line))
    && (forall i :: 0 <= i < |s.scores| ==> s.scores[i].1 == TotalSalience(touches, s.scores[i].0))
    && (forall line :: line in s.markers <==> HasScore(s.scores, line))
    && (forall line, m :: line in s.markers ==> (m in s.markers[line] <==> TouchedBy(touches, line, m)))
  }

  lemma OneMoreTouched(touches: seq<Touch>, t: Touch)
    ensures forall line :: Touched(touches + [t], line) <==> Touched(touches, line) || line == t.line
    ensures forall line, m :: TouchedBy(touches + [t], line, m) <==>
      TouchedBy(touches, line, m) || (line == t.line && m == t.marker)
    ensures forall line ::
      TotalSalience(touches + [t], line) == TotalSalience(touches, line) + if line == t.line then t.salience else 0.0
  {
    var more := touches + [t];
    assert more[..|touches|] == touches;
    assert more[|touches|] == t;
    assert forall k :: 0 <= k < |touches| ==> more[k] == touches[k];
  }

  lemma {:induction false} Untouched(touches: seq<Touch>, line: int)
    ensures !Touched(touches, line) ==> TotalSalience(touches, line) == 0.0
    ensures !Touched(touches, line) ==> forall m :: !TouchedBy(touches, line, m)
  {
    if touches != [] {
      var front, last := touches[..|touches| - 1], touches[|touches| - 1];
      assert touches == front + [last];
      OneMoreTouched(front, last);
      Untouched(front, line);
    }
  }

  lemma {:induction false} ScoresAre(touches: seq<Touch>, total: nat)
    ensures ScoredFor(WithTouches(Unscored, touches, total), touches, total)
  {
    if touches != [] {
      var front, last := touches[..|touches| - 1], touches[|touches| - 1];
      ScoresAre(front, total);
      assert touches == front + [last];
      ScoreMore(WithTouches(Unscored, front, total), front, last, total);
    }
  }

  lemma ScoreMore(s: Scored, touches: seq<Touch>, t: Touch, total: nat)
    requires ScoredFor(s, touches, total)
    ensures ScoredFor(WithTouch(s, t, total), touches + [t], total)
  {
    OneMoreTouched(touches, t);
    Untouched(touches, t.line);
    if 1 <= t.line <= total {
      var r, i := WithTouch(s, t, total), ScoreOf(s.scores, t.line);
      assert i < |s.scores| <==> HasScore(s.scores, t.line);
      assert r.scores[i].0 == t.line;
      assert forall k :: 0 <= k < |s.scores| && k != i ==> r.scores[k] == s.scores[k];
      hide Touched, TouchedBy, TotalSalience;
      forall line ensures HasScore(r.scores, line) <==> HasScore(s.scores, line) || line == t.line {
        if HasScore(s.scores, line) {
          var k :| 0 <= k < |s.scores| && s.scores[k].0 == line;
          assert r.scores[k].0 == line;
        }
      }
    }
  }

  // ----- edited lines

  /** `_dominant_marker` */
  function Dominant(markers: set<Marker>): Marker {
    if EditMarker in markers then EditMarker
    else if EditContextMarker in markers then EditContextMarker
    else if SearchMarker in markers then SearchMarker
    else ReadMarker
  }

  predicate IsEdited(s: Scored, line: int) {
    line in s.markers && Dominant(s.markers[line]) in {EditMarker, EditContextMarker}
  }

  function EditedOf(s: Scored, scores: seq<(int, real)>): seq<int> {
    if scores == [] then []
    else
      EditedOf(s, scores[..|scores| - 1])
      + if IsEdited(s, scores[|scores| - 1].0) then [scores[|scores| - 1].0] else []
  }

  /** The edited lines and their anchors, most salient first. */
  function RequiredLines(s: Scored): seq<int> {
    EditedOf(s, StableSort(s.scores, MoreSalient))
  }

  method RequiredEditLines(s: Scored) returns (required: seq<int>)
    ensures required == RequiredLines(s)
  {
    var sorted := StableSort(s.scores, MoreSalient);
    required := [];
    for i := 0 to |sorted|
      invariant required == EditedOf(s, sorted[..i])
    {
      assert sorted[..i + 1][..i] == sorted[..i];
      if IsEdited(s, sorted[i].0) {
        required := required + [sorted[i].0];
      }
    }
    assert sorted[..|sorted|] == sorted;
  }

  lemma {:induction false} EditedAre(s: Scored, scores: seq<(int, real)>)
    ensures forall line :: line in EditedOf(s, scores) <==> HasScore(scores, line) && IsEdited(s, line)
  {
    if scores != [] {
      var front, last := scores[..|scores| - 1], scores[|scores| - 1];
      EditedAre(s, front);
      assert forall k :: 0 <= k < |front| ==> scores[k] == front[k];
      hide IsEdited;
      forall line ensures HasScore(scores, line) <==> HasScore(front, line) || line == last.0 {
        assert scores[|scores| - 1].0 == last.0;
      }
    }
  }

  /** A line is required exactly when some call edited it or left it beside a deletion. */
  lemma RequiredAreEdited(touches: seq<Touch>, total: nat, line: int)
    ensures line in RequiredLines(WithTouches(Unscored, touches, total)) <==>
      1 <= line <= total && (TouchedBy(touches, line, EditMarker) || TouchedBy(touches, line, EditContextMarker))
  {
    var s := WithTouches(Unscored, touches, total);
    var sorted := StableSort(s.scores, MoreSalient);
    ScoresAre(touches, total);
    EditedAre(s, sorted);
    SortedScores(s.scores, line);
    MarkedIsTouched(touches, line, EditMarker);
    MarkedIsTouched(touches, line, EditContextMarker);
    hide StableSort, WithTouches, TouchedBy, Touched, HasScore;
  }

  lemma MarkedIsTouched(touches: seq<Touch>, line: int, m: Marker)
    ensures TouchedBy(touches, line, m) ==> Touched(touches, line)
  {
  }

  lemma SortedScores(scores: seq<(int, real)>, line: int)
    ensures HasScore(StableSort(scores, MoreSalient), line) <==> HasScore(scores, line)
  {
    var sorted := StableSort(scores, MoreSalient);
    SameElements(scores, MoreSalient);
    SameScores(scores, sorted, line);
    if HasScore(sorted, line) {
      var k :| 0 <= k < |sorted| && sorted[k].0 == line;
      SortedFrom(scores, MoreSalient, k);
      var i :| 0 <= i < |scores| && scores[i] == sorted[k];
    }
  }

  lemma SameScores(a: seq<(int, real)>, b: seq<(int, real)>, line: int)
    requires forall x :: x in a ==> x in b
    ensures HasScore(a, line) ==> HasScore(b, line)
  {
    if HasScore(a, line) {
      var k :| 0 <= k < |a| && a[k].0 == line;
      assert a[k] in b;
    }
  }

  // ----- the section

  /** `latest_returned_read_range` */
  function LatestRead(all: seq<Observed>): Option<(int, int)> {
    if all == [] then None
    else
      var last := all[|all| - 1];
      if last.isRead && last.range.Some? then last.range else LatestRead(all[..|all| - 1])
  }

  method LatestReturnedRead(all: seq<Observed>) returns (r: Option<(int, int)>)
    ensures r == LatestRead(all)
  {
    var i := |all|;
    assert all[..i] == all;
    while i > 0
      invariant 0 <= i <= |all| && LatestRead(all) == LatestRead(all[..i])
    {
      assert all[..i][..i - 1] == all[..i - 1];
      if all[i - 1].isRead && all[i - 1].range.Some? {
        return all[i - 1].range;
      }
      i := i - 1;
    }
    r := None;
  }

  function MarkerTexts(s: Scored): Option<map<int, string>> {
    if s.markers == map[] then None else Some(map line | line in s.markers :: Dominant(s.markers[line]).Text())
  }

  function Lines(required: seq<int>): set<int> {
    set line | line in required
  }

  /** The view of a file: whole within the line budget, otherwise its wanted regions or its collapse. */
  ghost predicate IsView(spans: seq<Span>, root: ContentNode, s: Scored, latestRead: Option<(int, int)>, whole: bool) {
    if root.end <= LINE_BUDGET then spans == [Span(1, root.end, true)]
    else
      exists outline ::
        && OutlineFor(outline, root, whole)
        && var regions := Wanted(s.scores, Lines(RequiredLines(s)), latestRead, outline, root.end);
           if regions != [] then FoldedViewOf(spans, root.end, regions) else IsCollapse(spans, root, LINE_BUDGET)
  }

  lemma ViewTiles(spans: seq<Span>, root: ContentNode, s: Scored, latestRead: Option<(int, int)>, whole: bool)
    requires IsView(spans, root, s, latestRead, whole) && root.start == 1 && WellFormed(root)
    ensures Tiles(spans, 1, root.end) && InFile(spans, root.end)
  {
    hide IsCollapse, FoldedViewOf, Wanted, RequiredLines, Lines, OutlineFor;
    if root.end > LINE_BUDGET {
      var outline :| OutlineFor(outline, root, whole)
        && var regions := Wanted(s.scores, Lines(RequiredLines(s)), latestRead, outline, root.end);
           if regions != [] then FoldedViewOf(spans, root.end, regions) else IsCollapse(spans, root, LINE_BUDGET);
      var regions := Wanted(s.scores, Lines(RequiredLines(s)), latestRead, outline, root.end);
      if regions != [] {
        ViewShowsWanted(spans, root.end, regions);
      } else {
        CollapseTiles(spans, root, LINE_BUDGET);
      }
    } else {
      assert spans[1..] == [];
    }
    Outline.TilesAreInFile(spans, 1, root.end);
  }

  /** What the section shows of the view under its character budget. */
  function SectionOutline(source: Source, spans: seq<Span>, required: seq<int>): RenderedOutline
    requires InFile(spans, |source.lines|)
  {
    if required == [] then Rendered(source, spans, CHAR_BUDGET)
    else RenderedSelection(source, Selected(source, spans, CHAR_BUDGET, required), CHAR_BUDGET)
  }

  /** `_render_folded_file_context`, for a nonempty file with the given tree, up to its text. */
  method RenderSection(lines: seq<string>, root: ContentNode, all: seq<Observed>)
    returns (outline: RenderedOutline, ghost s: Scored, ghost latest: nat, ghost spans: seq<Span>)
    requires lines != [] && root.start == 1 && root.end == |lines| && WellFormed(root)
    ensures NoneAfter(all, latest) && (all != [] ==> exists i :: 0 <= i < |all| && all[i].sequenceIndex == latest)
    ensures s == WithTouches(Unscored, AllTouches(all, latest, |lines|), |lines|)
    ensures IsView(spans, root, s, LatestRead(all), exists i :: 0 <= i < |all| && all[i].whole)
    ensures InFile(spans, |lines|) && outline == SectionOutline(Source(lines, MarkerTexts(s)), spans, RequiredLines(s))
  {
    var total := |lines|;
    hide *;
    var scored, whole, newest := ScoreFileLines(all, total);
    var required := RequiredEditLines(scored);
    var read := LatestReturnedRead(all);
    ScoresInTheFile(AllTouches(all, newest, total), total);
    var view, regions, small := SpansForFoldedContext(root, scored.scores, Lines(required), read, whole);
    IsTheView(view, regions, small, root, scored, read, whole);
    ViewTiles(view, root, scored, read, whole);
    var source := Source(lines, MarkerTexts(scored));
    outline := RenderOutline(source, view, CHAR_BUDGET, required);
    OutlineIs(source, view, required);
    s, latest, spans := scored, newest, view;
  }

  lemma OutlineIs(source: Source, spans: seq<Span>, required: seq<int>)
    requires InFile(spans, |source.lines|)
    ensures SectionOutline(source, spans, required) ==
      if required == [] then Rendered(source, spans, CHAR_BUDGET)
      else RenderedSelection(source, Selected(source, spans, CHAR_BUDGET, required), CHAR_BUDGET)
  {
  }

  lemma ScoresInTheFile(touches: seq<Touch>, total: nat)
    ensures ScoresInFile(WithTouches(Unscored, touches, total).scores, total)
  {
    ScoresAre(touches, total);
    var s := WithTouches(Unscored, touches, total);
    forall x | x in s.scores ensures 1 <= x.0 <= total {
      var k :| 0 <= k < |s.scores| && s.scores[k] == x;
      assert HasScore(s.scores, x.0);
    }
  }

  lemma IsTheView(spans: seq<Span>, regions: seq<(int, int)>, outline: seq<Span>, root: ContentNode, s: Scored,
                  latestRead: Option<(int, int)>, whole: bool)
    requires root.end <= LINE_BUDGET ==> spans == [Span(1, root.end, true)]
    requires root.end > LINE_BUDGET ==>
      && root.end >= 0 && OutlineFor(outline, root, whole)
      && regions == Wanted(s.scores, Lines(RequiredLines(s)), latestRead, outline, root.end)
      && (if regions != [] then FoldedViewOf(spans, root.end, regions) else IsCollapse(spans, root, LINE_BUDGET))
    ensures IsView(spans, root, s, latestRead, whole)
  {
  }

  // ----- what the section shows

  /** The section shows the line as it stands in the file. */
  predicate ShowsLine(outline: RenderedOutline, lines: seq<string>, n: int) {
    1 <= n <= |lines| && FileLine(n, lines[n - 1]) in outline.visibleLines
  }

  /** The line is among the pieces, and the pieces up to it fit the budget. */
  ghost predicate FitsThrough(pieces: seq<Piece>, budget: int, n: int) {
    exists k :: 0 <= k < |pieces| && pieces[k].Line? && pieces[k].number == n && Charge(pieces[..k + 1]) <= budget
  }

  lemma {:induction false} FitsIsCharge(pieces: seq<Piece>, budget: int, k: nat)
    requires k < |pieces|
    ensures k < FitCount(pieces, budget) <==> Charge(pieces[..k + 1]) <= budget
  {
    assert pieces[..k + 1][0] == pieces[0] && pieces[..k + 1][1..] == pieces[1..][..k];
    if k > 0 { FitsIsCharge(pieces[1..], budget - |pieces[0].text| - 1, k - 1); }
  }

  lemma {:induction false} VisibleIs(pieces: seq<Piece>, x: FileLine)
    ensures x in VisibleLines(pieces) <==>
      exists k :: 0 <= k < |pieces| && pieces[k].Line? && FileLine(pieces[k].number, pieces[k].content) == x
  {
    if pieces != [] {
      VisibleIs(pieces[1..], x);
      if k :| 0 <= k < |pieces| && pieces[k].Line? && FileLine(pieces[k].number, pieces[k].content) == x {
        if k > 0 { assert pieces[1..][k - 1] == pieces[k]; }
      }
      if k :| 0 <= k < |pieces[1..]| && pieces[1..][k].Line? && FileLine(pieces[1..][k].number, pieces[1..][k].content) == x {
        assert pieces[k + 1] == pieces[1..][k];
      }
    }
  }

  /** Without edits a line is shown if and only if the view has it and the view fits that far. */
  lemma RenderedShowsIff(source: Source, spans: seq<Span>, n: int)
    requires InFile(spans, |source.lines|)
    ensures ShowsLine(Rendered(source, spans, CHAR_BUDGET), source.lines, n) <==>
      FitsThrough(Pieces(source, spans), CHAR_BUDGET, n)
  {
    var pieces := Pieces(source, spans);
    NumbersInFile(source, spans, n);
    hide Pieces, Charge, FitCount, VisibleLines, FitsThrough, InFile;
    if 1 <= n <= |source.lines| {
      TakenShowsIff(pieces, CHAR_BUDGET, FileLine(n, source.lines[n - 1]));
    } else {
      NotAmong(pieces, CHAR_BUDGET, n);
    }
  }

  ghost predicate Among(pieces: seq<Piece>, n: int) {
    exists k :: 0 <= k < |pieces| && pieces[k].Line? && pieces[k].number == n
  }

  /** Numbered pieces are lines of the file. */
  ghost predicate OfFile(source: Source, pieces: seq<Piece>) {
    forall k :: 0 <= k < |pieces| && pieces[k].Line? ==>
      1 <= pieces[k].number <= |source.lines| && pieces[k].content == source.lines[pieces[k].number - 1]
  }

  lemma PiecesOfFile(source: Source, spans: seq<Span>)
    requires InFile(spans, |source.lines|)
    ensures OfFile(source, Pieces(source, spans))
  {
    var pieces := Pieces(source, spans);
    PiecesFromSource(source, spans);
    hide Pieces, FormatLine, OneLine;
    forall k | 0 <= k < |pieces| ensures FromSource(source, pieces[k]) {
      assert pieces[k] in pieces;
    }
  }

  lemma NumbersInFile(source: Source, spans: seq<Span>, n: int)
    requires InFile(spans, |source.lines|)
    ensures Among(Pieces(source, spans), n) ==> 1 <= n <= |source.lines|
    ensures 1 <= n <= |source.lines| ==> ContentIs(Pieces(source, spans), FileLine(n, source.lines[n - 1]))
  {
    PiecesOfFile(source, spans);
    hide Pieces;
  }

  ghost predicate ContentIs(pieces: seq<Piece>, x: FileLine) {
    forall k :: 0 <= k < |pieces| && pieces[k].Line? && pieces[k].number == x.number ==> pieces[k].content == x.content
  }

  lemma NotAmong(pieces: seq<Piece>, budget: int, n: int)
    requires !Among(pieces, n)
    ensures !FitsThrough(pieces, budget, n)
  {
    hide Charge;
  }

  lemma TakenShowsIff(pieces: seq<Piece>, budget: int, x: FileLine)
    requires ContentIs(pieces, x)
    ensures x in VisibleLines(pieces[..FitCount(pieces, budget)]) <==> FitsThrough(pieces, budget, x.number)
  {
    var k := FitCount(pieces, budget);
    VisibleIs(pieces[..k], x);
    hide Charge, FitCount, VisibleLines;
    if x in VisibleLines(pieces[..k]) {
      var i :| 0 <= i < |pieces[..k]| && pieces[..k][i].Line? && FileLine(pieces[..k][i].number, pieces[..k][i].content) == x;
      FitsIsCharge(pieces, budget, i);
    }
    if FitsThrough(pieces, budget, x.number) {
      var i :| 0 <= i < |pieces| && pieces[i].Line? && pieces[i].number == x.number && Charge(pieces[..i + 1]) <= budget;
      FitsIsCharge(pieces, budget, i);
      assert pieces[..k][i] == pieces[i];
    }
  }

  /** With edits exactly the selected lines are shown. */
  lemma SelectionShowsIff(source: Source, spans: seq<Span>, required: seq<int>, n: int)
    ensures ShowsLine(RenderedSelection(source, Selected(source, spans, CHAR_BUDGET, required), CHAR_BUDGET), source.lines, n) <==>
      n in Selected(source, spans, CHAR_BUDGET, required)
  {
    var selected := Selected(source, spans, CHAR_BUDGET, required);
    var total := |source.lines|;
    SelectedInFile(source, spans, CHAR_BUDGET, required);
    if selected != {} {
      SelectionIsShown(source, spans, CHAR_BUDGET, required);
      NumberedShows(source, LinesIn(1, total, selected), n);
    } else {
      NothingSelected(source, n);
    }
  }

  lemma NumberedShows(source: Source, numbers: seq<int>, n: int)
    requires forall k :: 0 <= k < |numbers| ==> 1 <= numbers[k] <= |source.lines|
    ensures 1 <= n <= |source.lines| ==> (FileLine(n, source.lines[n - 1]) in Numbered(source, numbers) <==> n in numbers)
    ensures n in numbers ==> 1 <= n <= |source.lines|
  {
    var shown := Numbered(source, numbers);
    if n in numbers {
      var k :| 0 <= k < |numbers| && numbers[k] == n;
      assert shown[k] == FileLine(n, source.lines[n - 1]);
    }
  }

  lemma NothingSelected(source: Source, n: int)
    ensures !ShowsLine(RenderedSelection(source, {}, CHAR_BUDGET), source.lines, n)
  {
    var total := |source.lines|;
    RunsInFile(total, {});
    RenderedShowsIff(source, RunsOf(1, total, {}), n);
    NoneShown(source, 1, total);
  }

  lemma NoneShown(source: Source, lo: int, hi: int)
    requires 1 <= lo <= hi + 1 && hi == |source.lines|
    ensures InFile(RunsOf(lo, hi, {}), hi) && forall k :: 0 <= k < |Pieces(source, RunsOf(lo, hi, {}))| ==> !Pieces(source, RunsOf(lo, hi, {}))[k].Line?
  {
  }

  /** What the section shows of a line, exactly: without edits, what the view has as far as it fits; with
      edits, what the selection keeps. */
  ghost predicate InSection(source: Source, spans: seq<Span>, required: seq<int>, n: int)
    requires InFile(spans, |source.lines|)
  {
    if required == [] then FitsThrough(Pieces(source, spans), CHAR_BUDGET, n)
    else n in Selected(source, spans, CHAR_BUDGET, required)
  }

  lemma SectionShowsIff(source: Source, spans: seq<Span>, required: seq<int>, n: int)
    requires InFile(spans, |source.lines|)
    ensures ShowsLine(SectionOutline(source, spans, required), source.lines, n) <==> InSection(source, spans, required, n)
  {
    if required == [] {
      RenderedShowsIff(source, spans, n);
    } else {
      SelectionShowsIff(source, spans, required, n);
    }
  }

  // ----- observed lines

  /** Some call read, hit or edited the line. */
  ghost predicate Mentions(o: Observed, total: nat, line: int) {
    line in ClampedLines(o.range, total) || line in o.searched || line in o.edited || line in o.editContext
  }

  ghost predicate ObservedLine(all: seq<Observed>, total: nat, line: int) {
    1 <= line <= total && exists i :: 0 <= i < |all| && Mentions(all[i], total, line)
  }

  lemma TouchedIff(lines: seq<int>, salience: real, marker: Marker, line: int)
    ensures Touched(Touches(lines, salience, marker), line) <==> line in lines
  {
    var touches := Touches(lines, salience, marker);
    if line in lines {
      var k :| 0 <= k < |lines| && lines[k] == line;
      assert touches[k].line == line;
    }
  }

  lemma TouchedEither(a: seq<Touch>, b: seq<Touch>, line: int)
    ensures Touched(a + b, line) <==> Touched(a, line) || Touched(b, line)
  {
    assert forall k :: 0 <= k < |a| ==> (a + b)[k] == a[k];
    assert forall k :: 0 <= k < |b| ==> (a + b)[|a| + k] == b[k];
  }

  lemma OneTouchedIff(o: Observed, latest: nat, total: nat, line: int)
    requires o.sequenceIndex <= latest
    ensures Touched(ObservedTouches(o, latest, total), line) <==> Mentions(o, total, line)
  {
    hide *;
    var decay := Power(SALIENCE_DECAY, latest - o.sequenceIndex);
    var a := Touches(ClampedLines(o.range, total), 4.0 * decay, ReadMarker);
    var b, c := Touches(o.searched, 5.0 * decay, SearchMarker), Touches(o.edited, 6.0 * decay, EditMarker);
    var d := Touches(o.editContext, 6.0 * decay, EditContextMarker);
    TouchesAre(o, latest, total);
    TouchedIff(ClampedLines(o.range, total), 4.0 * decay, ReadMarker, line);
    TouchedIff(o.searched, 5.0 * decay, SearchMarker, line);
    TouchedIff(o.edited, 6.0 * decay, EditMarker, line);
    TouchedIff(o.editContext, 6.0 * decay, EditContextMarker, line);
    TouchedEither(a, b, line);
    TouchedEither(a + b, c, line);
    TouchedEither(a + b + c, d, line);
    MentionsMeans(o, total, line);
  }

  lemma MentionsMeans(o: Observed, total: nat, line: int)
    ensures Mentions(o, total, line) <==>
      line in ClampedLines(o.range, total) || line in o.searched || line in o.edited || line in o.editContext
  {
  }

  lemma {:induction false} AllTouchedIff(all: seq<Observed>, latest: nat, total: nat, line: int)
    requires NoneAfter(all, latest)
    ensures Touched(AllTouches(all, latest, total), line) <==> exists i :: 0 <= i < |all| && Mentions(all[i], total, line)
  {
    if all != [] {
      var front, last := all[..|all| - 1], all[|all| - 1];
      OneMoreTouches(all, latest, total, |all| - 1);
      assert all[..|all|] == all;
      AllTouchedIff(front, latest, total, line);
      OneTouchedIff(last, latest, total, line);
      TouchedEither(AllTouches(front, latest, total), ObservedTouches(last, latest, total), line);
      hide Touched, AllTouches, ObservedTouches, Mentions;
      assert forall k :: 0 <= k < |front| ==> front[k] == all[k];
    }
  }

  /** The windows around all scored lines, and the latest read. */
  function Marked(s: Scored, latestRead: Option<(int, int)>, total: nat): seq<(int, int)> {
    EditWindows(s.scores, Lines(RequiredLines(s)), total) + Clamp(latestRead, total)
    + SalientRegions(OtherLines(s.scores, Lines(RequiredLines(s))), total)
  }

  lemma {:induction false} SplitHas(scores: seq<(int, real)>, lines: set<int>, x: (int, real))
    requires x in scores
    ensures x in OnlyLines(scores, lines) || x in OtherLines(scores, lines)
  {
    if x != scores[0] {
      assert x in scores[1..];
      SplitHas(scores[1..], lines, x);
    }
  }

  /** A scored line is in its own window. */
  lemma OwnWindow(scores: seq<(int, real)>, x: (int, real), total: nat)
    requires x in scores && 1 <= x.0 <= total
    ensures Covers(SalientRegions(scores, total), x.0)
  {
    var sorted := StableSort(scores, MoreSalient);
    SameElements(scores, MoreSalient);
    assert x in sorted;
    hide StableSort;
    var k :| 0 <= k < |sorted| && sorted[k] == x;
    assert SalientRegions(scores, total)[k].0 <= x.0 <= SalientRegions(scores, total)[k].1;
  }

  lemma ScoredIsMarked(s: Scored, latestRead: Option<(int, int)>, total: nat, line: int)
    requires HasScore(s.scores, line) && 1 <= line <= total
    ensures line in CoveredLines(Marked(s, latestRead, total), total)
  {
    var i :| 0 <= i < |s.scores| && s.scores[i].0 == line;
    var edited := Lines(RequiredLines(s));
    var x := s.scores[i];
    SplitHas(s.scores, edited, x);
    var edits, others := EditWindows(s.scores, edited, total), SalientRegions(OtherLines(s.scores, edited), total);
    if x in OnlyLines(s.scores, edited) {
      OwnWindow(OnlyLines(s.scores, edited), x, total);
    } else {
      OwnWindow(OtherLines(s.scores, edited), x, total);
    }
    hide SalientRegions, OnlyLines, OtherLines, RequiredLines, Clamp, Covers, Lines;
    CoversEither(edits, Clamp(latestRead, total), line);
    CoversEither(edits + Clamp(latestRead, total), others, line);
  }

  /** The view has every observed line when the marked lines keep to the line budget, or the file does. */
  lemma ViewHasObserved(spans: seq<Span>, root: ContentNode, all: seq<Observed>, latest: nat, s: Scored, whole: bool, line: int)
    requires root.start == 1 && root.end >= 1 && NoneAfter(all, latest)
    requires s == WithTouches(Unscored, AllTouches(all, latest, root.end), root.end)
    requires IsView(spans, root, s, LatestRead(all), whole) && ObservedLine(all, root.end, line)
    requires root.end <= LINE_BUDGET || |CoveredLines(Marked(s, LatestRead(all), root.end), root.end)| <= LINE_BUDGET
    ensures line in ShownLines(spans, root.end)
  {
    hide *;
    ObservedIsScored(all, latest, root.end, line);
    ScoredIsMarked(s, LatestRead(all), root.end, line);
    if root.end > LINE_BUDGET {
      MarkedIsShown(spans, root, s, LatestRead(all), whole, line);
    } else {
      WholeShows(spans, root, s, LatestRead(all), whole, line);
    }
  }

  lemma ObservedIsScored(all: seq<Observed>, latest: nat, total: nat, line: int)
    requires NoneAfter(all, latest) && ObservedLine(all, total, line)
    ensures 1 <= line <= total && HasScore(WithTouches(Unscored, AllTouches(all, latest, total), total).scores, line)
  {
    ScoresAre(AllTouches(all, latest, total), total);
    AllTouchedIff(all, latest, total, line);
    hide Touched, AllTouches, WithTouches, Mentions;
  }

  lemma WholeShows(spans: seq<Span>, root: ContentNode, s: Scored, latestRead: Option<(int, int)>, whole: bool, line: int)
    requires root.end <= LINE_BUDGET && IsView(spans, root, s, latestRead, whole) && 1 <= line <= root.end
    ensures line in ShownLines(spans, root.end)
  {
    assert spans == [Span(1, root.end, true)];
  }

  lemma MarkedIsShown(spans: seq<Span>, root: ContentNode, s: Scored, latestRead: Option<(int, int)>, whole: bool, line: int)
    requires root.start == 1 && root.end > LINE_BUDGET && IsView(spans, root, s, latestRead, whole)
    requires |CoveredLines(Marked(s, latestRead, root.end), root.end)| <= LINE_BUDGET
    requires line in CoveredLines(Marked(s, latestRead, root.end), root.end)
    ensures line in ShownLines(spans, root.end)
  {
    var total, edited := root.end, Lines(RequiredLines(s));
    hide Lines, RequiredLines, EditWindows, SalientRegions, OtherLines, Clamp, VisibleRegions, FoldedViewOf, ShownLines;
    var outline :| OutlineFor(outline, root, whole)
      && var regions := Wanted(s.scores, edited, latestRead, outline, total);
         if regions != [] then FoldedViewOf(spans, total, regions) else IsCollapse(spans, root, LINE_BUDGET);
    var regions := Wanted(s.scores, edited, latestRead, outline, total);
    assert regions != [] by {
      assert Marked(s, latestRead, total) != [];
    }
    EditsStayVisible(spans, total, s.scores, edited, latestRead, outline);
  }

  // ----- nothing is lost that fits

  lemma {:induction false} LinesAmong(source: Source, first: int, last: int, n: int)
    requires first <= last ==> 1 <= first && last <= |source.lines|
    ensures first <= n <= last ==> Among(LinePieces(source, first, last), n)
    decreases last - first
  {
    var pieces := LinePieces(source, first, last);
    if first < n <= last {
      LinesAmong(source, first + 1, last, n);
      AmongEither([pieces[0]], LinePieces(source, first + 1, last), n);
    } else if first == n <= last {
      assert pieces[0].Line? && pieces[0].number == n;
    }
  }

  lemma AmongEither(a: seq<Piece>, b: seq<Piece>, n: int)
    ensures Among(a, n) || Among(b, n) ==> Among(a + b, n)
  {
    assert forall k :: 0 <= k < |a| ==> (a + b)[k] == a[k];
    assert forall k :: 0 <= k < |b| ==> (a + b)[|a| + k] == b[k];
  }

  lemma {:induction false} ShownAmong(source: Source, spans: seq<Span>, n: int)
    requires InFile(spans, |source.lines|) && Shows(spans, n)
    ensures Among(Pieces(source, spans), n)
  {
    hide Among;
    var first, rest := spans[0], spans[1..];
    assert InFile([first], |source.lines|);
    AmongEither(SpanPieces(source, first), Pieces(source, rest), n);
    if first.visible && first.Holds(n) {
      LinesAmong(source, first.start, first.end, n);
    } else {
      ShownAmong(source, rest, n);
    }
  }

  lemma {:induction false} PrefixChargesLess(pieces: seq<Piece>, k: nat)
    requires k <= |pieces|
    ensures Charge(pieces[..k]) <= Charge(pieces)
  {
    if k > 0 {
      assert pieces[..k][0] == pieces[0] && pieces[..k][1..] == pieces[1..][..k - 1];
      PrefixChargesLess(pieces[1..], k - 1);
    }
  }

  lemma AllFit(pieces: seq<Piece>, budget: int, n: int)
    requires Among(pieces, n) && Charge(pieces) <= budget
    ensures FitsThrough(pieces, budget, n)
  {
    hide Charge;
    var k :| 0 <= k < |pieces| && pieces[k].Line? && pieces[k].number == n;
    PrefixChargesLess(pieces, k + 1);
  }

  /** Where nothing was edited, every observed line is shown as it now stands, if the marked lines keep to
      the line budget and the view to the character budget. */
  lemma ObservedStaysVisible(lines: seq<string>, root: ContentNode, all: seq<Observed>, latest: nat, s: Scored, whole: bool,
                             spans: seq<Span>, line: int)
    requires root.start == 1 && root.end == |lines| >= 1 && NoneAfter(all, latest)
    requires s == WithTouches(Unscored, AllTouches(all, latest, |lines|), |lines|) && RequiredLines(s) == []
    requires IsView(spans, root, s, LatestRead(all), whole) && ObservedLine(all, |lines|, line)
    requires |lines| <= LINE_BUDGET || |CoveredLines(Marked(s, LatestRead(all), |lines|), |lines|)| <= LINE_BUDGET
    requires InFile(spans, |lines|) && Charge(Pieces(Source(lines, MarkerTexts(s)), spans)) <= CHAR_BUDGET
    ensures ShowsLine(SectionOutline(Source(lines, MarkerTexts(s)), spans, []), lines, line)
  {
    var source := Source(lines, MarkerTexts(s));
    ViewHasObserved(spans, root, all, latest, s, whole, line);
    assert Shows(spans, line);
    hide *;
    ShownAmong(source, spans, line);
    AllFit(Pieces(source, spans), CHAR_BUDGET, line);
    FitsIsShown(source, spans, line);
  }

  lemma FitsIsShown(source: Source, spans: seq<Span>, n: int)
    requires InFile(spans, |source.lines|) && FitsThrough(Pieces(source, spans), CHAR_BUDGET, n)
    ensures ShowsLine(SectionOutline(source, spans, []), source.lines, n)
  {
    SectionShowsIff(source, spans, [], n);
  }

  /** Whatever a folded call observed: the request still shows the line if and only if the file is readable
      and its section has the line. */
  lemma FoldedLineShownIff(seen: seq<Folding.Sighting>, readable: string -> bool, settings: Folding.Settings,
                           protected: set<string>, view: Folding.Accumulator -> string, folded: set<string>, callId: string,
                           path: string, source: Source, spans: seq<Span>, required: seq<int>, n: int)
    requires Folding.ReadsOneFile(seen) && callId in folded && Folding.Saw(seen, callId, path)
    requires forall id :: id in folded <==> Folding.IsFolded(Folding.Accumulated(seen, readable), settings, protected, view, id)
    requires InFile(spans, |source.lines|)
    ensures var all := Folding.Accumulated(seen, readable);
      var sections := Folding.Mentioning(Folding.Renderable(Folding.Selected(all, settings), view), folded);
      Folding.ShowsFile(sections, path) && ShowsLine(SectionOutline(source, spans, required), source.lines, n) <==>
        readable(path) && InSection(source, spans, required, n)
  {
    Folding.FoldedFileShownIff(seen, readable, settings, protected, view, folded, callId, path);
    SectionShowsIff(source, spans, required, n);
    hide *;
  }
}
